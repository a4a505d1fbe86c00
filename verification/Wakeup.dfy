/** No wake-up is lost: a live thread with a non-empty queue will look at it. */
module Wakeup {
  import opened Protocol
  import opened Invariant
  import opened Preservation

  /** The operation is about to raise the flag of `a`, or is the owner's own loop. */
  predicate Rouses(pc: Pc, a: nat) {
    (pc.RaiseFlag? || pc.CollectPop? || pc.CollectReset? || pc.CollectCheck?) && pc.a == a
  }

  ghost predicate Awake(s: State, a: nat)
    requires a in s.threads
  {
    s.threads[a].status == Registered && s.threads[a].queue != [] ==>
      || s.threads[a].flag == QueuedObjects
      || exists i :: i in s.ops && Rouses(s.ops[i].pc, a)
  }

  ghost predicate AllAwake(s: State) {
    forall a {:trigger Awake(s, a)} | a in s.threads :: Awake(s, a)
  }

  /** The step changed nothing `Awake` looks at. */
  ghost predicate Undisturbed(s: State, s': State, a: nat)
    requires a in s.threads
  {
    && a in s'.threads
    && s'.threads[a].status == s.threads[a].status
    && s'.threads[a].flag == s.threads[a].flag
    && s'.threads[a].queue == s.threads[a].queue
    && forall i | i in s.ops && Rouses(s.ops[i].pc, a) :: i in s'.ops && Rouses(s'.ops[i].pc, a)
  }

  lemma StaysAwake(s: State, s': State, a: nat)
    requires a in s.threads && Awake(s, a) && Undisturbed(s, s', a)
    ensures Awake(s', a)
  {
    if i :| i in s.ops && Rouses(s.ops[i].pc, a) {
      assert i in s'.ops && Rouses(s'.ops[i].pc, a);
    }
  }

  lemma CountUndisturbed(s: State, s': State, i: nat, f: nat, a: nat)
    requires CountAccess(s, s', i, f)
    ensures s'.threads == s.threads
    ensures a in s.threads ==> Undisturbed(s, s', a)
  {
  }

  lemma WeakUndisturbed(s: State, s': State, i: nat, a: nat)
    requires WeakAccess(s, s', i)
    ensures s'.threads == s.threads
    ensures a in s.threads ==> Undisturbed(s, s', a)
  {
  }

  lemma QueueAwake(s: State, s': State, i: nat, a: nat)
    requires QueueAccess(s, s', i) && i in s.ops && OpOk(s, i)
    requires a in s.threads && StatusOk(s.threads[a]) && Awake(s, a)
    ensures Awake(s', a)
  {
    var pc := s.ops[i].pc;
    if pc.Push? && pc.a == a {
      assert Rouses(s'.ops[i].pc, a);
    } else if !(pc.RaiseFlag? && pc.a == a) {
      assert Undisturbed(s, s', a);
      StaysAwake(s, s', a);
    }
  }

  /** The steps of a loop or an exit only touch their own queue. */
  lemma ThreadUndisturbed(s: State, s': State, i: nat, f: nat, a: nat)
    requires ThreadAccess(s, s', i, f) && i in s.ops && OpOk(s, i)
    requires a in s.threads && (s.ops[i].pc.a != a || s.ops[i].pc.CollectUpgrade?)
    ensures Undisturbed(s, s', a)
  {
  }

  lemma ThreadAwake(s: State, s': State, i: nat, f: nat, a: nat)
    requires ThreadAccess(s, s', i, f) && i in s.ops && OpOk(s, i)
    requires a in s.threads && StatusOk(s.threads[a]) && Awake(s, a)
    ensures Awake(s', a)
  {
    var pc := s.ops[i].pc;
    if pc.a != a || pc.CollectUpgrade? {
      ThreadUndisturbed(s, s', i, f, a);
      StaysAwake(s, s', a);
    } else if pc.CollectPop? || pc.CollectReset? || pc.CollectCheck? {
      if s'.threads[a].queue != [] { assert Rouses(s'.ops[i].pc, a); }
    }
  }

  predicate IsThreadCall(step: Step) {
    step.StepInit? || step.StepDeath? || step.StepCollect?
  }

  lemma ThreadCallAwake(s: State, s': State, step: Step, a: nat)
    requires Next(s, s', step) && IsThreadCall(step)
    requires a in s.threads && StatusOk(s.threads[a]) && Awake(s, a)
    ensures Awake(s', a)
  {
    if step.StepCollect? || step.t != a {
      assert Undisturbed(s, s', a);
      StaysAwake(s, s', a);
    }
  }

  /** Calls on objects do not touch the threads, and start with an operation of their own. */
  lemma ObjectCallUndisturbed(s: State, s': State, step: Step, a: nat)
    requires Next(s, s', step) && !step.Access? && !IsThreadCall(step)
    requires a in s.threads
    ensures Undisturbed(s, s', a)
  {
  }

  lemma CallAwake(s: State, s': State, step: Step, a: nat)
    requires Next(s, s', step) && !step.Access?
    requires a in s.threads && StatusOk(s.threads[a]) && Awake(s, a)
    ensures Awake(s', a)
  {
    if IsThreadCall(step) {
      ThreadCallAwake(s, s', step, a);
    } else {
      ObjectCallUndisturbed(s, s', step, a);
      StaysAwake(s, s', a);
    }
  }

  lemma AccessAwake(s: State, s': State, i: nat, f: nat, a: nat)
    requires AccessStep(s, s', i, f) && i in s.ops && OpOk(s, i)
    requires a in s.threads && StatusOk(s.threads[a]) && Awake(s, a)
    ensures Awake(s', a)
  {
    if CountAccess(s, s', i, f) {
      CountUndisturbed(s, s', i, f, a);
      StaysAwake(s, s', a);
    } else if QueueAccess(s, s', i) {
      QueueAwake(s, s', i, a);
    } else if WeakAccess(s, s', i) {
      WeakUndisturbed(s, s', i, a);
      StaysAwake(s, s', a);
    } else {
      ThreadAwake(s, s', i, f, a);
    }
  }

  lemma StepAwake(s: State, s': State, step: Step)
    requires Inv(s) && AllAwake(s) && Next(s, s', step)
    ensures AllAwake(s')
  {
    forall a | a in s'.threads
      ensures Awake(s', a)
    {
      ThreadsStay(s, s', step);
      assert ThreadOk(s, a) && Awake(s, a);
      if step.Access? {
        assert OpOk(s, step.i);
        AccessAwake(s, s', step.i, step.f, a);
      } else {
        CallAwake(s, s', step, a);
      }
    }
  }

  lemma ThreadsStay(s: State, s': State, step: Step)
    requires Next(s, s', step)
    ensures s'.threads.Keys == s.threads.Keys
  {
    if step.Access? {
      var i, f := step.i, step.f;
      if CountAccess(s, s', i, f) { CountUndisturbed(s, s', i, f, 0); }
      else if QueueAccess(s, s', i) { QueueStays(s, s', i); }
      else if WeakAccess(s, s', i) { WeakUndisturbed(s, s', i, 0); }
      else { LoopStays(s, s', i, f); }
    } else {
      CallStays(s, s', step);
    }
  }

  lemma QueueStays(s: State, s': State, i: nat)
    requires QueueAccess(s, s', i)
    ensures s'.threads.Keys == s.threads.Keys
  {
  }

  lemma LoopStays(s: State, s': State, i: nat, f: nat)
    requires ThreadAccess(s, s', i, f)
    ensures s'.threads.Keys == s.threads.Keys
  {
  }

  lemma CallStays(s: State, s': State, step: Step)
    requires Next(s, s', step) && !step.Access?
    ensures s'.threads.Keys == s.threads.Keys
  {
  }

  lemma {:induction false} StretchAwake(states: seq<State>, steps: seq<Step>, k: nat)
    requires IsPoliteStretch(states, steps) && k < |states|
    requires Inv(states[0]) && AllAwake(states[0])
    ensures AllAwake(states[k])
  {
    if k > 0 {
      StretchAwake(states, steps, k - 1);
      StretchPreserves(states, steps, k - 1);
      assert PoliteAt(states, steps, k - 1);
      StepAwake(states[k - 1], states[k], steps[k - 1]);
    }
  }

  /** For a live thread, a non-empty queue means the flag is raised, a pusher is
      about to raise it, or the owner is in its own loop. */
  lemma NoLostWakeup(s: State, a: nat)
    requires Reached(s)
    requires a in s.threads && s.threads[a].status == Registered && s.threads[a].queue != []
    ensures s.threads[a].flag == QueuedObjects || exists i :: i in s.ops && Rouses(s.ops[i].pc, a)
  {
    var s0 :| Initial(s0) && Leads(s0, s);
    var states, steps :|
      IsPoliteStretch(states, steps) && states[0] == s0 && states[|steps|] == s;
    InitialInv(s0);
    StretchAwake(states, steps, |steps|);
    assert Awake(s, a);
  }
}
