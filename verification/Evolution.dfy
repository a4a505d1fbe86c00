/** What never goes back: facts about an object or a thread that every later
    state of a polite run still has. */
module Evolution {
  import opened Words
  import opened Protocol
  import opened Invariant
  import opened Frame
  import opened CountSteps
  import opened Preservation

  ghost predicate ObjEvolves(x: Obj, x': Obj) {
    && x'.creator == x.creator
    && (x.sw.merged ==> x'.sw.merged)
    && (x.phase != Unqueued ==> x'.phase != Unqueued)
    && (x.phase == Settled ==> x'.phase == Settled)
    && x.destroys <= x'.destroys && x.frees <= x'.frees
    && (IsExhausted(x.sw) ==> IsExhausted(x'.sw))
  }

  ghost predicate ThreadEvolves(y: Thread, y': Thread) {
    && (y.status != Fresh ==> y'.status != Fresh)
    && (y.status == Departed ==>
          && y'.status == Departed
          && (y.flag == Dead ==> y'.flag == Dead)
          && (y.arc == {} ==> y'.arc == {} && IsSuffix(y'.queue, y.queue)))
  }

  predicate IsSuffix(q': seq<nat>, q: seq<nat>) {
    |q'| <= |q| && q' == q[|q| - |q'|..]
  }

  ghost predicate Evolves(s: State, s': State) {
    && (forall o | o in s.objs :: o in s'.objs && ObjEvolves(s.objs[o], s'.objs[o]))
    && (forall a | a in s.threads :: a in s'.threads && ThreadEvolves(s.threads[a], s'.threads[a]))
  }

  /** The step writes at most object `o`, and writes it well. */
  ghost predicate EvolvesAt(s: State, s': State, o: nat) {
    && s'.threads == s.threads
    && o in s.objs && o in s'.objs && ObjEvolves(s.objs[o], s'.objs[o])
    && s'.objs == s.objs[o := s'.objs[o]]
  }

  lemma IncEvolves(s: State, s': State, i: nat, f: nat, o: nat)
    requires At(s, i, o) && ObjOf(s.ops[i].pc) == Some(o)
    requires s.ops[i].pc.IncStore? || s.ops[i].pc.CloneShared? || s.ops[i].pc.UpgradeShared?
    requires CountAccess(s, s', i, f)
    requires s.ops[i].pc.CloneShared? ==> s.objs[o].sw.count != -1
    ensures EvolvesAt(s, s', o)
  {
  }

  lemma DropEvolves(s: State, s': State, i: nat, f: nat, o: nat)
    requires At(s, i, o) && ObjOf(s.ops[i].pc) == Some(o)
    requires s.ops[i].pc.DropStore? || s.ops[i].pc.DropMerge? || s.ops[i].pc.DropShared? || s.ops[i].pc.StoreUnowned?
    requires CountAccess(s, s', i, f)
    ensures EvolvesAt(s, s', o)
  {
  }

  lemma MergeEvolves(s: State, s': State, i: nat, o: nat)
    requires At(s, i, o) && s.ops[i].pc.MergeCas? && s.ops[i].pc.o == o && MergeCasStep(s, s', i)
    ensures Evolves(s, s')
  {
    if s'.objs != s.objs { AtEvolves(s, s', o); }
  }

  lemma PushEvolves(s: State, s': State, i: nat, o: nat)
    requires At(s, i, o) && s.ops[i].pc.Push? && s.ops[i].pc.o == o && PushStep(s, s', i)
    ensures Evolves(s, s')
  {
    assert ObjEvolves(s.objs[o], s'.objs[o]);
  }

  lemma CarryEvolves(s: State, s': State, i: nat, o: nat)
    requires At(s, i, o) && Carries(s.ops[i].pc, o) && QueueAccess(s, s', i)
    ensures Evolves(s, s')
  {
    if s.ops[i].pc.MergeCas? { MergeEvolves(s, s', i, o); }
    else if s.ops[i].pc.Push? { PushEvolves(s, s', i, o); }
  }

  lemma ArcEvolves(s: State, s': State, i: nat)
    requires i in s.ops && OpOk(s, i) && QueueAccess(s, s', i)
    requires s.ops[i].pc.RaiseFlag? || s.ops[i].pc.DropArc?
    ensures Evolves(s, s')
  {
  }

  lemma DestroyEvolves(s: State, s': State, i: nat, o: nat)
    requires i in s.ops && WeakAccess(s, s', i) && ObjOf(s.ops[i].pc) == Some(o)
    requires s.ops[i].pc.StartDestroy? || s.ops[i].pc.RunDestructor? || s.ops[i].pc.Free?
    ensures EvolvesAt(s, s', o)
  {
  }

  lemma LockEvolves(s: State, s': State, i: nat, o: nat)
    requires i in s.ops && WeakAccess(s, s', i) && ObjOf(s.ops[i].pc) == Some(o)
    requires s.ops[i].pc.LockWeak? || s.ops[i].pc.UnlockWeak? || s.ops[i].pc.HoldMut?
    ensures EvolvesAt(s, s', o)
  {
  }

  /** These accesses only load. */
  lemma LoadEvolves(s: State, s': State, i: nat)
    requires i in s.ops && WeakAccess(s, s', i)
    requires s.ops[i].pc.UniqueShared? || s.ops[i].pc.UniqueBiased? || s.ops[i].pc.CountBiased? || s.ops[i].pc.Counted?
    ensures s'.objs == s.objs && s'.threads == s.threads
  {
  }

  lemma WeakEvolves(s: State, s': State, i: nat)
    requires i in s.ops && WeakAccess(s, s', i)
    ensures Evolves(s, s')
  {
    var pc := s.ops[i].pc;
    if pc.UniqueShared? || pc.UniqueBiased? || pc.CountBiased? || pc.Counted? {
      LoadEvolves(s, s', i);
    } else {
      if pc.LockWeak? || pc.UnlockWeak? || pc.HoldMut? { LockEvolves(s, s', i, pc.o); }
      else { DestroyEvolves(s, s', i, pc.o); }
      AtEvolves(s, s', pc.o);
    }
  }

  /** Popping moves one waiting object to the operation that merges it. */
  lemma PopEvolves(s: State, s': State, a: nat, t: nat, k: nat)
    requires a in s.threads && s.threads[a].queue != [] && s.threads[a].queue[0] in s.objs
    requires s.objs[s.threads[a].queue[0]].phase == Waiting
    requires s' == PopInto(s, a, t, k)
    ensures Evolves(s, s')
  {
    assert ObjEvolves(s.objs[s.threads[a].queue[0]], s'.objs[s.threads[a].queue[0]]);
    assert IsSuffix(s'.threads[a].queue, s.threads[a].queue);
  }

  lemma LoopEvolves(s: State, s': State, i: nat, f: nat, a: nat)
    requires i in s.ops && ThreadAccess(s, s', i, f)
    requires QueueOf(s.ops[i].pc) == Some(a) && a in s.threads && ThreadOk(s, a)
    requires s.ops[i].pc.CollectPop? || s.ops[i].pc.Drain?
    ensures Evolves(s, s')
  {
    if s.threads[a].queue != [] { PopEvolves(s, s', a, s.ops[i].tid, f); }
  }

  lemma ThreadStepEvolves(s: State, s': State, i: nat, f: nat)
    requires i in s.ops && OpOk(s, i) && ThreadAccess(s, s', i, f)
    requires !s.ops[i].pc.CollectPop? && !s.ops[i].pc.Drain?
    ensures Evolves(s, s')
  {
  }

  lemma AtEvolves(s: State, s': State, o: nat)
    requires EvolvesAt(s, s', o)
    ensures Evolves(s, s')
  {
  }

  lemma CountAccessEvolves(s: State, s': State, i: nat, f: nat)
    requires Inv(s) && CountAccess(s, s', i, f) && Polite(s, Access(i, f))
    ensures Evolves(s, s')
  {
    assert OpOk(s, i);
    var pc := s.ops[i].pc;
    assert ObjectOk(s, pc.o);
    if pc.IncStore? || pc.CloneShared? || pc.UpgradeShared? {
      IncEvolves(s, s', i, f, pc.o);
    } else {
      DropEvolves(s, s', i, f, pc.o);
    }
    AtEvolves(s, s', pc.o);
  }

  lemma QueueAccessEvolves(s: State, s': State, i: nat)
    requires Inv(s) && QueueAccess(s, s', i)
    ensures Evolves(s, s')
  {
    assert OpOk(s, i);
    if s.ops[i].pc.RaiseFlag? || s.ops[i].pc.DropArc? {
      ArcEvolves(s, s', i);
    } else {
      assert ObjectOk(s, s.ops[i].pc.o);
      CarryEvolves(s, s', i, s.ops[i].pc.o);
    }
  }

  lemma ThreadAccessEvolves(s: State, s': State, i: nat, f: nat)
    requires Inv(s) && ThreadAccess(s, s', i, f)
    ensures Evolves(s, s')
  {
    assert OpOk(s, i);
    if s.ops[i].pc.CollectPop? || s.ops[i].pc.Drain? {
      assert ThreadOk(s, s.ops[i].pc.a);
      LoopEvolves(s, s', i, f, s.ops[i].pc.a);
    } else {
      ThreadStepEvolves(s, s', i, f);
    }
  }

  lemma CloneDirectEvolves(s: State, s': State, t: nat, o: nat, h: nat, h': nat)
    requires Inv(s) && CloneDirect(s, s', t, o, h, h') && s.objs[o].sw.count != -1
    ensures Evolves(s, s')
  {
    assert ObjectOk(s, o);
    AtEvolves(s, s', o);
  }

  predicate IsObjectCall(step: Step) {
    step.StepDrop? || step.StepDowngrade? || step.StepWeakClone? || step.StepWeakDrop? || step.StepUnique?
  }

  lemma ObjectCallEvolves(s: State, s': State, step: Step)
    requires Next(s, s', step) && IsObjectCall(step)
    ensures Evolves(s, s')
  {
    AtEvolves(s, s', step.o);
  }

  lemma ThreadCallEvolves(s: State, s': State, step: Step)
    requires Next(s, s', step)
    requires !IsObjectCall(step) && !step.Access? && !step.StepCloneDirect?
    ensures Evolves(s, s')
  {
  }

  lemma AccessEvolves(s: State, s': State, i: nat, f: nat)
    requires Inv(s) && AccessStep(s, s', i, f) && Polite(s, Access(i, f))
    ensures Evolves(s, s')
  {
    if CountAccess(s, s', i, f) { CountAccessEvolves(s, s', i, f); }
    else if QueueAccess(s, s', i) { QueueAccessEvolves(s, s', i); }
    else if WeakAccess(s, s', i) { WeakEvolves(s, s', i); }
    else { ThreadAccessEvolves(s, s', i, f); }
  }

  lemma StepEvolves(s: State, s': State, step: Step)
    requires Inv(s) && Next(s, s', step) && Polite(s, step)
    ensures Evolves(s, s')
  {
    if step.Access? { AccessEvolves(s, s', step.i, step.f); }
    else if step.StepCloneDirect? { CloneDirectEvolves(s, s', step.t, step.o, step.h, step.h'); }
    else if IsObjectCall(step) { ObjectCallEvolves(s, s', step); }
    else { ThreadCallEvolves(s, s', step); }
  }

  lemma EvolvesTransitive(s: State, s1: State, s2: State)
    requires Evolves(s, s1) && Evolves(s1, s2)
    ensures Evolves(s, s2)
  {
    forall a | a in s.threads
      ensures a in s2.threads && ThreadEvolves(s.threads[a], s2.threads[a])
    {
      assert ThreadEvolves(s.threads[a], s1.threads[a]);
      assert ThreadEvolves(s1.threads[a], s2.threads[a]);
    }
    forall o | o in s.objs
      ensures o in s2.objs && ObjEvolves(s.objs[o], s2.objs[o])
    {
      assert ObjEvolves(s.objs[o], s1.objs[o]);
      assert ObjEvolves(s1.objs[o], s2.objs[o]);
    }
  }

  lemma {:induction false} StretchEvolves(states: seq<State>, steps: seq<Step>, k: nat)
    requires IsPoliteStretch(states, steps) && k < |states| && Inv(states[0])
    ensures Evolves(states[0], states[k])
  {
    if k > 0 {
      StretchEvolves(states, steps, k - 1);
      StretchPreserves(states, steps, k - 1);
      assert PoliteAt(states, steps, k - 1);
      StepEvolves(states[k - 1], states[k], steps[k - 1]);
      EvolvesTransitive(states[0], states[k - 1], states[k]);
    }
  }

  /** Whatever a polite run does after a reached state, objects and threads only move forward. */
  lemma LeadsEvolves(s: State, s': State)
    requires Reached(s) && Leads(s, s')
    ensures Evolves(s, s')
  {
    ReachedInv(s);
    var states, steps :|
      IsPoliteStretch(states, steps) && states[0] == s && states[|steps|] == s';
    StretchEvolves(states, steps, |steps|);
  }
}
