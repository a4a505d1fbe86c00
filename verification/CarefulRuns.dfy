/** A promise that callers can keep, and that makes every run polite: not to
    increment a shared count of -1, unless by an upgrade after the owner has
    departed. Then an object that its owner could still merge is queued only
    while its shared count is negative, so that the owner never merges it. */
module CarefulRuns {
  import opened Words
  import opened Protocol
  import opened Invariant
  import opened CountSteps
  import opened Preservation
  import opened Evolution

  /** While the owner is around, an object asks for a merge only if it owes references. */
  ghost predicate TidyObj(s: State, o: nat)
    requires o in s.objs
  {
    var x := s.objs[o];
    && !x.sw.merged && x.sw.queued
    && x.creator.Some? && x.creator.value in s.threads && s.threads[x.creator.value].status == Registered
    ==> x.sw.count < 0
  }

  ghost predicate Tidy(s: State) {
    forall o {:trigger TidyObj(s, o)} | o in s.objs :: TidyObj(s, o)
  }

  // ----- steps that leave the shared words alone, or merge them -----

  ghost predicate WordKept(x: Obj, x': Obj) {
    x'.creator == x.creator && (x'.sw == x.sw || x'.sw.merged)
  }

  ghost predicate KeepsObjects(s: State, s': State) {
    && (forall o | o in s.objs :: o in s'.objs && WordKept(s.objs[o], s'.objs[o]))
    && (forall o | o in s'.objs && o !in s.objs :: !s'.objs[o].sw.queued)
  }

  ghost predicate KeepsOwners(s: State, s': State) {
    forall a | a in s'.threads && s'.threads[a].status == Registered ::
      a in s.threads && (s.threads[a].status == Registered || s.threads[a].status == Fresh)
  }

  lemma KeepsTidy(s: State, s': State)
    requires Inv(s) && Tidy(s) && KeepsObjects(s, s') && KeepsOwners(s, s')
    ensures Tidy(s')
  {
    forall o | o in s'.objs
      ensures TidyObj(s', o)
    {
      if o in s.objs {
        assert TidyObj(s, o) && ObjectOk(s, o) && WordKept(s.objs[o], s'.objs[o]);
      }
    }
  }

  lemma QueueKeepsObjects(s: State, s': State, i: nat)
    requires QueueAccess(s, s', i)
    ensures KeepsObjects(s, s')
  {
  }

  lemma QueueKeepsOwners(s: State, s': State, i: nat)
    requires QueueAccess(s, s', i)
    ensures KeepsOwners(s, s')
  {
  }

  lemma DestroyKeepsObjects(s: State, s': State, i: nat)
    requires WeakAccess(s, s', i)
    requires s.ops[i].pc.StartDestroy? || s.ops[i].pc.RunDestructor? || s.ops[i].pc.Free?
    ensures KeepsObjects(s, s')
  {
  }

  lemma LockKeepsObjects(s: State, s': State, i: nat)
    requires WeakAccess(s, s', i)
    requires s.ops[i].pc.LockWeak? || s.ops[i].pc.UnlockWeak? || s.ops[i].pc.HoldMut?
    ensures KeepsObjects(s, s')
  {
  }

  lemma WeakKeepsObjects(s: State, s': State, i: nat)
    requires WeakAccess(s, s', i)
    ensures KeepsObjects(s, s')
  {
    var pc := s.ops[i].pc;
    if pc.StartDestroy? || pc.RunDestructor? || pc.Free? { DestroyKeepsObjects(s, s', i); }
    else if pc.LockWeak? || pc.UnlockWeak? || pc.HoldMut? { LockKeepsObjects(s, s', i); }
    else { LoadEvolves(s, s', i); }
  }

  lemma WeakKeepsOwners(s: State, s': State, i: nat)
    requires WeakAccess(s, s', i)
    ensures KeepsOwners(s, s')
  {
  }

  lemma ThreadKeepsObjects(s: State, s': State, i: nat, f: nat)
    requires ThreadAccess(s, s', i, f)
    ensures KeepsObjects(s, s')
  {
  }

  lemma ThreadKeepsOwners(s: State, s': State, i: nat, f: nat)
    requires ThreadAccess(s, s', i, f)
    ensures KeepsOwners(s, s')
  {
  }

  lemma CallKeepsObjects(s: State, s': State, step: Step)
    requires Next(s, s', step) && !step.Access? && !step.StepCloneDirect?
    ensures KeepsObjects(s, s')
  {
  }

  lemma CallKeepsOwners(s: State, s': State, step: Step)
    requires Next(s, s', step) && !step.Access? && !step.StepCloneDirect?
    ensures KeepsOwners(s, s')
  {
  }

  // ----- steps that count -----

  /** Only object `o` was written, and it stays tidy. */
  lemma TouchTidy(s: State, s': State, o: nat)
    requires Tidy(s) && o in s.objs && o in s'.objs
    requires s'.threads == s.threads && s'.objs == s.objs[o := s'.objs[o]]
    requires TidyObj(s', o)
    ensures Tidy(s')
  {
    forall p | p in s'.objs
      ensures TidyObj(s', p)
    {
      if p != o { assert TidyObj(s, p); }
    }
  }

  lemma IncrementTidy(s: State, s': State, i: nat, f: nat)
    requires Inv(s) && Tidy(s) && CountAccess(s, s', i, f) && Careful(s, Access(i, f))
    requires s.ops[i].pc.IncStore? || s.ops[i].pc.CloneShared? || s.ops[i].pc.UpgradeShared?
    ensures Tidy(s')
  {
    var o := s.ops[i].pc.o;
    assert ObjectOk(s, o) && TidyObj(s, o);
    TouchTidy(s, s', o);
  }

  lemma DecrementTidy(s: State, s': State, i: nat, f: nat)
    requires Tidy(s) && CountAccess(s, s', i, f)
    requires !s.ops[i].pc.IncStore? && !s.ops[i].pc.CloneShared? && !s.ops[i].pc.UpgradeShared?
    ensures Tidy(s')
  {
    var o := s.ops[i].pc.o;
    assert TidyObj(s, o);
    TouchTidy(s, s', o);
  }

  lemma CountTidy(s: State, s': State, i: nat, f: nat)
    requires Inv(s) && Tidy(s) && CountAccess(s, s', i, f) && Careful(s, Access(i, f))
    ensures Tidy(s')
  {
    if s.ops[i].pc.IncStore? || s.ops[i].pc.CloneShared? || s.ops[i].pc.UpgradeShared? {
      IncrementTidy(s, s', i, f);
    } else {
      DecrementTidy(s, s', i, f);
    }
  }

  lemma CloneDirectTidy(s: State, s': State, t: nat, o: nat, h: nat, h': nat)
    requires Inv(s) && Tidy(s) && CloneDirect(s, s', t, o, h, h') && s.objs[o].sw.count != -1
    ensures Tidy(s')
  {
    assert ObjectOk(s, o) && TidyObj(s, o);
    TouchTidy(s, s', o);
  }

  // ----- all steps -----

  lemma AccessTidy(s: State, s': State, i: nat, f: nat)
    requires Inv(s) && Tidy(s) && AccessStep(s, s', i, f) && Careful(s, Access(i, f))
    ensures Tidy(s')
  {
    if CountAccess(s, s', i, f) {
      CountTidy(s, s', i, f);
    } else {
      if QueueAccess(s, s', i) { QueueKeepsObjects(s, s', i); QueueKeepsOwners(s, s', i); }
      else if WeakAccess(s, s', i) { WeakKeepsObjects(s, s', i); WeakKeepsOwners(s, s', i); }
      else { ThreadKeepsObjects(s, s', i, f); ThreadKeepsOwners(s, s', i, f); }
      KeepsTidy(s, s');
    }
  }

  /** An owner about to merge still has a reference, so the shared half owes none. */
  lemma NeverRetires(s: State, i: nat)
    requires Inv(s) && Tidy(s) && i in s.ops && s.ops[i].pc.DropMerge?
    ensures s.ops[i].pc.o in s.objs && !s.objs[s.ops[i].pc.o].sw.queued
  {
    var DropMerge(o, h) := s.ops[i].pc;
    assert OpOk(s, i);
    assert ObjectOk(s, o) && TidyObj(s, o);
    assert h in s.objs[o].strong;
  }

  lemma CarefulIsPolite(s: State, step: Step)
    requires Inv(s) && Tidy(s) && Careful(s, step)
    ensures Polite(s, step)
  {
    if step.Access? && step.i in s.ops && s.ops[step.i].pc.DropMerge? { NeverRetires(s, step.i); }
  }

  lemma StepTidy(s: State, s': State, step: Step)
    requires Inv(s) && Tidy(s) && Next(s, s', step) && Careful(s, step)
    ensures Tidy(s')
  {
    if step.Access? {
      AccessTidy(s, s', step.i, step.f);
    } else if step.StepCloneDirect? {
      CloneDirectTidy(s, s', step.t, step.o, step.h, step.h');
    } else {
      CallKeepsObjects(s, s', step); CallKeepsOwners(s, s', step);
      KeepsTidy(s, s');
    }
  }

  /** An upgrade always keeps the invariant. It leaves an object that its owner
      may merge although it is queued if and only if it starts from -1 and the
      owner has not departed. */
  lemma UpgradeStaysTidyIff(s: State, s': State, i: nat, h': nat)
    requires Inv(s) && Tidy(s) && UpgradeSharedStep(s, s', i, h')
    ensures Inv(s')
    ensures var o := s.ops[i].pc.o;
      Tidy(s') <==> s.objs[o].sw.count != -1 || OwnerDeparted(s, o)
  {
    UpgradeSharedPreserves(s, s', i, h');
    var o := s.ops[i].pc.o;
    if s.objs[o].sw.count != -1 || OwnerDeparted(s, o) {
      assert CountAccess(s, s', i, h');
      CountTidy(s, s', i, h');
    } else {
      assert ObjectOk(s, o);
      assert !TidyObj(s', o);
    }
  }

  // ----- runs -----

  ghost predicate CarefulAt(states: seq<State>, steps: seq<Step>, k: nat) {
    k < |steps| < |states| && Next(states[k], states[k + 1], steps[k]) && Careful(states[k], steps[k])
  }

  ghost predicate IsCarefulRun(states: seq<State>, steps: seq<Step>) {
    && |states| == |steps| + 1
    && Initial(states[0])
    && forall k {:trigger CarefulAt(states, steps, k)} | 0 <= k < |steps| :: CarefulAt(states, steps, k)
  }

  lemma {:induction false} CarefulRunIsPolite(states: seq<State>, steps: seq<Step>, k: nat)
    requires IsCarefulRun(states, steps) && k <= |steps|
    ensures Inv(states[k]) && Tidy(states[k])
    ensures forall j | 0 <= j < k :: Polite(states[j], steps[j])
  {
    if k == 0 {
      InitialInv(states[0]);
    } else {
      CarefulRunIsPolite(states, steps, k - 1);
      assert CarefulAt(states, steps, k - 1);
      CarefulIsPolite(states[k - 1], steps[k - 1]);
      StepPreserves(states[k - 1], states[k], steps[k - 1]);
      StepTidy(states[k - 1], states[k], steps[k - 1]);
    }
  }

  /** The states of all careful runs. */
  ghost predicate CarefullyReached(s: State) {
    exists states, steps :: IsCarefulRun(states, steps) && states[|steps|] == s
  }

  /** Whatever holds in the states of polite runs holds in those of careful ones,
      and these are tidy. */
  lemma CarefulSuffices(s: State)
    requires CarefullyReached(s)
    ensures Reached(s) && Tidy(s)
  {
    var states, steps :| IsCarefulRun(states, steps) && states[|steps|] == s;
    CarefulRunIsPolite(states, steps, |steps|);
    forall k | 0 <= k < |steps|
      ensures PoliteAt(states, steps, k)
    {
      assert CarefulAt(states, steps, k);
    }
    assert IsPoliteStretch(states, steps);
    assert Leads(states[0], s);
  }

  /** The owner's own merge never meets an object that was ever queued. */
  lemma OwnerNeverRetiresQueued(s: State, i: nat, o: nat)
    requires CarefullyReached(s) && i in s.ops && (exists h :: s.ops[i].pc == DropMerge(o, h))
    ensures o in s.objs && s.objs[o].phase == Unqueued && !s.objs[o].sw.queued
  {
    CarefulSuffices(s);
    ReachedInv(s);
    NeverRetires(s, i);
    assert OpOk(s, i);
    assert ObjectOk(s, o);
  }
}
