/** Nothing gets stuck: on every thread with an operation in flight, one of its
    operations can do its next access, unless that access aborts because a count
    has overflowed. */
module Progress {
  import opened Words
  import opened Protocol
  import opened Invariant
  import opened Frame
  import opened Preservation

  // ----- a busy thread is busy with an operation of its own -----

  ghost predicate BusyAt(s: State, t: nat) {
    t in s.busy ==>
      && s.busy[t] in s.ops
      && s.ops[s.busy[t]].tid == t && !Suspended(s.ops[s.busy[t]].pc)
  }

  ghost predicate BusyOk(s: State) {
    forall t {:trigger BusyAt(s, t)} :: BusyAt(s, t)
  }

  /** Operation `m` of thread `t` moves, returns, or nothing happens. */
  ghost predicate Advances(s: State, s': State, t: nat, m: nat) {
    || (s'.ops == s.ops && s'.busy == s.busy)
    || (&& m in s'.ops && s'.ops == s.ops[m := s'.ops[m]]
        && s'.ops[m].tid == t && (m in s.ops ==> s.ops[m].tid == t)
        && s'.busy == if Suspended(s'.ops[m].pc) then s.busy - {t} else s.busy[t := m])
    || (m in s.ops && s.ops[m].tid == t && s'.ops == s.ops - {m} && s'.busy == s.busy - {t})
  }

  lemma AdvancesBusy(s: State, s': State, t: nat, m: nat)
    requires BusyOk(s) && Advances(s, s', t, m)
    ensures BusyOk(s')
  {
    forall u
      ensures BusyAt(s', u)
    {
      assert BusyAt(s, u);
    }
  }

  lemma CountAdvances(s: State, s': State, i: nat, f: nat)
    requires CountAccess(s, s', i, f)
    ensures Advances(s, s', s.ops[i].tid, i)
  {
  }

  predicate HandsOver(pc: Pc) {
    pc.LoadOwner? || pc.UpgradeQueue? || pc.Push? || pc.RaiseFlag? || pc.DropArc?
  }

  lemma HandOverAdvances(s: State, s': State, i: nat)
    requires QueueAccess(s, s', i) && HandsOver(s.ops[i].pc)
    ensures Advances(s, s', s.ops[i].tid, i)
  {
  }

  lemma MergeAdvances(s: State, s': State, i: nat)
    requires QueueAccess(s, s', i) && !HandsOver(s.ops[i].pc)
    ensures Advances(s, s', s.ops[i].tid, i)
  {
  }

  lemma QueueAdvances(s: State, s': State, i: nat)
    requires QueueAccess(s, s', i)
    ensures Advances(s, s', s.ops[i].tid, i)
  {
    if HandsOver(s.ops[i].pc) { HandOverAdvances(s, s', i); } else { MergeAdvances(s, s', i); }
  }

  lemma WeakAdvances(s: State, s': State, i: nat)
    requires WeakAccess(s, s', i)
    ensures Advances(s, s', s.ops[i].tid, i)
  {
  }

  lemma LoopAdvances(s: State, s': State, i: nat, f: nat)
    requires ThreadAccess(s, s', i, f) && (s.ops[i].pc.CollectPop? || s.ops[i].pc.Drain?)
    ensures Advances(s, s', s.ops[i].tid, i) || Advances(s, s', s.ops[i].tid, f)
  {
  }

  lemma FlagAdvances(s: State, s': State, i: nat, f: nat)
    requires ThreadAccess(s, s', i, f) && !s.ops[i].pc.CollectPop? && !s.ops[i].pc.Drain?
    ensures Advances(s, s', s.ops[i].tid, i)
  {
  }

  lemma ThreadAdvances(s: State, s': State, i: nat, f: nat)
    requires ThreadAccess(s, s', i, f)
    ensures Advances(s, s', s.ops[i].tid, i) || Advances(s, s', s.ops[i].tid, f)
  {
    if s.ops[i].pc.CollectPop? || s.ops[i].pc.Drain? { LoopAdvances(s, s', i, f); }
    else { FlagAdvances(s, s', i, f); }
  }

  predicate IsOneAccess(step: Step) {
    step.StepInit? || step.StepCreate? || step.StepCloneDirect? || step.StepDowngrade? || step.StepWeakClone?
  }

  lemma CallAdvances(s: State, s': State, step: Step)
    requires Next(s, s', step) && !step.Access?
    ensures Advances(s, s', step.t, if IsOneAccess(step) then 0 else step.i)
  {
  }

  lemma StepBusy(s: State, s': State, step: Step)
    requires BusyOk(s) && Next(s, s', step)
    ensures BusyOk(s')
  {
    if step.Access? {
      var i, f := step.i, step.f;
      var t := s.ops[i].tid;
      if CountAccess(s, s', i, f) { CountAdvances(s, s', i, f); AdvancesBusy(s, s', t, i); }
      else if QueueAccess(s, s', i) { QueueAdvances(s, s', i); AdvancesBusy(s, s', t, i); }
      else if WeakAccess(s, s', i) { WeakAdvances(s, s', i); AdvancesBusy(s, s', t, i); }
      else {
        ThreadAdvances(s, s', i, f);
        if Advances(s, s', t, i) { AdvancesBusy(s, s', t, i); } else { AdvancesBusy(s, s', t, f); }
      }
    } else {
      CallAdvances(s, s', step);
      AdvancesBusy(s, s', step.t, if IsOneAccess(step) then 0 else step.i);
    }
  }

  lemma {:induction false} StretchBusy(states: seq<State>, steps: seq<Step>, k: nat)
    requires IsPoliteStretch(states, steps) && k < |states| && BusyOk(states[0])
    ensures BusyOk(states[k])
  {
    if k > 0 {
      StretchBusy(states, steps, k - 1);
      assert PoliteAt(states, steps, k - 1);
      StepBusy(states[k - 1], states[k], steps[k - 1]);
    }
  }

  lemma ReachedBusy(s: State)
    requires Reached(s)
    ensures BusyOk(s)
  {
    var s0 :| Initial(s0) && Leads(s0, s);
    var states, steps :|
      IsPoliteStretch(states, steps) && states[0] == s0 && states[|steps|] == s;
    StretchBusy(states, steps, |steps|);
  }

  // ----- every operation has a next access -----

  ghost predicate CanAct(s: State, i: nat) {
    exists s', f :: AccessStep(s, s', i, f)
  }

  /** The next access finds a count that has overflowed, and aborts. */
  ghost predicate Overflows(s: State, i: nat)
    requires i in s.ops
  {
    match s.ops[i].pc
    case CloneShared(o, _) => o in s.objs && s.objs[o].sw.count > OVERFLOW_THRESHOLD
    case UpgradeShared(o, _) => o in s.objs && s.objs[o].sw.count == SHARED_MAX
    case MergeCas(o, _, b) => o in s.objs && s.objs[o].sw.count + b > SHARED_MAX
    case _ => false
  }

  lemma OverflowStops(s: State, i: nat)
    requires Inv(s) && Runs(s, i) && Overflows(s, i)
    ensures !CanAct(s, i)
  {
    assert OpOk(s, i);
    assert ObjectOk(s, s.ops[i].pc.o);
    forall s', f
      ensures !AccessStep(s, s', i, f)
    {
    }
  }

  lemma IncrementActs(s: State, i: nat, o: nat)
    requires Runs(s, i) && OpOk(s, i) && !Overflows(s, i) && ObjOf(s.ops[i].pc) == Some(o)
    requires s.ops[i].pc.IncStore? || s.ops[i].pc.CloneShared? || s.ops[i].pc.UpgradeShared?
    requires o in s.objs ==> ObjOk(s.objs[o])
    ensures CanAct(s, i)
  {
    var x := s.objs[o];
    var h := Unused(x.strong);
    var s';
    match s.ops[i].pc {
      case IncStore(_, _, b) =>
        s' := End(Put(s, o, x.(bw := BiasedWord(Some(s.ops[i].tid), b + 1), strong := x.strong + {h})), i);
      case CloneShared(_, _) =>
        s' := End(Put(s, o, SharedIncrement(x, h)), i);
      case UpgradeShared(_, _) =>
        s' := if IsExhausted(x.sw) then End(s, i)
              else End(Put(s, o, x.(sw := x.sw.(count := x.sw.count + 1), strong := x.strong + {h})), i);
    }
    assert CountAccess(s, s', i, h) && AccessStep(s, s', i, h);
  }

  lemma DecrementActs(s: State, i: nat, o: nat)
    requires Runs(s, i) && OpOk(s, i) && ObjOf(s.ops[i].pc) == Some(o)
    requires s.ops[i].pc.DropStore? || s.ops[i].pc.DropMerge? || s.ops[i].pc.DropShared? || s.ops[i].pc.StoreUnowned?
    requires o in s.objs ==> ObjOk(s.objs[o])
    ensures CanAct(s, i)
  {
    var x := s.objs[o];
    var s';
    match s.ops[i].pc {
      case DropStore(_, h, b) =>
        s' := End(Put(s, o, WithoutStrong(x, h).(bw := BiasedWord(Some(s.ops[i].tid), b - 1))), i);
      case DropMerge(_, h) =>
        s' := Go(Put(s, o, MergedAway(x, i, h)), i, StoreUnowned(o, if x.sw.count == 0 then Condemn else Keep));
      case DropShared(_, h) =>
        var y := SharedDropped(x, i, h);
        s' := if x.sw.queued != y.sw.queued then Go(Put(s, o, y), i, LoadOwner(o))
              else if IsExhausted(y.sw) then Go(Put(s, o, y), i, StartDestroy(o))
              else End(Put(s, o, y), i);
      case StoreUnowned(_, verdict) =>
        var s1 := Put(s, o, x.(bw := UNOWNED, unowner := None));
        s' := if verdict == Keep then End(s1, i) else Go(s1, i, StartDestroy(o));
    }
    assert CountAccess(s, s', i, 0) && AccessStep(s, s', i, 0);
  }

  lemma HandOverActs(s: State, i: nat)
    requires Runs(s, i) && OpOk(s, i)
    requires s.ops[i].pc.UpgradeQueue? || s.ops[i].pc.Push? || s.ops[i].pc.RaiseFlag?
             || s.ops[i].pc.DropArc? || s.ops[i].pc.CheckDead?
    ensures CanAct(s, i)
  {
    var a := s.ops[i].pc.a;
    var x := s.threads[a];
    var s';
    match s.ops[i].pc {
      case UpgradeQueue(o, _) =>
        s' := if x.arc != {} then Go(PutThread(s, a, x.(arc := x.arc + {HeldBy(i)})), i, Push(o, a))
              else Go(s, i, CheckDead(o, a));
      case Push(o, _) =>
        s' := Go(PutThread(Put(s, o, s.objs[o].(phase := Waiting)), a, x.(queue := x.queue + [o])), i, RaiseFlag(a));
      case RaiseFlag(_) =>
        s' := Go(PutThread(s, a, x.(flag := if x.flag == Live then QueuedObjects else x.flag)), i, DropArc(a));
      case DropArc(_) =>
        var y := x.(arc := x.arc - {HeldBy(i)});
        s' := if y.arc == {} then Go(PutThread(s, a, y.(drainer := Some(i))), i, Drain(a, false))
              else End(PutThread(s, a, y), i);
      case CheckDead(o, _) =>
        s' := Go(s, i, if IsLive(x.flag) then Panicked else MergeLoad(o, a));
    }
    assert QueueAccess(s, s', i) && AccessStep(s, s', i, 0);
  }

  lemma MergeActs(s: State, i: nat, o: nat)
    requires Runs(s, i) && OpOk(s, i) && !Overflows(s, i) && ObjOf(s.ops[i].pc) == Some(o)
    requires s.ops[i].pc.LoadOwner? || s.ops[i].pc.MergeLoad? || s.ops[i].pc.MergeCas?
    ensures CanAct(s, i)
  {
    var x := s.objs[o];
    var s';
    match s.ops[i].pc {
      case LoadOwner(_) =>
        s' := Go(s, i, if x.bw.owner.Some? && x.bw.owner.value in s.threads
                       then UpgradeQueue(o, x.bw.owner.value) else Panicked);
      case MergeLoad(_, a) =>
        s' := Go(s, i, if x.bw.owner == Some(a) then MergeCas(o, a, x.bw.count) else Panicked);
      case MergeCas(_, _, b) =>
        var n := x.sw.count + b;
        s' := if x.sw.merged then Go(s, i, Panicked)
              else Go(Put(s, o, ExplicitlyMerged(x, i, b)), i,
                      StoreUnowned(o, if n == 0 then Condemn else if n < 0 then Corrupt else Keep));
    }
    assert QueueAccess(s, s', i) && AccessStep(s, s', i, 0);
  }

  lemma DestroyActs(s: State, i: nat, o: nat)
    requires Runs(s, i) && OpOk(s, i) && ObjOf(s.ops[i].pc) == Some(o)
    requires s.ops[i].pc.StartDestroy? || s.ops[i].pc.RunDestructor? || s.ops[i].pc.Free?
    requires o in s.objs ==> ObjOk(s.objs[o])
    ensures CanAct(s, i)
  {
    var x := s.objs[o];
    var s';
    match s.ops[i].pc {
      case StartDestroy(_) =>
        s' := Go(Put(s, o, x.(life := Destroying(i), destroys := x.destroys + 1)), i, RunDestructor(o));
      case RunDestructor(_) =>
        var y := x.(life := Released, weak := x.weak - 1);
        s' := if y.weak == 0 then Go(Put(s, o, y.(freer := Some(i))), i, Free(o)) else End(Put(s, o, y), i);
      case Free(_) =>
        s' := End(Put(s, o, x.(freer := None, frees := x.frees + 1)), i);
    }
    assert WeakAccess(s, s', i) && AccessStep(s, s', i, 0);
  }

  lemma UniqueActs(s: State, i: nat, o: nat)
    requires Runs(s, i) && OpOk(s, i) && ObjOf(s.ops[i].pc) == Some(o)
    requires AsksUnique(s.ops[i].pc) || s.ops[i].pc.HoldMut?
    ensures CanAct(s, i)
  {
    var x := s.objs[o];
    var s';
    match s.ops[i].pc {
      case LockWeak(_, h, exclusive) =>
        s' := if x.weak == 1
              then Go(Put(s, o, x.(weak := WEAK_LOCKED, locker := Some(i))), i, UniqueShared(o, h, exclusive))
              else End(Put(s, o, GivenBack(x, h, exclusive)), i);
      case UniqueShared(_, h, exclusive) =>
        s' := Go(s, i, UniqueBiased(o, h, exclusive, x.sw, x.strong == {h}));
      case UniqueBiased(_, h, exclusive, w, sole) =>
        var count := CountFrom(Me(s, s.ops[i].tid), w, x.bw);
        s' := Go(s, i, if count == Negative then Panicked
                       else UnlockWeak(o, h, exclusive, count == Exact(1), sole));
      case UnlockWeak(_, h, exclusive, unique, _) =>
        var y := x.(weak := 1, locker := None);
        s' := if unique && exclusive then Go(Put(s, o, y), i, HoldMut(o, h))
              else End(Put(s, o, GivenBack(y, h, exclusive)), i);
      case HoldMut(_, h) =>
        s' := End(Put(s, o, x.(claims := x.claims - {h})), i);
    }
    assert WeakAccess(s, s', i) && AccessStep(s, s', i, 0);
  }

  lemma CountingActs(s: State, i: nat, o: nat)
    requires Runs(s, i) && OpOk(s, i) && ObjOf(s.ops[i].pc) == Some(o)
    requires s.ops[i].pc.CountBiased? || s.ops[i].pc.Counted?
    ensures CanAct(s, i)
  {
    var s';
    match s.ops[i].pc {
      case CountBiased(_, via, w, live) =>
        s' := Go(s, i, Counted(o, via, CountFrom(Me(s, s.ops[i].tid), w, s.objs[o].bw), live));
      case Counted(_, _, _, _) =>
        s' := End(s, i);
    }
    assert WeakAccess(s, s', i) && AccessStep(s, s', i, 0);
  }

  lemma LoopActs(s: State, i: nat, a: nat)
    requires Runs(s, i) && OpOk(s, i) && QueueOf(s.ops[i].pc) == Some(a)
    requires s.ops[i].pc.CollectPop? || s.ops[i].pc.Drain?
    requires a in s.threads ==> ThreadOk(s, a)
    ensures CanAct(s, i)
  {
    var x := s.threads[a];
    var k := Unused(s.ops.Keys);
    var s';
    if x.queue != [] {
      s' := PopInto(s, a, s.ops[i].tid, k);
    } else if s.ops[i].pc.CollectPop? {
      s' := Go(s, i, CollectReset(a));
    } else {
      var s1 := PutThread(s, a, x.(drainer := None));
      s' := if s.ops[i].pc.dying then Go(s1, i, DeathDead(a)) else End(s1, i);
    }
    assert ThreadAccess(s, s', i, k) && AccessStep(s, s', i, k);
  }

  lemma FlagActs(s: State, i: nat)
    requires Runs(s, i) && OpOk(s, i)
    requires s.ops[i].pc.CollectUpgrade? || s.ops[i].pc.CollectReset? || s.ops[i].pc.CollectCheck?
             || s.ops[i].pc.DeathSwap? || s.ops[i].pc.DeathArc? || s.ops[i].pc.DeathDead?
    ensures CanAct(s, i)
  {
    var a := s.ops[i].pc.a;
    var x := s.threads[a];
    var s';
    match s.ops[i].pc {
      case CollectUpgrade(_) =>
        s' := if x.arc == {} then End(s, i)
              else Go(PutThread(s, a, x.(arc := x.arc + {HeldBy(i)})), i, CollectPop(a));
      case CollectReset(_) =>
        s' := Go(PutThread(s, a, x.(flag := if x.flag == QueuedObjects then Live else x.flag)), i, CollectCheck(a));
      case CollectCheck(_) =>
        s' := Go(s, i, if x.queue == [] then DropArc(a) else CollectPop(a));
      case DeathSwap(_) =>
        s' := Go(PutThread(s, a, x.(flag := Dying)), i, DeathArc(a));
      case DeathArc(_) =>
        var y := x.(arc := x.arc - {Home});
        s' := if y.arc == {} then Go(PutThread(s, a, y.(drainer := Some(i))), i, Drain(a, true))
              else Go(PutThread(s, a, y), i, DeathDead(a));
      case DeathDead(_) =>
        s' := End(PutThread(s, a, x.(flag := Dead, death := None)), i);
    }
    assert ThreadAccess(s, s', i, 0) && AccessStep(s, s', i, 0);
  }

  lemma ObjectActs(s: State, i: nat, o: nat)
    requires Inv(s) && Runs(s, i) && !Overflows(s, i) && ObjOf(s.ops[i].pc) == Some(o)
    ensures CanAct(s, i)
  {
    assert OpOk(s, i);
    if o in s.objs { assert ObjectOk(s, o); }
    var pc := s.ops[i].pc;
    if pc.IncStore? || pc.CloneShared? || pc.UpgradeShared? { IncrementActs(s, i, o); }
    else if pc.DropStore? || pc.DropMerge? || pc.DropShared? || pc.StoreUnowned? { DecrementActs(s, i, o); }
    else if pc.UpgradeQueue? || pc.Push? || pc.CheckDead? { HandOverActs(s, i); }
    else if pc.LoadOwner? || pc.MergeLoad? || pc.MergeCas? { MergeActs(s, i, o); }
    else if pc.StartDestroy? || pc.RunDestructor? || pc.Free? { DestroyActs(s, i, o); }
    else if AsksUnique(pc) || pc.HoldMut? { UniqueActs(s, i, o); }
    else { CountingActs(s, i, o); }
  }

  lemma QueueActs(s: State, i: nat)
    requires Inv(s) && Runs(s, i) && ObjOf(s.ops[i].pc) == None
    ensures CanAct(s, i)
  {
    assert OpOk(s, i);
    var pc := s.ops[i].pc;
    if pc.RaiseFlag? || pc.DropArc? { HandOverActs(s, i); }
    else if pc.CollectPop? || pc.Drain? {
      if pc.a in s.threads { assert ThreadOk(s, pc.a); }
      LoopActs(s, i, pc.a);
    }
    else { FlagActs(s, i); }
  }

  /** An operation whose turn it is can do its next access exactly if that does
      not abort on an overflow. */
  lemma ActsIffNoOverflow(s: State, i: nat)
    requires Inv(s) && Runs(s, i)
    ensures CanAct(s, i) <==> !Overflows(s, i)
  {
    if Overflows(s, i) { OverflowStops(s, i); }
    else if ObjOf(s.ops[i].pc).Some? { ObjectActs(s, i, ObjOf(s.ops[i].pc).value); }
    else { QueueActs(s, i); }
  }

  /** No thread waits for another: whichever operation of a thread is in flight,
      one operation of this same thread has its turn, and can act unless a count
      has overflowed. */
  lemma ThreadsMakeProgress(s: State, i: nat)
    requires Reached(s) && i in s.ops
    ensures exists j :: j in s.ops && s.ops[j].tid == s.ops[i].tid && Runs(s, j)
                        && (CanAct(s, j) || Overflows(s, j))
  {
    ReachedInv(s);
    ReachedBusy(s);
    var t := s.ops[i].tid;
    assert OpOk(s, i) && BusyAt(s, t);
    var j := if t in s.busy then s.busy[t] else i;
    assert Runs(s, j);
    ActsIffNoOverflow(s, j);
  }
}
