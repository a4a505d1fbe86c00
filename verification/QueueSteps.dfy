/** The steps that hand an object to its owner's queue keep the invariant. */
module QueueSteps {
  import opened Words
  import opened Protocol
  import opened Invariant
  import opened Frame
  import opened CountSteps

  // ----- finding the owner -----

  lemma LoadOwnerPreserves(s: State, s': State, i: nat)
    requires Inv(s) && LoadOwnerStep(s, s', i)
    ensures Inv(s')
  {
    var o := s.ops[i].pc.o;
    assert At(s, i, o);
    GoSame(s, s', i, o, s'.ops[i].pc);
  }

  // ----- taking and dropping a reference to the queue -----

  lemma TakeArcRely(s: State, i: nat, j: nat, a: nat)
    requires j in s.ops && j != i && a in s.threads && s.threads[a].arc != {}
    ensures ThreadRely(s, j, a, s.threads[a], s.threads[a].(arc := s.threads[a].arc + {HeldBy(i)}))
  {
  }

  lemma TakeArcRelied(s: State, i: nat, a: nat)
    requires a in s.threads && s.threads[a].arc != {}
    ensures ThreadRelied(s, i, a, s.threads[a].(arc := s.threads[a].arc + {HeldBy(i)}))
  {
    forall j | j in s.ops && j != i
      ensures ThreadRely(s, j, a, s.threads[a], s.threads[a].(arc := s.threads[a].arc + {HeldBy(i)}))
    {
      TakeArcRely(s, i, j, a);
    }
  }

  lemma UpgradeQueueTakes(s: State, s': State, i: nat, o: nat, a: nat)
    requires Inv(s) && UpgradeQueueStep(s, s', i) && s.ops[i].pc == UpgradeQueue(o, a)
    requires s.threads[a].arc != {}
    ensures Inv(s')
  {
    assert OpOk(s, i) && ThreadOk(s, a);
    assert ObjectOk(s, o);
    TakeArcRelied(s, i, a);
    var y := s.threads[a];
    GoThread(s, s', i, Some(o), a, y.(arc := y.arc + {HeldBy(i)}), Push(o, a));
  }

  lemma UpgradeQueueFails(s: State, s': State, i: nat, o: nat, a: nat)
    requires Inv(s) && UpgradeQueueStep(s, s', i) && s.ops[i].pc == UpgradeQueue(o, a)
    requires s.threads[a].arc == {}
    ensures Inv(s')
  {
    assert OpOk(s, i) && ThreadOk(s, a);
    assert ObjectOk(s, o);
    GoSame(s, s', i, o, CheckDead(o, a));
  }

  lemma UpgradeQueuePreserves(s: State, s': State, i: nat)
    requires Inv(s) && UpgradeQueueStep(s, s', i)
    ensures Inv(s')
  {
    var UpgradeQueue(o, a) := s.ops[i].pc;
    if s.threads[a].arc != {} {
      UpgradeQueueTakes(s, s', i, o, a);
    } else {
      UpgradeQueueFails(s, s', i, o, a);
    }
  }

  lemma CheckDeadPreserves(s: State, s': State, i: nat)
    requires Inv(s) && CheckDeadStep(s, s', i)
    ensures Inv(s')
  {
    var CheckDead(o, a) := s.ops[i].pc;
    assert OpOk(s, i) && ThreadOk(s, a);
    assert ObjectOk(s, o);
    GoSame(s, s', i, o, s'.ops[i].pc);
  }

  lemma RaiseFlagPreserves(s: State, s': State, i: nat)
    requires Inv(s) && RaiseFlagStep(s, s', i)
    ensures Inv(s')
  {
    var a := s.ops[i].pc.a;
    assert OpOk(s, i) && ThreadOk(s, a);
    var y := s.threads[a];
    GoThread(s, s', i, None, a, y.(flag := if y.flag == Live then QueuedObjects else y.flag), DropArc(a));
  }

  lemma DropArcRely(s: State, i: nat, j: nat, a: nat)
    requires j in s.ops && j != i && a in s.threads && StatusOk(s.threads[a])
    requires HeldBy(i) in s.threads[a].arc
    ensures var y := s.threads[a].(arc := s.threads[a].arc - {HeldBy(i)});
      && ThreadRely(s, j, a, s.threads[a], y)
      && ThreadRely(s, j, a, s.threads[a], y.(drainer := Some(i)))
  {
  }

  lemma DropArcRelied(s: State, i: nat, a: nat)
    requires a in s.threads && ThreadOk(s, a) && HeldBy(i) in s.threads[a].arc
    ensures var y := s.threads[a].(arc := s.threads[a].arc - {HeldBy(i)});
      ThreadRelied(s, i, a, y) && ThreadRelied(s, i, a, y.(drainer := Some(i)))
  {
    var y := s.threads[a].(arc := s.threads[a].arc - {HeldBy(i)});
    forall j | j in s.ops && j != i
      ensures ThreadRely(s, j, a, s.threads[a], y)
      ensures ThreadRely(s, j, a, s.threads[a], y.(drainer := Some(i)))
    {
      DropArcRely(s, i, j, a);
    }
  }

  ghost function WithoutArc(x: Thread, i: nat): Thread {
    x.(arc := x.arc - {HeldBy(i)})
  }

  lemma DropLastArc(s: State, s': State, i: nat, a: nat)
    requires Inv(s) && InArea(s, i, None, a) && s.ops[i].pc == DropArc(a)
    requires WithoutArc(s.threads[a], i).arc == {}
    requires s' == Go(PutThread(s, a, WithoutArc(s.threads[a], i).(drainer := Some(i))), i, Drain(a, false))
    ensures Inv(s')
  {
    assert OpOk(s, i) && ThreadOk(s, a);
    DropArcRelied(s, i, a);
    GoThread(s, s', i, None, a, s'.threads[a], Drain(a, false));
  }

  lemma DropOneArc(s: State, s': State, i: nat, a: nat)
    requires Inv(s) && InArea(s, i, None, a) && s.ops[i].pc == DropArc(a)
    requires WithoutArc(s.threads[a], i).arc != {}
    requires s' == End(PutThread(s, a, WithoutArc(s.threads[a], i)), i)
    ensures Inv(s')
  {
    assert OpOk(s, i) && ThreadOk(s, a);
    DropArcRelied(s, i, a);
    EndThread(s, s', i, a, s'.threads[a]);
  }

  lemma DropArcPreserves(s: State, s': State, i: nat)
    requires Inv(s) && DropArcStep(s, s', i)
    ensures Inv(s')
  {
    var a := s.ops[i].pc.a;
    if WithoutArc(s.threads[a], i).arc == {} {
      DropLastArc(s, s', i, a);
    } else {
      DropOneArc(s, s', i, a);
    }
  }

  // ----- explicit merge -----

  lemma MergeLoadPreserves(s: State, s': State, i: nat)
    requires Inv(s) && MergeLoadStep(s, s', i)
    ensures Inv(s')
  {
    var MergeLoad(o, a) := s.ops[i].pc;
    assert At(s, i, o);
    GoSame(s, s', i, o, s'.ops[i].pc);
  }

  // ----- push and pop -----

  lemma PhaseRely(s: State, i: nat, j: nat, o: nat, phase: Phase)
    requires j in s.ops && OpOk(s, j) && o in s.objs && ObjectOk(s, o)
    requires s.objs[o].phase != Carried(j)
    ensures ObjRely(s, j, o, s.objs[o], s.objs[o].(phase := phase))
  {
  }

  lemma PhaseRelied(s: State, i: nat, o: nat, phase: Phase)
    requires Inv(s) && o in s.objs
    requires s.objs[o].phase == Carried(i) || s.objs[o].phase == Waiting
    ensures ObjRelied(s, i, o, s.objs[o].(phase := phase))
  {
    assert ObjectOk(s, o);
    forall j | j in s.ops && j != i
      ensures ObjRely(s, j, o, s.objs[o], s.objs[o].(phase := phase))
    {
      assert OpOk(s, j);
      PhaseRely(s, i, j, o, phase);
    }
  }

  lemma RequeueRelied(s: State, m: nat, a: nat, queue: seq<nat>)
    requires a in s.threads
    ensures ThreadRelied(s, m, a, s.threads[a].(queue := queue))
  {
  }

  lemma PushedQueue(s: State, s': State, o: nat, a: nat)
    requires o in s.objs && s.objs[o].phase != Waiting && s.objs[o].creator == Some(a)
    requires a in s.threads && QueueOk(s, a, s.threads[a].queue)
    requires s'.objs == s.objs[o := s.objs[o].(phase := Waiting)]
    ensures QueueOk(s', a, s.threads[a].queue + [o])
  {
  }

  lemma PushedThread(s: State, s': State, i: nat, o: nat, a: nat)
    requires At(s, i, o) && s.ops[i].pc == Push(o, a) && PushStep(s, s', i)
    requires ThreadOk(s, a)
    requires Moves(s, s', i, s.ops[i].tid, Some(o), Some(a))
    ensures ThreadOk(s', a)
  {
    TouchedThread(s, s', i, s.ops[i].tid, Some(o), a);
    PushedQueue(s, s', o, a);
  }

  lemma PushedMover(s: State, s': State, i: nat, o: nat, a: nat)
    requires At(s, i, o) && s.ops[i].pc == Push(o, a) && PushStep(s, s', i)
    ensures OpOk(s', i) && ObjOk(s'.objs[o]) && RightsFrom(s', i, o, s.objs[o], s'.objs[o])
    ensures QueueMove(s, s', o, a)
  {
  }

  lemma PushPreserves(s: State, s': State, i: nat)
    requires Inv(s) && PushStep(s, s', i)
    ensures Inv(s')
  {
    var Push(o, a) := s.ops[i].pc;
    assert At(s, i, o);
    assert ThreadOk(s, a);
    PhaseRelied(s, i, o, Waiting);
    RequeueRelied(s, i, a, s.threads[a].queue + [o]);
    GoMoves(s, PutThread(Put(s, o, s'.objs[o]), a, s'.threads[a]), i, RaiseFlag(a), Some(o), Some(a));
    PushedThread(s, s', i, o, a);
    PushedMover(s, s', i, o, a);
    RecomposeQueue(s, s', i, s.ops[i].tid, o, a);
  }

  ghost predicate Pops(s: State, s': State, a: nat, t: nat, k: nat) {
    && Idle(s, t) && k !in s.ops && a in s.threads && ThreadOk(s, a) && MayMerge(s, t, a)
    && s.threads[a].queue != []
    && s' == PopInto(s, a, t, k)
  }

  lemma PoppedThread(s: State, s': State, a: nat, t: nat, k: nat)
    requires Pops(s, s', a, t, k)
    requires Moves(s, s', k, t, Some(s.threads[a].queue[0]), Some(a))
    ensures ThreadOk(s', a)
  {
    TouchedThread(s, s', k, t, Some(s.threads[a].queue[0]), a);
    var queue := s.threads[a].queue;
    assert forall n | 0 <= n < |queue| - 1 :: queue[1..][n] == queue[n + 1];
  }

  lemma PoppedMover(s: State, s': State, a: nat, t: nat, k: nat, o: nat)
    requires Pops(s, s', a, t, k) && o == s.threads[a].queue[0] && ObjectOk(s, o)
    ensures OpOk(s', k) && ObjOk(s'.objs[o]) && RightsFrom(s', k, o, s.objs[o], s'.objs[o])
    ensures QueueMove(s, s', o, a)
  {
    var queue := s.threads[a].queue;
    assert queue == [o] + queue[1..];
  }

  lemma PopPreserves(s: State, s': State, a: nat, t: nat, k: nat)
    requires Inv(s) && Pops(s, s', a, t, k)
    ensures Inv(s')
  {
    var queue := s.threads[a].queue;
    var o := queue[0];
    assert ObjectOk(s, o);
    PhaseRelied(s, k, o, Carried(k));
    RequeueRelied(s, k, a, queue[1..]);
    BeginMoves(s, PutThread(Put(s, o, s'.objs[o]), a, s'.threads[a]), t, k, MergeLoad(o, a), Some(o), Some(a));
    PoppedThread(s, s', a, t, k);
    PoppedMover(s, s', a, t, k, o);
    RecomposeQueue(s, s', k, t, o, a);
  }

  // ----- the merge itself -----

  lemma MergeCasRely(s: State, i: nat, j: nat, o: nat)
    requires At(s, i, o) && j in s.ops && OpOk(s, j) && j != i
    requires s.ops[i].pc.MergeCas? && s.ops[i].pc.o == o
    ensures ObjRely(s, j, o, s.objs[o], ExplicitlyMerged(s.objs[o], i, s.ops[i].pc.b))
  {
  }

  lemma MergeCasOk(s: State, i: nat, o: nat)
    requires At(s, i, o) && s.ops[i].pc.MergeCas? && s.ops[i].pc.o == o && LockerOk(s, o)
    requires s.objs[o].sw.count + s.ops[i].pc.b <= SHARED_MAX
    ensures !s.objs[o].sw.merged
    ensures s.objs[o].sw.count + s.ops[i].pc.b == |s.objs[o].strong|
    ensures ObjOk(ExplicitlyMerged(s.objs[o], i, s.ops[i].pc.b))
  {
    var x := s.objs[o];
    if x.locker.Some? {
      assert s.ops[x.locker.value].pc.h in x.strong;
    }
  }

  lemma MergeCasRelied(s: State, i: nat, o: nat)
    requires Inv(s) && At(s, i, o) && s.ops[i].pc.MergeCas? && s.ops[i].pc.o == o
    ensures ObjRelied(s, i, o, ExplicitlyMerged(s.objs[o], i, s.ops[i].pc.b))
  {
    forall j | j in s.ops && j != i
      ensures ObjRely(s, j, o, s.objs[o], ExplicitlyMerged(s.objs[o], i, s.ops[i].pc.b))
    {
      assert OpOk(s, j);
      MergeCasRely(s, i, j, o);
    }
  }

  lemma MergeCasMover(s: State, s': State, i: nat, o: nat)
    requires At(s, i, o) && s.ops[i].pc.MergeCas? && s.ops[i].pc.o == o
    requires MergeCasStep(s, s', i) && !s.objs[o].sw.merged
    requires s.objs[o].sw.count + s.ops[i].pc.b == |s.objs[o].strong|
    ensures OpOk(s', i)
    ensures RightsMoved(s', i, o, s.objs[o], s'.objs[o])
  {
  }

  lemma MergeCasPreserves(s: State, s': State, i: nat)
    requires Inv(s) && MergeCasStep(s, s', i)
    ensures Inv(s')
  {
    var MergeCas(o, a, b) := s.ops[i].pc;
    assert At(s, i, o);
    LockerIsOk(s, o);
    MergeCasOk(s, i, o);
    MergeCasRelied(s, i, o);
    MergeCasMover(s, s', i, o);
    GoKeeps(s, s', i, o, ExplicitlyMerged(s.objs[o], i, b), s'.ops[i].pc);
  }
}
