/** The steps of thread start and exit, of creation, of `collect_force` and of
    the queue's destructor keep the invariant. */
module ThreadSteps {
  import opened Words
  import opened Protocol
  import opened Invariant
  import opened Frame
  import opened QueueSteps

  // ----- starting -----

  lemma InitPreserves(s: State, s': State, t: nat, exhausted: bool)
    requires Inv(s) && InitThread(s, s', t, exhausted)
    ensures Inv(s')
  {
    var m := Unused(s.ops.Keys);
    assert ThreadOk(s, t);
    forall j | j in s.ops
      ensures ThreadRely(s, j, t, s.threads[t], s'.threads[t])
    {
      assert OpOk(s, j);
      InitRely(s, s', t, exhausted, j);
    }
    RecomposeThread(s, s', m, t, None, t);
  }

  lemma InitRely(s: State, s': State, t: nat, exhausted: bool, j: nat)
    requires InitThread(s, s', t, exhausted) && ThreadOk(s, t)
    requires j in s.ops && OpOk(s, j)
    ensures ThreadRely(s, j, t, s.threads[t], s'.threads[t])
  {
  }

  lemma CreatePreserves(s: State, s': State, t: nat, o: nat)
    requires Inv(s) && Create(s, s', t, o)
    ensures Inv(s')
  {
    var m := Unused(s.ops.Keys);
    forall b | b in s.threads
      ensures WaitingKept(s, s', o, b)
    {
      assert ThreadOk(s, b);
    }
    assert ObjectOk(s', o);
    Recompose(s, s', m, t, Some(o), None);
  }

  // ----- exit -----

  lemma DeathBeginPreserves(s: State, s': State, t: nat, i: nat)
    requires Inv(s) && DeathBegin(s, s', t, i)
    ensures Inv(s')
  {
    assert ThreadOk(s, t);
    forall j | j in s.ops && j != i
      ensures ThreadRely(s, j, t, s.threads[t], s'.threads[t])
    {
      assert OpOk(s, j);
    }
    BeginThread(s, s', t, i, t, s'.threads[t], DeathSwap(t));
  }

  /** Writing its own record while a thread dies disturbs nobody. */
  lemma DyingRelied(s: State, i: nat, a: nat, y': Thread)
    requires a in s.threads && s.threads[a].death == Some(i) && IsGone(s, a)
    requires y'.status == Departed && (s.threads[a].arc == {} ==> y'.arc == {})
    requires y'.arc == s.threads[a].arc || y'.arc == s.threads[a].arc - {Home}
    requires forall j | j != i :: s.threads[a].drainer == Some(j) <==> y'.drainer == Some(j)
    ensures ThreadRelied(s, i, a, y')
  {
  }

  lemma DeathSwapped(s: State, s': State, i: nat, a: nat)
    requires Runs(s, i) && OpOk(s, i) && s.ops[i].pc == DeathSwap(a) && a in s.threads && ThreadOk(s, a)
    requires s' == Go(PutThread(s, a, s.threads[a].(flag := Dying)), i, DeathArc(a))
    ensures OpOk(s', i) && StatusKept(s, s', a) && StatusOk(s'.threads[a])
    ensures ArcFrom(s', i, a, s.threads[a], s'.threads[a])
    ensures ThreadRelied(s, i, a, s'.threads[a])
  {
    DyingRelied(s, i, a, s'.threads[a]);
  }

  lemma DeathSwapPreserves(s: State, s': State, i: nat)
    requires Inv(s) && DeathSwapStep(s, s', i)
    ensures Inv(s')
  {
    var a := s.ops[i].pc.a;
    assert OpOk(s, i) && ThreadOk(s, a);
    DeathSwapped(s, s', i, a);
    GoThread(s, s', i, None, a, s.threads[a].(flag := Dying), DeathArc(a));
  }

  lemma DeathArcPreserves(s: State, s': State, i: nat)
    requires Inv(s) && DeathArcStep(s, s', i)
    ensures Inv(s')
  {
    var a := s.ops[i].pc.a;
    if s.threads[a].arc == {Home} {
      LastArc(s, s', i, a);
    } else {
      NotLastArc(s, s', i, a);
    }
  }

  ghost function WithoutHome(x: Thread): Thread {
    x.(arc := x.arc - {Home})
  }

  lemma LastArcDropped(s: State, s': State, i: nat, a: nat)
    requires Runs(s, i) && OpOk(s, i) && s.ops[i].pc == DeathArc(a) && a in s.threads && ThreadOk(s, a)
    requires s.threads[a].arc == {Home}
    requires s' == Go(PutThread(s, a, s.threads[a].(arc := {}, drainer := Some(i))), i, Drain(a, true))
    ensures OpOk(s', i) && StatusKept(s, s', a) && StatusOk(s'.threads[a])
    ensures ArcFrom(s', i, a, s.threads[a], s'.threads[a])
    ensures ThreadRelied(s, i, a, s'.threads[a])
  {
    DyingRelied(s, i, a, s'.threads[a]);
  }

  lemma LastArc(s: State, s': State, i: nat, a: nat)
    requires Inv(s) && DeathArcStep(s, s', i) && s.ops[i].pc == DeathArc(a)
    requires s.threads[a].arc == {Home}
    ensures Inv(s')
  {
    assert OpOk(s, i) && ThreadOk(s, a);
    var y' := s.threads[a].(arc := {}, drainer := Some(i));
    assert s' == Go(PutThread(s, a, y'), i, Drain(a, true));
    LastArcDropped(s, s', i, a);
    GoThread(s, s', i, None, a, y', Drain(a, true));
  }

  lemma OneArcDropped(s: State, s': State, i: nat, a: nat)
    requires Runs(s, i) && OpOk(s, i) && s.ops[i].pc == DeathArc(a) && a in s.threads && ThreadOk(s, a)
    requires s.threads[a].arc != {Home}
    requires s' == Go(PutThread(s, a, WithoutHome(s.threads[a])), i, DeathDead(a))
    ensures OpOk(s', i) && StatusKept(s, s', a) && StatusOk(s'.threads[a])
    ensures ArcFrom(s', i, a, s.threads[a], s'.threads[a])
    ensures ThreadRelied(s, i, a, s'.threads[a])
  {
    DyingRelied(s, i, a, s'.threads[a]);
  }

  lemma NotLastArc(s: State, s': State, i: nat, a: nat)
    requires Inv(s) && DeathArcStep(s, s', i) && s.ops[i].pc == DeathArc(a)
    requires s.threads[a].arc != {Home}
    ensures Inv(s')
  {
    assert OpOk(s, i) && ThreadOk(s, a);
    assert s' == Go(PutThread(s, a, WithoutHome(s.threads[a])), i, DeathDead(a));
    OneArcDropped(s, s', i, a);
    GoThread(s, s', i, None, a, WithoutHome(s.threads[a]), DeathDead(a));
  }

  lemma DeathDeadPreserves(s: State, s': State, i: nat)
    requires Inv(s) && DeathDeadStep(s, s', i)
    ensures Inv(s')
  {
    var a := s.ops[i].pc.a;
    assert OpOk(s, i) && ThreadOk(s, a);
    DyingRelied(s, i, a, s'.threads[a]);
    EndThread(s, s', i, a, s'.threads[a]);
  }

  // ----- collect_force -----

  lemma SameThreadRelied(s: State, i: nat, a: nat)
    requires a in s.threads
    ensures ThreadRelied(s, i, a, s.threads[a])
  {
  }

  lemma CollectBeginPreserves(s: State, s': State, t: nat, i: nat)
    requires Inv(s) && CollectBegin(s, s', t, i)
    ensures Inv(s')
  {
    assert ThreadOk(s, t);
    SameThreadRelied(s, i, t);
    assert s' == Begin(PutThread(s, t, s.threads[t]), t, i, CollectUpgrade(t));
    BeginThread(s, s', t, i, t, s.threads[t], CollectUpgrade(t));
  }

  lemma CollectUpgradePreserves(s: State, s': State, i: nat)
    requires Inv(s) && CollectUpgradeStep(s, s', i)
    ensures Inv(s')
  {
    var a := s.ops[i].pc.a;
    assert OpOk(s, i) && ThreadOk(s, a);
    TakeArcRelied(s, i, a);
    GoThread(s, s', i, None, a, s'.threads[a], CollectPop(a));
  }

  lemma FlagRelied(s: State, i: nat, a: nat, flag: Flag)
    requires a in s.threads && IsLive(s.threads[a].flag) && IsLive(flag)
    ensures ThreadRelied(s, i, a, s.threads[a].(flag := flag))
  {
  }

  lemma CollectPopEmpty(s: State, s': State, i: nat, a: nat)
    requires Inv(s) && Runs(s, i) && s.ops[i].pc == CollectPop(a)
    requires s' == Go(s, i, CollectReset(a))
    ensures Inv(s')
  {
    assert OpOk(s, i) && ThreadOk(s, a);
    SameThreadRelied(s, i, a);
    assert s' == Go(PutThread(s, a, s.threads[a]), i, CollectReset(a));
    GoThread(s, s', i, None, a, s.threads[a], CollectReset(a));
  }

  lemma CollectPopPreserves(s: State, s': State, i: nat, k: nat)
    requires Inv(s) && CollectPopStep(s, s', i, k)
    ensures Inv(s')
  {
    var a := s.ops[i].pc.a;
    if s.threads[a].queue == [] {
      CollectPopEmpty(s, s', i, a);
    } else {
      assert OpOk(s, i) && ThreadOk(s, a);
      PopPreserves(s, s', a, s.ops[i].tid, k);
    }
  }

  lemma CollectResetPreserves(s: State, s': State, i: nat)
    requires Inv(s) && CollectResetStep(s, s', i)
    ensures Inv(s')
  {
    var a := s.ops[i].pc.a;
    assert OpOk(s, i) && ThreadOk(s, a);
    FlagRelied(s, i, a, s'.threads[a].flag);
    GoThread(s, s', i, None, a, s'.threads[a], CollectCheck(a));
  }

  lemma CollectCheckPreserves(s: State, s': State, i: nat)
    requires Inv(s) && CollectCheckStep(s, s', i)
    ensures Inv(s')
  {
    var a := s.ops[i].pc.a;
    assert OpOk(s, i) && ThreadOk(s, a);
    SameThreadRelied(s, i, a);
    assert s' == Go(PutThread(s, a, s.threads[a]), i, s'.ops[i].pc);
    GoThread(s, s', i, None, a, s.threads[a], s'.ops[i].pc);
  }

  // ----- the queue's destructor -----

  lemma DrainedRelied(s: State, i: nat, a: nat)
    requires a in s.threads && s.threads[a].drainer == Some(i)
    ensures ThreadRelied(s, i, a, s.threads[a].(drainer := None))
  {
  }

  lemma Drained(s: State, s': State, i: nat, a: nat)
    requires Inv(s) && Runs(s, i) && s.ops[i].pc == Drain(a, false)
    requires a in s.threads && s.threads[a].queue == []
    requires s' == End(PutThread(s, a, s.threads[a].(drainer := None)), i)
    ensures Inv(s')
  {
    assert OpOk(s, i) && ThreadOk(s, a);
    DrainedRelied(s, i, a);
    EndThread(s, s', i, a, s.threads[a].(drainer := None));
  }

  lemma DrainedDying(s: State, s': State, i: nat, a: nat)
    requires Inv(s) && Runs(s, i) && s.ops[i].pc == Drain(a, true)
    requires a in s.threads && s.threads[a].queue == []
    requires s' == Go(PutThread(s, a, s.threads[a].(drainer := None)), i, DeathDead(a))
    ensures Inv(s')
  {
    assert OpOk(s, i) && ThreadOk(s, a);
    DrainedRelied(s, i, a);
    GoThread(s, s', i, None, a, s.threads[a].(drainer := None), DeathDead(a));
  }

  lemma DrainPreserves(s: State, s': State, i: nat, k: nat)
    requires Inv(s) && DrainStep(s, s', i, k)
    ensures Inv(s')
  {
    var Drain(a, dying) := s.ops[i].pc;
    if s.threads[a].queue != [] {
      assert OpOk(s, i) && ThreadOk(s, a);
      PopPreserves(s, s', a, s.ops[i].tid, k);
    } else if dying {
      DrainedDying(s, s', i, a);
    } else {
      Drained(s, s', i, a);
    }
  }
}
