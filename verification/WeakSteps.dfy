/** The steps of destruction, of weak references, of `is_unique` and of
    `strong_count` keep the invariant. */
module WeakSteps {
  import opened Words
  import opened Protocol
  import opened Invariant
  import opened Frame
  import opened CountSteps

  // ----- destruction -----

  /** A write that only concerns rights of operation `i` and the weak count. */
  ghost predicate OnlyRetires(x: Obj, x': Obj, i: nat) {
    && x' == x.(life := x'.life, freer := x'.freer, weak := x'.weak,
                destroys := x'.destroys, frees := x'.frees)
    && (x'.life != x.life ==> x.life == Doomed(i) || x.life == Destroying(i))
    && (x'.freer != x.freer ==> x.freer == None || x.freer == Some(i))
  }

  lemma RetireRelied(s: State, i: nat, o: nat, x': Obj)
    requires o in s.objs && OnlyRetires(s.objs[o], x', i)
    ensures ObjRelied(s, i, o, x')
  {
  }

  lemma StartDestroyPreserves(s: State, s': State, i: nat)
    requires Inv(s) && StartDestroyStep(s, s', i)
    ensures Inv(s')
  {
    var o := s.ops[i].pc.o;
    assert At(s, i, o);
    RetireRelied(s, i, o, s'.objs[o]);
    GoKeeps(s, s', i, o, s'.objs[o], RunDestructor(o));
  }

  ghost function ReleasedBy(x: Obj): Obj
    requires x.weak >= 1
  {
    x.(life := Released, weak := x.weak - 1)
  }

  lemma ReleaseLast(s: State, s': State, i: nat, o: nat)
    requires Inv(s) && Touches(s, i, o) && At(s, i, o) && s.ops[i].pc == RunDestructor(o) && s.objs[o].weak == 1
    requires s' == Go(Put(s, o, ReleasedBy(s.objs[o]).(freer := Some(i))), i, Free(o))
    ensures Inv(s')
  {
    RetireRelied(s, i, o, s'.objs[o]);
    GoKeeps(s, s', i, o, s'.objs[o], Free(o));
  }

  lemma ReleaseOne(s: State, s': State, i: nat, o: nat)
    requires Inv(s) && Touches(s, i, o) && At(s, i, o) && s.ops[i].pc == RunDestructor(o) && s.objs[o].weak > 1
    requires s' == End(Put(s, o, ReleasedBy(s.objs[o])), i)
    ensures Inv(s')
  {
    RetireRelied(s, i, o, s'.objs[o]);
    EndKeeps(s, s', i, o, s'.objs[o]);
  }

  lemma ReleasePreserves(s: State, s': State, i: nat)
    requires Inv(s) && ReleaseStep(s, s', i)
    ensures Inv(s')
  {
    var o := s.ops[i].pc.o;
    assert At(s, i, o);
    if s.objs[o].weak == 1 { ReleaseLast(s, s', i, o); } else { ReleaseOne(s, s', i, o); }
  }

  lemma FreePreserves(s: State, s': State, i: nat)
    requires Inv(s) && FreeStep(s, s', i)
    ensures Inv(s')
  {
    var o := s.ops[i].pc.o;
    assert At(s, i, o);
    RetireRelied(s, i, o, s'.objs[o]);
    EndKeeps(s, s', i, o, s'.objs[o]);
  }

  // ----- weak references -----

  ghost function WithWeak(x: Obj, w': nat): Obj {
    x.(weak := x.weak + 1, weaks := x.weaks + {w'})
  }

  lemma AddWeakRely(s: State, j: nat, o: nat, w': nat)
    requires j in s.ops && OpOk(s, j) && o in s.objs && Reachable(s.objs[o])
    ensures ObjRely(s, j, o, s.objs[o], WithWeak(s.objs[o], w'))
  {
  }

  lemma AddWeakOk(x: Obj, w': nat)
    requires ObjOk(x) && Reachable(x) && w' !in x.weaks && x.weak <= WEAK_OVERFLOW_THRESHOLD
    ensures ObjOk(WithWeak(x, w'))
  {
  }

  lemma AddWeakKeeps(s: State, s': State, t: nat, o: nat, w': nat)
    requires Inv(s) && Idle(s, t) && o in s.objs && Reachable(s.objs[o])
    requires w' !in s.objs[o].weaks && s.objs[o].weak <= WEAK_OVERFLOW_THRESHOLD
    requires s' == Put(s, o, WithWeak(s.objs[o], w'))
    ensures Inv(s')
  {
    assert ObjectOk(s, o);
    AddWeakOk(s.objs[o], w');
    forall j | j in s.ops
      ensures ObjRely(s, j, o, s.objs[o], WithWeak(s.objs[o], w'))
    {
      assert OpOk(s, j);
      AddWeakRely(s, j, o, w');
    }
    PutKeeps(s, s', t, o, WithWeak(s.objs[o], w'));
  }

  lemma DropWeakRely(s: State, j: nat, o: nat, w: nat, x': Obj)
    requires j in s.ops && OpOk(s, j) && o in s.objs && w in s.objs[o].weaks
    requires !Borrows(s.ops[j].pc, o, ByWeak(w))
    requires s.objs[o].freer == None || x'.freer == s.objs[o].freer
    requires x' == s.objs[o].(weak := x'.weak, weaks := s.objs[o].weaks - {w}, freer := x'.freer)
    ensures ObjRely(s, j, o, s.objs[o], x')
  {
  }

  lemma DropWeakOk(x: Obj, w: nat, i: nat)
    requires ObjOk(x) && w in x.weaks && x.weak >= 1
    ensures var x' := x.(weak := x.weak - 1, weaks := x.weaks - {w});
      ObjOk(if x'.weak == 0 then x'.(freer := Some(i)) else x')
    ensures x.freer == None && x.locker == None
  {
    assert |x.weaks - {w}| == |x.weaks| - 1;
  }

  lemma DropWeakRelied(s: State, o: nat, w: nat, x': Obj)
    requires Inv(s) && o in s.objs && w in s.objs[o].weaks
    requires forall j | j in s.ops :: !Borrows(s.ops[j].pc, o, ByWeak(w))
    requires s.objs[o].freer == None
    requires x' == s.objs[o].(weak := x'.weak, weaks := s.objs[o].weaks - {w}, freer := x'.freer)
    ensures forall j | j in s.ops :: ObjRely(s, j, o, s.objs[o], x')
  {
    forall j | j in s.ops
      ensures ObjRely(s, j, o, s.objs[o], x')
    {
      assert OpOk(s, j);
      DropWeakRely(s, j, o, w, x');
    }
  }

  lemma WeakDropPreserves(s: State, s': State, t: nat, i: nat, o: nat, w: nat)
    requires Inv(s) && WeakDrop(s, s', t, i, o, w)
    ensures Inv(s')
  {
    assert ObjectOk(s, o);
    DropWeakOk(s.objs[o], w, i);
    var x' := s'.objs[o];
    DropWeakRelied(s, o, w, x');
    if i in s'.ops {
      BeginKeeps(s, s', t, i, o, x', Free(o));
    } else {
      PutKeeps(s, s', t, o, x');
    }
  }

  // ----- is_unique -----

  lemma UniqueBeginClaims(s: State, s': State, t: nat, i: nat, o: nat, h: nat)
    requires Inv(s) && Idle(s, t) && i !in s.ops && Movable(s, o, h) && OwnerChecked(s, t, o)
    requires s' == Begin(Put(s, o, s.objs[o].(claims := s.objs[o].claims[h := i])), t, i, LockWeak(o, h, true))
    ensures Inv(s')
  {
    assert ObjectOk(s, o);
    ClaimRelied(s, i, o, h);
    BeginKeeps(s, s', t, i, o, s'.objs[o], LockWeak(o, h, true));
  }

  lemma UniqueBeginBorrows(s: State, s': State, t: nat, i: nat, o: nat, h: nat)
    requires Inv(s) && Idle(s, t) && i !in s.ops && Usable(s, o, h) && OwnerChecked(s, t, o)
    requires s' == Begin(s, t, i, LockWeak(o, h, false))
    ensures Inv(s')
  {
    assert ObjectOk(s, o);
    BeginSame(s, s', t, i, o, LockWeak(o, h, false));
  }

  lemma UniqueBeginPreserves(s: State, s': State, t: nat, i: nat, o: nat, h: nat, exclusive: bool)
    requires Inv(s) && UniqueBegin(s, s', t, i, o, h, exclusive)
    ensures Inv(s')
  {
    assert ObjectOk(s, o);
    var x := s.objs[o];
    if x.bw.owner.Some? && x.bw.owner == Me(s, t) { IdleOwner(s, t, o); }
    if i in s'.ops {
      if exclusive { UniqueBeginClaims(s, s', t, i, o, h); }
      else { UniqueBeginBorrows(s, s', t, i, o, h); }
    }
  }

  lemma UnclaimRelied(s: State, i: nat, o: nat, h: nat, x': Obj)
    requires Claimed(s, i, o, h)
    requires s.objs[o].locker == None || s.objs[o].locker == Some(i)
    requires x' == s.objs[o].(claims := s.objs[o].claims - {h}, weak := x'.weak, locker := x'.locker)
    ensures ObjRelied(s, i, o, x')
  {
  }

  lemma LockRelied(s: State, i: nat, o: nat, x': Obj)
    requires o in s.objs
    requires s.objs[o].locker == None || s.objs[o].locker == Some(i)
    requires x' == s.objs[o].(weak := x'.weak, locker := x'.locker)
    ensures ObjRelied(s, i, o, x')
  {
  }

  /** An operation that only holds a claim gives it back and returns. */
  lemma ReturnClaim(s: State, s': State, i: nat, o: nat, h: nat)
    requires Inv(s) && Touches(s, i, o) && Claimed(s, i, o, h)
    requires s.ops[i].pc == LockWeak(o, h, true) || s.ops[i].pc == HoldMut(o, h)
    requires s' == End(Put(s, o, s.objs[o].(claims := s.objs[o].claims - {h})), i)
    ensures Inv(s')
  {
    assert At(s, i, o);
    var x' := s.objs[o].(claims := s.objs[o].claims - {h});
    forall j | j in s.ops && j != i
      ensures ObjRely(s, j, o, s.objs[o], x')
    {
    }
    EndKeeps(s, s', i, o, x');
  }

  /** One that only borrowed has nothing to give back. */
  lemma ReturnBorrow(s: State, s': State, i: nat, o: nat, h: nat)
    requires Inv(s) && Touches(s, i, o) && s.ops[i].pc == LockWeak(o, h, false)
    requires s' == End(s, i)
    ensures Inv(s')
  {
    assert At(s, i, o);
    UnchangedRelied(s, i, o);
    assert s' == End(Put(s, o, s.objs[o]), i);
    EndKeeps(s, s', i, o, s.objs[o]);
  }

  lemma LockTaken(s: State, s': State, i: nat, o: nat, h: nat, exclusive: bool)
    requires Inv(s) && Runs(s, i) && s.ops[i].pc == LockWeak(o, h, exclusive) && o in s.objs && s.objs[o].weak == 1
    requires s' == Go(Put(s, o, s.objs[o].(weak := WEAK_LOCKED, locker := Some(i))), i, UniqueShared(o, h, exclusive))
    ensures Inv(s')
  {
    assert At(s, i, o);
    LockRelied(s, i, o, s'.objs[o]);
    GoKeeps(s, s', i, o, s'.objs[o], UniqueShared(o, h, exclusive));
  }

  lemma LockWeakPreserves(s: State, s': State, i: nat)
    requires Inv(s) && LockWeakStep(s, s', i)
    ensures Inv(s')
  {
    var LockWeak(o, h, exclusive) := s.ops[i].pc;
    if s.objs[o].weak == 1 {
      LockTaken(s, s', i, o, h, exclusive);
    } else if exclusive {
      assert OpOk(s, i);
      ReturnClaim(s, s', i, o, h);
    } else {
      assert s' == End(s, i);
      ReturnBorrow(s, s', i, o, h);
    }
  }

  lemma Singleton(s: set<nat>, h: nat)
    requires h in s && |s| == 1
    ensures s == {h}
  {
    assert |s - {h}| == 0;
  }

  lemma UniqueSharedPreserves(s: State, s': State, i: nat)
    requires Inv(s) && UniqueSharedStep(s, s', i)
    ensures Inv(s')
  {
    var UniqueShared(o, h, exclusive) := s.ops[i].pc;
    assert At(s, i, o);
    if |s.objs[o].strong| == 1 { Singleton(s.objs[o].strong, h); }
    GoSame(s, s', i, o, s'.ops[i].pc);
  }

  lemma UniqueBiasedPreserves(s: State, s': State, i: nat)
    requires Inv(s) && UniqueBiasedStep(s, s', i)
    ensures Inv(s')
  {
    var o := s.ops[i].pc.o;
    assert At(s, i, o);
    GoSame(s, s', i, o, s'.ops[i].pc);
  }

  ghost function Unlocked(x: Obj): Obj {
    x.(weak := 1, locker := None)
  }

  lemma UnlockUnique(s: State, s': State, i: nat, o: nat, h: nat, sole: bool)
    requires Inv(s) && Runs(s, i) && s.ops[i].pc == UnlockWeak(o, h, true, true, sole) && o in s.objs
    requires s' == Go(Put(s, o, Unlocked(s.objs[o])), i, HoldMut(o, h))
    ensures Inv(s')
  {
    assert At(s, i, o);
    LockRelied(s, i, o, Unlocked(s.objs[o]));
    GoKeeps(s, s', i, o, Unlocked(s.objs[o]), HoldMut(o, h));
  }

  lemma UnlockNotUnique(s: State, s': State, i: nat, o: nat, h: nat, sole: bool)
    requires Inv(s) && Runs(s, i) && s.ops[i].pc == UnlockWeak(o, h, true, false, sole) && o in s.objs
    requires s' == End(Put(s, o, GivenBack(Unlocked(s.objs[o]), h, true)), i)
    ensures Inv(s')
  {
    assert At(s, i, o);
    var x' := GivenBack(Unlocked(s.objs[o]), h, true);
    UnclaimRelied(s, i, o, h, x');
    EndKeeps(s, s', i, o, x');
  }

  lemma UnlockBorrowed(s: State, s': State, i: nat, o: nat, h: nat, unique: bool, sole: bool)
    requires Inv(s) && Runs(s, i) && s.ops[i].pc == UnlockWeak(o, h, false, unique, sole) && o in s.objs
    requires s' == End(Put(s, o, Unlocked(s.objs[o])), i)
    ensures Inv(s')
  {
    assert At(s, i, o);
    LockRelied(s, i, o, Unlocked(s.objs[o]));
    EndKeeps(s, s', i, o, Unlocked(s.objs[o]));
  }

  lemma UnlockWeakPreserves(s: State, s': State, i: nat)
    requires Inv(s) && UnlockWeakStep(s, s', i)
    ensures Inv(s')
  {
    var UnlockWeak(o, h, exclusive, unique, sole) := s.ops[i].pc;
    if !exclusive {
      UnlockBorrowed(s, s', i, o, h, unique, sole);
    } else if unique {
      UnlockUnique(s, s', i, o, h, sole);
    } else {
      UnlockNotUnique(s, s', i, o, h, sole);
    }
  }

  lemma ReturnMutPreserves(s: State, s': State, i: nat)
    requires Inv(s) && ReturnMut(s, s', i)
    ensures Inv(s')
  {
    var HoldMut(o, h) := s.ops[i].pc;
    assert OpOk(s, i);
    ReturnClaim(s, s', i, o, h);
  }

  // ----- strong_count -----

  lemma CountBeginPreserves(s: State, s': State, t: nat, i: nat, o: nat, via: Via)
    requires Inv(s) && CountBegin(s, s', t, i, o, via)
    ensures Inv(s')
  {
    assert ObjectOk(s, o);
    if s.threads[t].status == Registered && s.objs[o].bw.owner == Some(t) { IdleOwner(s, t, o); }
    BeginSame(s, s', t, i, o, s'.ops[i].pc);
  }

  lemma CountBiasedPreserves(s: State, s': State, i: nat)
    requires Inv(s) && CountBiasedStep(s, s', i)
    ensures Inv(s')
  {
    var o := s.ops[i].pc.o;
    assert At(s, i, o);
    GoSame(s, s', i, o, s'.ops[i].pc);
  }

  lemma CountReturnPreserves(s: State, s': State, i: nat)
    requires Inv(s) && CountReturn(s, s', i)
    ensures Inv(s')
  {
    var o := s.ops[i].pc.o;
    assert OpOk(s, i);
    assert ObjectOk(s, o);
    UnchangedRelied(s, i, o);
    assert s' == End(Put(s, o, s.objs[o]), i);
    EndKeeps(s, s', i, o, s.objs[o]);
  }
}
