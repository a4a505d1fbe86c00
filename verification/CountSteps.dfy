/** The steps of clone, upgrade and drop keep the invariant. */
module CountSteps {
  import opened Words
  import opened Protocol
  import opened Invariant
  import opened Frame

  /** What one operation and its object know about each other. */
  ghost predicate At(s: State, i: nat, o: nat) {
    i in s.ops && OpOk(s, i) && o in s.objs && ObjectOk(s, o)
  }

  // ----- the owner's store -----

  ghost function IncStored(x: Obj, t: nat, b: nat, h': nat): Obj {
    x.(bw := BiasedWord(Some(t), b + 1), strong := x.strong + {h'})
  }

  lemma IncStoreRely(s: State, i: nat, j: nat, o: nat, h': nat)
    requires At(s, i, o) && j in s.ops && OpOk(s, j) && j != i
    requires s.ops[i].pc.IncStore? && s.ops[i].pc.o == o && h' !in s.objs[o].strong
    ensures ObjRely(s, j, o, s.objs[o], IncStored(s.objs[o], s.ops[i].tid, s.ops[i].pc.b, h'))
  {
  }

  lemma IncStoreOk(s: State, i: nat, o: nat, h': nat)
    requires At(s, i, o)
    requires s.ops[i].pc.IncStore? && s.ops[i].pc.o == o && h' !in s.objs[o].strong
    ensures ObjOk(IncStored(s.objs[o], s.ops[i].tid, s.ops[i].pc.b, h'))
  {
  }

  lemma IncStorePreserves(s: State, s': State, i: nat, h': nat)
    requires Inv(s) && IncStoreStep(s, s', i, h')
    ensures Inv(s')
  {
    var IncStore(o, via, b) := s.ops[i].pc;
    assert At(s, i, o);
    var x' := IncStored(s.objs[o], s.ops[i].tid, b, h');
    forall j | j in s.ops && j != i
      ensures ObjRely(s, j, o, s.objs[o], x')
    {
      assert OpOk(s, j);
      IncStoreRely(s, i, j, o, h');
    }
    IncStoreOk(s, i, o, h');
    EndKeeps(s, s', i, o, x');
  }

  // ----- shared increments -----

  /** Someone who may reach the object: a handle nobody claims, or a weak reference. */
  ghost predicate Reachable(x: Obj) {
    (exists h | h in x.strong :: h !in x.claims) || x.weaks != {}
  }

  lemma SharedIncrementRely(s: State, j: nat, o: nat, h': nat, w: SharedWord)
    requires j in s.ops && OpOk(s, j) && o in s.objs && ObjectOk(s, o)
    requires h' !in s.objs[o].strong && Reachable(s.objs[o])
    requires w.merged == s.objs[o].sw.merged
    ensures ObjRely(s, j, o, s.objs[o], s.objs[o].(sw := w, strong := s.objs[o].strong + {h'}))
  {
  }

  /** The effect of a shared increment that does not carry. */
  ghost function TypedIncrement(x: Obj, h': nat): Obj {
    x.(sw := x.sw.(count := x.sw.count + 1), strong := x.strong + {h'})
  }

  lemma TypedIncrementOk(x: Obj, h': nat)
    requires ObjOk(x) && h' !in x.strong && x.sw.count < SHARED_MAX && !IsExhausted(x.sw)
    ensures ObjOk(TypedIncrement(x, h'))
    ensures x.sw.count != -1 ==> SharedIncrement(x, h') == TypedIncrement(x, h')
  {
  }

  lemma TypedIncrementRelied(s: State, m: nat, o: nat, h': nat)
    requires Inv(s) && o in s.objs && h' !in s.objs[o].strong && Reachable(s.objs[o])
    ensures ObjRelied(s, m, o, TypedIncrement(s.objs[o], h'))
  {
    assert ObjectOk(s, o);
    forall j | j in s.ops && j != m
      ensures ObjRely(s, j, o, s.objs[o], TypedIncrement(s.objs[o], h'))
    {
      assert OpOk(s, j);
      SharedIncrementRely(s, j, o, h', TypedIncrement(s.objs[o], h').sw);
    }
  }

  lemma CloneSharedPreserves(s: State, s': State, i: nat, h': nat)
    requires Inv(s) && CloneSharedStep(s, s', i, h')
    requires s.objs[s.ops[i].pc.o].sw.count != -1
    ensures Inv(s')
  {
    var CloneShared(o, h) := s.ops[i].pc;
    assert At(s, i, o);
    TypedIncrementOk(s.objs[o], h');
    TypedIncrementRelied(s, i, o, h');
    EndKeeps(s, s', i, o, TypedIncrement(s.objs[o], h'));
  }

  lemma CloneDirectPreserves(s: State, s': State, t: nat, o: nat, h: nat, h': nat)
    requires Inv(s) && CloneDirect(s, s', t, o, h, h')
    requires s.objs[o].sw.count != -1
    ensures Inv(s')
  {
    assert ObjectOk(s, o);
    var x' := TypedIncrement(s.objs[o], h');
    TypedIncrementOk(s.objs[o], h');
    forall j | j in s.ops
      ensures ObjRely(s, j, o, s.objs[o], x')
    {
      assert OpOk(s, j);
      SharedIncrementRely(s, j, o, h', x'.sw);
    }
    PutKeeps(s, s', t, o, x');
  }

  lemma UpgradeRefused(s: State, s': State, i: nat, o: nat)
    requires Inv(s) && Touches(s, i, o) && s.ops[i].pc.UpgradeShared?
    requires s' == End(s, i)
    ensures Inv(s')
  {
    assert At(s, i, o);
    UnchangedRelied(s, i, o);
    assert s' == End(Put(s, o, s.objs[o]), i);
    EndKeeps(s, s', i, o, s.objs[o]);
  }

  lemma UpgradeGranted(s: State, s': State, i: nat, o: nat, h': nat)
    requires Inv(s) && Touches(s, i, o) && s.ops[i].pc.UpgradeShared? && h' !in s.objs[o].strong
    requires s.objs[o].sw.count < SHARED_MAX && !IsExhausted(s.objs[o].sw)
    requires s' == End(Put(s, o, TypedIncrement(s.objs[o], h')), i)
    ensures Inv(s')
  {
    assert At(s, i, o);
    TypedIncrementOk(s.objs[o], h');
    TypedIncrementRelied(s, i, o, h');
    EndKeeps(s, s', i, o, TypedIncrement(s.objs[o], h'));
  }

  lemma UpgradeSharedPreserves(s: State, s': State, i: nat, h': nat)
    requires Inv(s) && UpgradeSharedStep(s, s', i, h')
    ensures Inv(s')
  {
    var o := s.ops[i].pc.o;
    if IsExhausted(s.objs[o].sw) {
      UpgradeRefused(s, s', i, o);
    } else {
      UpgradeGranted(s, s', i, o, h');
    }
  }

  // ----- the loads that start a clone or an upgrade -----

  lemma UnownerBusy(s: State, o: nat)
    requires Inv(s) && o in s.objs && s.objs[o].unowner.Some?
    ensures var u := s.objs[o].unowner.value;
      && u in s.ops && s.ops[u].tid in s.busy
      && s.objs[o].creator.Some? && MayMerge(s, s.ops[u].tid, s.objs[o].creator.value)
  {
    assert ObjectOk(s, o);
    assert OpOk(s, s.objs[o].unowner.value);
  }

  /** A thread that is not in straight-line code and finds itself the owner really is. */
  lemma IdleOwner(s: State, t: nat, o: nat)
    requires Inv(s) && Idle(s, t) && o in s.objs
    requires s.threads[t].status == Registered && s.objs[o].bw.owner == Some(t)
    ensures Owns(s, t, o)
  {
    assert ObjectOk(s, o);
    if s.objs[o].sw.merged {
      UnownerBusy(s, o);
      assert false;
    }
  }

  lemma BeginSame(s: State, s': State, t: nat, i: nat, o: nat, pc: Pc)
    requires Inv(s) && Idle(s, t) && i !in s.ops && o in s.objs
    requires s' == Begin(s, t, i, pc) && OpOk(s', i)
    ensures Inv(s')
  {
    assert ObjectOk(s, o);
    UnchangedRelied(s, i, o);
    assert s' == Begin(Put(s, o, s.objs[o]), t, i, pc);
    BeginKeeps(s, s', t, i, o, s.objs[o], pc);
  }

  lemma CloneBeginPreserves(s: State, s': State, t: nat, i: nat, o: nat, h: nat)
    requires Inv(s) && CloneBegin(s, s', t, i, o, h)
    ensures Inv(s')
  {
    assert ObjectOk(s, o);
    if MayStore(s, t, o) { IdleOwner(s, t, o); }
    BeginSame(s, s', t, i, o, s'.ops[i].pc);
  }

  lemma UpgradeBeginPreserves(s: State, s': State, t: nat, i: nat, o: nat, h: nat)
    requires Inv(s) && UpgradeBegin(s, s', t, i, o, h)
    ensures Inv(s')
  {
    assert ObjectOk(s, o);
    if MayStore(s, t, o) { IdleOwner(s, t, o); }
    BeginSame(s, s', t, i, o, s'.ops[i].pc);
  }

  // ----- drop -----

  lemma ClaimRely(s: State, j: nat, o: nat, h: nat, i: nat)
    requires j in s.ops && OpOk(s, j) && j != i && Movable(s, o, h)
    ensures ObjRely(s, j, o, s.objs[o], s.objs[o].(claims := s.objs[o].claims[h := i]))
  {
  }

  lemma ClaimRelied(s: State, i: nat, o: nat, h: nat)
    requires Inv(s) && Movable(s, o, h)
    ensures ObjRelied(s, i, o, s.objs[o].(claims := s.objs[o].claims[h := i]))
  {
    forall j | j in s.ops && j != i
      ensures ObjRely(s, j, o, s.objs[o], s.objs[o].(claims := s.objs[o].claims[h := i]))
    {
      assert OpOk(s, j);
      ClaimRely(s, j, o, h, i);
    }
  }

  lemma DropBeginPreserves(s: State, s': State, t: nat, i: nat, o: nat, h: nat)
    requires Inv(s) && DropBegin(s, s', t, i, o, h)
    ensures Inv(s')
  {
    assert ObjectOk(s, o);
    ClaimRelied(s, i, o, h);
    var x := s.objs[o];
    if x.bw.owner.Some? && x.bw.owner == Me(s, t) { IdleOwner(s, t, o); }
    BeginKeeps(s, s', t, i, o, x.(claims := x.claims[h := i]), s'.ops[i].pc);
  }

  /** Giving up the claimed handle, with whatever words replace the old ones. */
  ghost predicate GivesUp(s: State, i: nat, o: nat, h: nat, x': Obj) {
    && At(s, i, o) && Claimed(s, i, o, h)
    && var x := s.objs[o];
    && x'.strong == x.strong - {h} && x'.claims == x.claims - {h} && x'.weaks == x.weaks
    && x'.creator == x.creator && x'.locker == x.locker && x'.freer == x.freer
    && (x.sw.merged ==> x'.sw.merged)
  }

  lemma GiveUpRely(s: State, i: nat, j: nat, o: nat, h: nat, x': Obj)
    requires GivesUp(s, i, o, h, x') && j in s.ops && OpOk(s, j) && j != i
    requires RightsKept(j, s.objs[o], x') && WordsKept(s, j, o, s.objs[o], x')
    ensures ObjRely(s, j, o, s.objs[o], x')
  {
  }

  ghost function DecStored(x: Obj, t: nat, h: nat, b: nat): Obj
    requires b >= 1
  {
    WithoutStrong(x, h).(bw := BiasedWord(Some(t), b - 1))
  }

  lemma DropStoreRelied(s: State, i: nat, o: nat, h: nat, b: nat)
    requires Inv(s) && At(s, i, o) && s.ops[i].pc == DropStore(o, h, b)
    ensures ObjRelied(s, i, o, DecStored(s.objs[o], s.ops[i].tid, h, b))
  {
    var x' := DecStored(s.objs[o], s.ops[i].tid, h, b);
    forall j | j in s.ops && j != i
      ensures ObjRely(s, j, o, s.objs[o], x')
    {
      assert OpOk(s, j);
      GiveUpRely(s, i, j, o, h, x');
    }
  }

  lemma DropStorePreserves(s: State, s': State, i: nat)
    requires Inv(s) && DropStoreStep(s, s', i)
    ensures Inv(s')
  {
    var DropStore(o, h, b) := s.ops[i].pc;
    assert At(s, i, o);
    var x' := DecStored(s.objs[o], s.ops[i].tid, h, b);
    DropStoreRelied(s, i, o, h, b);
    EndKeeps(s, s', i, o, x');
  }

  lemma DropMergeRely(s: State, i: nat, j: nat, o: nat, h: nat)
    requires At(s, i, o) && j in s.ops && OpOk(s, j) && j != i
    requires s.ops[i].pc == DropMerge(o, h)
    ensures ObjRely(s, j, o, s.objs[o], MergedAway(s.objs[o], i, h))
  {
    GiveUpRely(s, i, j, o, h, MergedAway(s.objs[o], i, h));
  }

  lemma Without(s: set<nat>, h: nat)
    requires h in s
    ensures |s - {h}| == |s| - 1
  {
  }

  /** The holder of the weak lock has a handle of its own. */
  lemma LockerHolds(s: State, i: nat, o: nat, h: nat)
    requires At(s, i, o) && Claimed(s, i, o, h) && !IsLocker(s.ops[i].pc, o) && LockerOk(s, o)
    ensures s.objs[o].locker.Some? ==> |s.objs[o].strong - {h}| >= 1
  {
    var x := s.objs[o];
    if x.locker.Some? {
      var l := x.locker.value;
      assert s.ops[l].pc.h in x.strong - {h};
    }
  }

  ghost predicate LockerOk(s: State, o: nat)
    requires o in s.objs
  {
    s.objs[o].locker.Some? ==> s.objs[o].locker.value in s.ops && OpOk(s, s.objs[o].locker.value)
  }

  lemma LockerIsOk(s: State, o: nat)
    requires Inv(s) && o in s.objs
    ensures LockerOk(s, o)
  {
    assert ObjectOk(s, o);
    if s.objs[o].locker.Some? { assert OpOk(s, s.objs[o].locker.value); }
  }

  lemma DropMergeOk(s: State, i: nat, o: nat, h: nat)
    requires At(s, i, o) && LockerOk(s, o) && s.ops[i].pc == DropMerge(o, h) && !s.objs[o].sw.queued
    ensures ObjOk(MergedAway(s.objs[o], i, h))
  {
    Without(s.objs[o].strong, h);
    LockerHolds(s, i, o, h);
  }

  lemma DropMergePreserves(s: State, s': State, i: nat)
    requires Inv(s) && DropMergeStep(s, s', i) && !s.objs[s.ops[i].pc.o].sw.queued
    ensures Inv(s')
  {
    var DropMerge(o, h) := s.ops[i].pc;
    assert At(s, i, o);
    var x' := MergedAway(s.objs[o], i, h);
    LockerIsOk(s, o);
    DropMergeOk(s, i, o, h);
    forall j | j in s.ops && j != i
      ensures ObjRely(s, j, o, s.objs[o], x')
    {
      assert OpOk(s, j);
      DropMergeRely(s, i, j, o, h);
    }
    GoKeeps(s, s', i, o, x', s'.ops[i].pc);
  }

  lemma DropSharedRely(s: State, i: nat, j: nat, o: nat, h: nat)
    requires At(s, i, o) && j in s.ops && OpOk(s, j) && j != i
    requires s.ops[i].pc == DropShared(o, h)
    ensures ObjRely(s, j, o, s.objs[o], SharedDropped(s.objs[o], i, h))
  {
    GiveUpRely(s, i, j, o, h, SharedDropped(s.objs[o], i, h));
  }

  lemma DropSharedOk(s: State, i: nat, o: nat, h: nat)
    requires At(s, i, o) && LockerOk(s, o)
    requires s.ops[i].pc == DropShared(o, h) && s.objs[o].sw.count > SHARED_MIN
    ensures ObjOk(SharedDropped(s.objs[o], i, h))
  {
    Without(s.objs[o].strong, h);
    LockerHolds(s, i, o, h);
  }

  lemma DropSharedRelied(s: State, i: nat, o: nat, h: nat)
    requires Inv(s) && At(s, i, o) && s.ops[i].pc == DropShared(o, h)
    ensures ObjRelied(s, i, o, SharedDropped(s.objs[o], i, h))
  {
    forall j | j in s.ops && j != i
      ensures ObjRely(s, j, o, s.objs[o], SharedDropped(s.objs[o], i, h))
    {
      assert OpOk(s, j);
      DropSharedRely(s, i, j, o, h);
    }
  }

  lemma DropSharedMoved(s: State, s': State, i: nat, o: nat, h: nat)
    requires At(s, i, o) && s.ops[i].pc == DropShared(o, h) && DropSharedStep(s, s', i)
    ensures RightsMoved(s', i, o, s.objs[o], SharedDropped(s.objs[o], i, h))
  {
  }

  lemma DropSharedMover(s: State, s': State, i: nat, o: nat, h: nat)
    requires At(s, i, o) && s.ops[i].pc == DropShared(o, h) && DropSharedStep(s, s', i)
    ensures i in s'.ops ==> OpOk(s', i)
  {
  }

  lemma DropSharedPreserves(s: State, s': State, i: nat)
    requires Inv(s) && DropSharedStep(s, s', i)
    ensures Inv(s')
  {
    var DropShared(o, h) := s.ops[i].pc;
    assert At(s, i, o);
    LockerIsOk(s, o);
    DropSharedOk(s, i, o, h);
    DropSharedRelied(s, i, o, h);
    DropSharedMoved(s, s', i, o, h);
    DropSharedMover(s, s', i, o, h);
    var x' := SharedDropped(s.objs[o], i, h);
    if i in s'.ops {
      GoKeeps(s, s', i, o, x', s'.ops[i].pc);
    } else {
      EndKeeps(s, s', i, o, x');
    }
  }

  lemma StoreUnownedRely(s: State, i: nat, j: nat, o: nat)
    requires At(s, i, o) && j in s.ops && OpOk(s, j) && j != i
    requires s.ops[i].pc.StoreUnowned? && s.ops[i].pc.o == o
    ensures ObjRely(s, j, o, s.objs[o], s.objs[o].(bw := UNOWNED, unowner := None))
  {
  }

  lemma StoreUnownedRelied(s: State, i: nat, o: nat)
    requires Inv(s) && At(s, i, o) && s.ops[i].pc.StoreUnowned? && s.ops[i].pc.o == o
    ensures ObjRelied(s, i, o, s.objs[o].(bw := UNOWNED, unowner := None))
  {
    forall j | j in s.ops && j != i
      ensures ObjRely(s, j, o, s.objs[o], s.objs[o].(bw := UNOWNED, unowner := None))
    {
      assert OpOk(s, j);
      StoreUnownedRely(s, i, j, o);
    }
  }

  lemma StoreUnownedPreserves(s: State, s': State, i: nat)
    requires Inv(s) && StoreUnownedStep(s, s', i)
    ensures Inv(s')
  {
    var o := s.ops[i].pc.o;
    assert At(s, i, o);
    StoreUnownedRelied(s, i, o);
    if i in s'.ops {
      GoKeeps(s, s', i, o, s'.objs[o], s'.ops[i].pc);
    } else {
      EndKeeps(s, s', i, o, s'.objs[o]);
    }
  }
}
