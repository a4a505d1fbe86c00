/** What every polite run guarantees about weak references, the weak lock,
    uniqueness, upgrades and `strong_count`. */
module WeakTheorems {
  import opened Words
  import opened Protocol
  import opened Invariant
  import opened Frame
  import opened CountSteps
  import opened Preservation
  import opened Evolution
  import opened WeakSteps

  // ----- the allocation -----

  /** The weak count is the number of `Weak` handles, plus one until the strong
      side lets go; the memory is freed once, after destruction, when nobody is left. */
  lemma AllocationLifetime(s: State, o: nat)
    requires Reached(s) && o in s.objs
    ensures var x := s.objs[o];
      && (x.locker == None ==> x.weak == |x.weaks| + (if x.life == Released then 0 else 1))
      && x.frees <= 1
      && (x.frees == 1 ==> x.destroys == 1 && x.strong == {} && x.weaks == {})
      && (x.weak == 0 ==> x.frees == 1 || x.freer.Some?)
  {
    ReachedInv(s);
    assert ObjectOk(s, o);
  }

  /** The operation is past its last duty: a merge that leaves the value alive
      still has to store UNOWNED, and no reference of its own to do it under. */
  predicate Trails(pc: Pc, o: nat) {
    pc == StoreUnowned(o, Keep)
  }

  /** Only one operation frees, and the memory an operation works on is there:
      always for all but the trailing store, and for that one if and only if
      somebody else still has a handle or works on the object. */
  lemma AllocationOutlivesUse(s: State, i: nat, o: nat)
    requires Reached(s) && i in s.ops && ObjOf(s.ops[i].pc) == Some(o)
    ensures o in s.objs
    ensures s.objs[o].frees == 0 <==>
              || !Trails(s.ops[i].pc, o)
              || s.objs[o].strong != {} || s.objs[o].weaks != {}
              || exists j :: j in s.ops && j != i && ObjOf(s.ops[j].pc) == Some(o)
    ensures s.ops[i].pc == Free(o) ==>
              forall j | j in s.ops && s.ops[j].pc == Free(o) :: j == i
  {
    ReachedInv(s);
    WorksOnMemory(s, i, o);
    assert ObjectOk(s, o);
    forall j | j in s.ops && ObjOf(s.ops[j].pc) == Some(o)
      ensures s.ops[j].pc == Free(o) && s.ops[i].pc == Free(o) ==> j == i
      ensures Trails(s.ops[i].pc, o) && j != i ==> s.objs[o].frees == 0
    {
      WorksOnMemory(s, j, o);
    }
  }

  /** All but the trailing store hold on to the memory, and there is one of those. */
  lemma WorksOnMemory(s: State, i: nat, o: nat)
    requires Inv(s) && i in s.ops && ObjOf(s.ops[i].pc) == Some(o)
    ensures o in s.objs
    ensures if Trails(s.ops[i].pc, o) then s.objs[o].unowner == Some(i) && s.objs[o].sw.merged
            else s.objs[o].frees == 0
    ensures s.ops[i].pc == Free(o) ==> s.objs[o].freer == Some(i)
  {
    assert OpOk(s, i);
    assert ObjectOk(s, o);
  }

  /** For the caller: whoever keeps a strong or a weak handle until another
      thread's merge has given up ownership keeps that store on live memory. */
  lemma HandleKeepsTrailingStore(s: State, s': State, i: nat)
    requires Reached(s) && StoreUnownedStep(s, s', i)
    requires s.objs[s.ops[i].pc.o].strong != {} || s.objs[s.ops[i].pc.o].weaks != {}
    ensures s'.objs[s.ops[i].pc.o].frees == 0 && s'.objs[s.ops[i].pc.o].bw == UNOWNED
  {
    AllocationOutlivesUse(s, i, s.ops[i].pc.o);
  }

  // ----- the weak lock -----

  /** While the weak count is locked nobody else gets past it: no `Weak`
      exists, and no downgrade, weak clone or weak drop can complete. */
  lemma LockExcludes(s: State, o: nat)
    requires Reached(s) && o in s.objs && s.objs[o].locker.Some?
    ensures s.objs[o].weak == WEAK_LOCKED && s.objs[o].weaks == {} && s.objs[o].life == Alive
    ensures forall s', t, h, w' :: !Downgrade(s, s', t, o, h, w')
    ensures forall s', t, w, w' :: !WeakClone(s, s', t, o, w, w')
    ensures forall s', t, i, w :: !WeakDrop(s, s', t, i, o, w)
    ensures forall i | i in s.ops :: s.ops[i].pc != RunDestructor(o)
    ensures forall i | i in s.ops && IsLocker(s.ops[i].pc, o) :: s.objs[o].locker == Some(i)
  {
    ReachedInv(s);
    assert ObjectOk(s, o);
    forall i | i in s.ops
      ensures s.ops[i].pc != RunDestructor(o)
      ensures IsLocker(s.ops[i].pc, o) ==> s.objs[o].locker == Some(i)
    {
      assert OpOk(s, i);
    }
  }

  /** So the plain store of 1 that unlocks writes the right count. */
  lemma UnlockLosesNothing(s: State, s': State, i: nat)
    requires Reached(s) && UnlockWeakStep(s, s', i)
    ensures var o := s.ops[i].pc.o;
      && o in s.objs && o in s'.objs
      && s'.objs[o].weaks == s.objs[o].weaks
      && s'.objs[o].weak == |s'.objs[o].weaks| + 1
  {
    ReachedInv(s);
    assert OpOk(s, i);
    assert ObjectOk(s, s.ops[i].pc.o);
  }

  // ----- uniqueness -----

  /** From the moment `is_unique` has answered true until the `&mut` is given
      back, the caller's handle is the only reference of any kind. */
  lemma UniqueHasNoFalsePositive(s: State, i: nat)
    requires Reached(s) && i in s.ops && s.ops[i].pc.HoldMut?
    ensures var HoldMut(o, h) := s.ops[i].pc;
      && o in s.objs && s.objs[o].strong == {h} && s.objs[o].weaks == {}
      && s.objs[o].destroys == 0 && s.objs[o].frees == 0
      && (forall j, via | j in s.ops && Borrows(s.ops[j].pc, o, via) :: false)
      && (forall j, h' | j in s.ops && Claims(s.ops[j].pc, o, h') :: j == i)
  {
    ReachedInv(s);
    assert OpOk(s, i);
    var HoldMut(o, h) := s.ops[i].pc;
    assert ObjectOk(s, o);
    forall j | j in s.ops
      ensures forall via :: !Borrows(s.ops[j].pc, o, via)
      ensures forall h' | Claims(s.ops[j].pc, o, h') :: j == i
    {
      assert OpOk(s, j);
      AloneWith(s, i, j, o, h);
    }
  }

  lemma AloneWith(s: State, i: nat, j: nat, o: nat, h: nat)
    requires At(s, i, o) && s.ops[i].pc == HoldMut(o, h) && j in s.ops && OpOk(s, j)
    ensures forall via :: !Borrows(s.ops[j].pc, o, via)
    ensures forall h' | Claims(s.ops[j].pc, o, h') :: j == i
  {
  }

  /** The first load: a thread that passes it owns the object, or the object is
      merged for good; a thread it turns away could only learn a lower bound,
      unless a merge is just about to give up ownership. */
  lemma OwnerCheckMeans(s: State, t: nat, o: nat)
    requires Reached(s) && Idle(s, t) && o in s.objs
    ensures var x, me := s.objs[o], Me(s, t);
      && (x.bw.owner.None? || x.bw.owner == me <==> Owns(s, t, o) || (x.sw.merged && x.bw == UNOWNED))
      && (x.bw.owner.Some? && x.bw.owner != me ==> CountFrom(me, x.sw, x.bw).AtLeast? || x.unowner.Some?)
  {
    ReachedInv(s);
    assert ObjectOk(s, o);
    if s.objs[o].bw.owner.Some? && s.objs[o].bw.owner == Me(s, t) { IdleOwner(s, t, o); }
  }

  /** `is_unique` goes on past the first load if and only if that check passes. */
  lemma UniqueStartsIff(s: State, s': State, t: nat, i: nat, o: nat, h: nat, exclusive: bool)
    requires Reached(s) && UniqueBegin(s, s', t, i, o, h, exclusive)
    ensures if Owns(s, t, o) || (s.objs[o].sw.merged && s.objs[o].bw == UNOWNED) then
              && i in s'.ops && s'.ops[i] == Op(t, LockWeak(o, h, exclusive))
              && (exclusive ==> o in s'.objs && h in s'.objs[o].claims && s'.objs[o].claims[h] == i)
            else s' == s
  {
    OwnerCheckMeans(s, t, o);
  }

  /** The lock is taken, with either kind of handle, if and only if there is no
      `Weak` and nobody else has the lock; otherwise the answer is no. */
  lemma LockTakenIff(s: State, s': State, i: nat)
    requires Reached(s) && LockWeakStep(s, s', i)
    ensures var LockWeak(o, h, exclusive) := s.ops[i].pc;
      && o in s.objs && o in s'.objs
      && (s'.objs[o].locker == Some(i) <==> s.objs[o].weaks == {} && s.objs[o].locker == None)
      && (s'.objs[o].locker == Some(i) <==> i in s'.ops && s'.ops[i].pc == UniqueShared(o, h, exclusive))
      && (s'.objs[o].locker == Some(i) <==> i in s'.ops)
  {
    ReachedInv(s);
    assert OpOk(s, i);
    assert ObjectOk(s, s.ops[i].pc.o);
  }

  /** The unlock hands out the `&mut` if and only if the answer is yes and the
      handle is exclusive, which means that the handle is alone with the value. */
  lemma UnlockGrantsIff(s: State, s': State, i: nat)
    requires Reached(s) && UnlockWeakStep(s, s', i)
    ensures var UnlockWeak(o, h, exclusive, unique, sole) := s.ops[i].pc;
      && o in s'.objs && s'.objs[o].locker == None
      && (i in s'.ops <==> unique && exclusive)
      && (i in s'.ops ==> s'.ops[i].pc == HoldMut(o, h))
      && (exclusive && i !in s'.ops ==> h !in s'.objs[o].claims && h in s'.objs[o].strong)
      && (exclusive && s.objs[o].strong == {h} && sole ==> i in s'.ops)
  {
    ReachedInv(s);
    assert OpOk(s, i);
    assert ObjectOk(s, s.ops[i].pc.o);
  }

  /** At the shared load the count is known, and the operation remembers whether
      its handle was the only one; no `Weak` exists. */
  lemma UniqueRemembersItsLoad(s: State, s': State, i: nat)
    requires Reached(s) && UniqueSharedStep(s, s', i)
    ensures var UniqueShared(o, h, exclusive) := s.ops[i].pc;
      && o in s.objs && h in s.objs[o].strong && s.objs[o].weaks == {}
      && CountFrom(Me(s, s.ops[i].tid), s.objs[o].sw, s.objs[o].bw) == Exact(|s.objs[o].strong|)
      && s'.ops[i].pc == UniqueBiased(o, h, exclusive, s.objs[o].sw, |s.objs[o].strong| == 1)
  {
    ReachedInv(s);
    var UniqueShared(o, h, _) := s.ops[i].pc;
    assert OpOk(s, i);
    assert ObjectOk(s, o);
    if |s.objs[o].strong| == 1 { Singleton(s.objs[o].strong, h); }
  }

  /** Whatever others did since that load, the answer is `true` exactly if the
      handle was the only strong one at that instant. Until the unlock no `Weak`
      exists, and an exclusive handle is still the only one. */
  lemma UniqueAnswerIsRight(s: State, s': State, i: nat)
    requires Reached(s) && UniqueBiasedStep(s, s', i)
    ensures var UniqueBiased(o, h, exclusive, _, sole) := s.ops[i].pc;
      s'.ops[i].pc == UnlockWeak(o, h, exclusive, sole, sole)
  {
    ReachedInv(s);
    assert OpOk(s, i);
    assert ObjectOk(s, s.ops[i].pc.o);
  }

  /** When the answer is given, a handle found to be the only one still is if and
      only if the shared count is the one that was loaded. */
  lemma UniqueStillTrueIff(s: State, s': State, i: nat)
    requires Reached(s) && UniqueBiasedStep(s, s', i) && s.ops[i].pc.sole
    ensures var UniqueBiased(o, h, exclusive, w, _) := s.ops[i].pc;
      && o in s.objs && (s.objs[o].strong == {h} <==> s.objs[o].sw.count == w.count)
      && (exclusive ==> s.objs[o].sw.count == w.count)
  {
    ReachedInv(s);
    var UniqueBiased(o, h, _, _, _) := s.ops[i].pc;
    assert OpOk(s, i);
    assert ObjectOk(s, o);
    if |s.objs[o].strong| == 1 { Singleton(s.objs[o].strong, h); }
  }

  lemma UniqueUntilUnlock(s: State, i: nat)
    requires Reached(s) && i in s.ops && s.ops[i].pc.UnlockWeak? && s.ops[i].pc.unique
    ensures var UnlockWeak(o, h, exclusive, _, sole) := s.ops[i].pc;
      && sole && o in s.objs && h in s.objs[o].strong && s.objs[o].weaks == {}
      && s.objs[o].life == Alive && s.objs[o].destroys == 0
      && (exclusive ==> s.objs[o].strong == {h})
  {
    ReachedInv(s);
    assert OpOk(s, i);
    assert ObjectOk(s, s.ops[i].pc.o);
  }

  // ----- upgrade -----

  /** A successful upgrade returns a handle to a value that is alive. */
  lemma UpgradeReturnsAliveValue(s: State, s': State, i: nat, h': nat)
    requires Reached(s) && UpgradeSharedStep(s, s', i, h')
    ensures var o := s.ops[i].pc.o;
      && o in s.objs && o in s'.objs
      && (IsExhausted(s.objs[o].sw) ==> s'.objs[o].strong == s.objs[o].strong == {})
      && (!IsExhausted(s.objs[o].sw) ==>
            && s'.objs[o].strong == s.objs[o].strong + {h'}
            && s'.objs[o].life == Alive && s'.objs[o].destroys == 0)
  {
    ReachedInv(s);
    var o := s.ops[i].pc.o;
    assert OpOk(s, i);
    assert ObjectOk(s, o);
    if IsExhausted(s.objs[o].sw) { assert |s.objs[o].strong| == 0; }
  }

  /** So does an upgrade, or a clone, that the owner stores in its own half: what
      it saw at its load still keeps the value alive at its store. */
  lemma BiasedUpgradeReturnsAliveValue(s: State, s': State, i: nat, h': nat)
    requires Reached(s) && IncStoreStep(s, s', i, h')
    ensures var o := s.ops[i].pc.o;
      && o in s.objs && o in s'.objs
      && !s.objs[o].sw.merged && s'.objs[o].sw == s.objs[o].sw
      && h' !in s.objs[o].strong && s'.objs[o].strong == s.objs[o].strong + {h'}
      && s'.objs[o].life == Alive && s'.objs[o].destroys == 0 && s'.objs[o].frees == 0
  {
    ReachedInv(s);
    assert OpOk(s, i);
    assert ObjectOk(s, s.ops[i].pc.o);
  }

  /** A value with a live handle has not been destroyed, at any time in any run. */
  lemma HandleKeepsAlive(s: State, o: nat, h: nat)
    requires Reached(s) && o in s.objs && h in s.objs[o].strong
    ensures s.objs[o].destroys == 0 && s.objs[o].frees == 0 && s.objs[o].life == Alive
    ensures !IsExhausted(s.objs[o].sw)
  {
    ReachedInv(s);
    assert ObjectOk(s, o);
  }

  /** "Merged with count zero" is absorbing: no handle ever comes back, and
      every later upgrade is refused. */
  lemma ExhaustedForever(s: State, s': State, o: nat)
    requires Reached(s) && Leads(s, s') && o in s.objs && IsExhausted(s.objs[o].sw)
    ensures o in s'.objs && IsExhausted(s'.objs[o].sw) && s'.objs[o].strong == {}
    ensures forall i | i in s'.ops && s'.ops[i].pc.IncStore? :: s'.ops[i].pc.o != o
  {
    LeadsEvolves(s, s');
    LeadsReached(s, s');
    ReachedInv(s');
    assert ObjectOk(s', o);
    forall i | i in s'.ops && s'.ops[i].pc.IncStore?
      ensures s'.ops[i].pc.o != o
    {
      assert OpOk(s', i);
    }
  }

  // ----- strong_count -----

  /** On a thread with a short id the answer is exact at the instant of the
      shared load, or is a true lower bound. */
  lemma StrongCountIsRight(s: State, i: nat)
    requires Reached(s) && i in s.ops && s.ops[i].pc.Counted?
    requires s.ops[i].tid in s.threads && s.threads[s.ops[i].tid].status == Registered
    ensures ResultOk(s.ops[i].pc.result, s.ops[i].pc.live)
  {
    ReachedInv(s);
    assert OpOk(s, i);
  }

  /** Elsewhere the bound is what the shared half counts at its load, and so no
      further from the count than the owner's half can reach. */
  lemma StrongCountBoundIsClose(s: State, s': State, i: nat)
    requires Reached(s) && CountBiasedStep(s, s', i) && s'.ops[i].pc.result.AtLeast?
    ensures var CountBiased(o, _, w, live) := s.ops[i].pc;
      var bound := s'.ops[i].pc.result.bound;
      && bound <= live <= bound + BIASED_MAX
      && (if w.count >= 0 then bound == w.count else bound == 0)
  {
    ReachedInv(s);
    assert OpOk(s, i);
    assert ObjectOk(s, s.ops[i].pc.o);
  }

  /** It is exact on the owner's thread and on merged objects. */
  lemma StrongCountIsExact(s: State, s': State, i: nat)
    requires Reached(s) && CountBiasedStep(s, s', i)
    requires var CountBiased(o, _, w, _) := s.ops[i].pc;
      || w.merged
      || (s.objs[o].creator == Some(s.ops[i].tid) && s.threads[s.ops[i].tid].status == Registered)
    ensures s'.ops[i].pc.result == Exact(s.ops[i].pc.live)
  {
    ReachedInv(s);
    assert OpOk(s, i);
    assert ObjectOk(s, s.ops[i].pc.o);
  }

  /** On any thread the answer is right exactly when a thread without a short
      id does not see a merge complete between its two loads. */
  lemma StrongCountIffNoMergeBetween(s: State, s': State, i: nat)
    requires Reached(s) && CountBiasedStep(s, s', i)
    ensures var CountBiased(o, _, w, live) := s.ops[i].pc;
      ResultOk(s'.ops[i].pc.result, live) <==>
        s.threads[s.ops[i].tid].status == Registered || w.merged || s.objs[o].bw.owner.Some?
  {
    ReachedInv(s);
    assert OpOk(s, i);
    assert ObjectOk(s, s.ops[i].pc.o);
  }

  /** It fails its internal check exactly when, moreover, the count it loaded
      first was negative. */
  lemma StrongCountFailsIff(s: State, s': State, i: nat)
    requires Reached(s) && CountBiasedStep(s, s', i)
    ensures var CountBiased(o, _, w, _) := s.ops[i].pc;
      s'.ops[i].pc.result == Negative <==>
        && s.threads[s.ops[i].tid].status != Registered
        && !w.merged && s.objs[o].bw.owner.None? && w.count < 0
  {
    ReachedInv(s);
    assert OpOk(s, i);
    assert ObjectOk(s, s.ops[i].pc.o);
  }
}
