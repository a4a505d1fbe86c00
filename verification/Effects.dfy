/** What every call and every access amounts to in a reached state: which half
    it is counted on, what the handles and queues are afterwards, and where the
    operation goes on. A call can start whenever its thread has the turn and its
    handle may be used so, and it starts in one way only. */
module Effects {
  import opened Words
  import opened Protocol
  import opened Invariant
  import opened CountSteps
  import opened Preservation

  /** Only object `o` was written. */
  ghost predicate OnlyObject(s: State, s': State, o: nat) {
    && s'.threads == s.threads
    && o in s.objs && o in s'.objs && s'.objs == s.objs[o := s'.objs[o]]
  }

  ghost predicate OnlyThread(s: State, s': State, a: nat) {
    && s'.objs == s.objs
    && a in s.threads && a in s'.threads && s'.threads == s.threads[a := s'.threads[a]]
  }

  /** Thread `t` is in its new operation `i`, and nothing else has happened. */
  ghost predicate Started(s: State, s': State, t: nat, i: nat, pc: Pc) {
    s'.ops == s.ops[i := Op(t, pc)] && s'.busy == s.busy[t := i]
  }

  /** Operation `i` goes on at `pc`. */
  ghost predicate GoesOn(s: State, s': State, i: nat, pc: Pc) {
    i in s.ops && s'.ops == s.ops[i := Op(s.ops[i].tid, pc)]
  }

  ghost predicate Returns(s: State, s': State, i: nat) {
    i in s.ops && s'.ops == s.ops - {i} && s.ops[i].tid !in s'.busy
  }

  /** The thread is not in straight-line code. */
  ghost predicate HasTurn(s: State, t: nat) {
    t in s.threads && t !in s.busy
  }

  /** The handle exists, and no operation holds it. */
  ghost predicate IsFree(s: State, o: nat, h: nat) {
    o in s.objs && h in s.objs[o].strong && h !in s.objs[o].claims
  }

  /** Nothing in flight keeps a handle from being moved but the calls that read through it. */
  ghost predicate IsUnborrowed(s: State, o: nat, h: nat) {
    && IsFree(s, o, h)
    && forall j | j in s.ops ::
         var pc := s.ops[j].pc;
         && pc != CloneShared(o, h)
         && !((pc.IncStore? || pc.CountBiased? || pc.Counted?) && pc.o == o && pc.via == ByStrong(h))
         && !((pc.LockWeak? || pc.UniqueShared? || pc.UniqueBiased? || pc.UnlockWeak?)
              && !pc.exclusive && pc.o == o && pc.h == h)
  }

  // ----- threads and objects come to be -----

  lemma InitStarts(s: State, t: nat, exhausted: bool) returns (s': State)
    requires HasTurn(s, t) && s.threads[t].status == Fresh
    ensures InitThread(s, s', t, exhausted) && Next(s, s', StepInit(t, exhausted))
    ensures forall r | InitThread(s, r, t, exhausted) :: r == s'
    ensures OnlyThread(s, s', t) && s'.ops == s.ops && s'.busy == s.busy
    ensures if exhausted then Me(s', t) == None
            else Me(s', t) == Some(t) && s'.threads[t].flag == Live
                 && s'.threads[t].queue == [] && s'.threads[t].arc == {Home}
  {
    s' := PutThread(s, t,
            if exhausted then s.threads[t].(status := Unregistrable)
            else Thread(Registered, Live, {Home}, [], None, None));
  }

  /** A registered thread owns what it creates; a thread without an id creates merged objects. */
  lemma CreateStarts(s: State, t: nat, o: nat) returns (s': State)
    requires HasTurn(s, t) && o !in s.objs && s.threads[t].status != Fresh
    ensures Create(s, s', t, o) && Next(s, s', StepCreate(t, o)) && forall r | Create(s, r, t, o) :: r == s'
    ensures s'.threads == s.threads && s'.ops == s.ops && o in s'.objs && s'.objs == s.objs[o := s'.objs[o]]
    ensures var x := s'.objs[o];
      && |x.strong| == 1 && x.weaks == {} && x.weak == 1 && x.claims == map[] && x.life == Alive
      && (if s.threads[t].status == Registered
          then x.bw == BiasedWord(Some(t), 1) && x.sw == SharedWord(0, false, false)
          else x.bw == BiasedWord(None, 0) && x.sw == SharedWord(1, true, false))
  {
    s' := Put(s, o, NewObj(Me(s, t)));
  }

  lemma DeathStarts(s: State, t: nat, i: nat) returns (s': State)
    requires HasTurn(s, t) && i !in s.ops && s.threads[t].status == Registered
    requires forall j | j in s.ops :: s.ops[j].tid != t
    ensures DeathBegin(s, s', t, i) && Next(s, s', StepDeath(t, i)) && forall r | DeathBegin(s, r, t, i) :: r == s'
    ensures OnlyThread(s, s', t) && Me(s', t) == None && Started(s, s', t, i, DeathSwap(t))
    ensures s'.threads[t].queue == s.threads[t].queue && s'.threads[t].arc == s.threads[t].arc
  {
    s' := Begin(PutThread(s, t, s.threads[t].(status := Departed, death := Some(i))), t, i, DeathSwap(t));
  }

  // ----- clone and upgrade -----

  /** The owner's half is used by the owner while there is room in it, and by nobody else. */
  ghost predicate UsesOwnHalf(s: State, t: nat, o: nat) {
    Owns(s, t, o) && s.objs[o].bw.count < BIASED_MAX
  }

  lemma OwnHalf(s: State, t: nat, o: nat)
    requires Reached(s) && HasTurn(s, t) && o in s.objs
    ensures MayStore(s, t, o) <==> UsesOwnHalf(s, t, o)
  {
    ReachedInv(s);
    assert ObjectOk(s, o);
    if MayStore(s, t, o) { IdleOwner(s, t, o); }
  }

  lemma CloneStarts(s: State, t: nat, i: nat, o: nat, h: nat) returns (s': State)
    requires Reached(s) && HasTurn(s, t) && i !in s.ops && IsFree(s, o, h)
    ensures CloneBegin(s, s', t, i, o, h) && Next(s, s', StepClone(t, i, o, h)) && forall r | CloneBegin(s, r, t, i, o, h) :: r == s'
    ensures s'.objs == s.objs && s'.threads == s.threads
    ensures Started(s, s', t, i, if UsesOwnHalf(s, t, o) then IncStore(o, ByStrong(h), s.objs[o].bw.count)
                                 else CloneShared(o, h))
  {
    OwnHalf(s, t, o);
    s' := Begin(s, t, i, if UsesOwnHalf(s, t, o) then IncStore(o, ByStrong(h), s.objs[o].bw.count)
                         else CloneShared(o, h));
  }

  lemma UpgradeStarts(s: State, t: nat, i: nat, o: nat, h: nat) returns (s': State)
    requires Reached(s) && HasTurn(s, t) && i !in s.ops && o in s.objs && h in s.objs[o].weaks
    ensures UpgradeBegin(s, s', t, i, o, h) && Next(s, s', StepUpgrade(t, i, o, h)) && forall r | UpgradeBegin(s, r, t, i, o, h) :: r == s'
    ensures s'.objs == s.objs && s'.threads == s.threads
    ensures Started(s, s', t, i, if UsesOwnHalf(s, t, o) then IncStore(o, ByWeak(h), s.objs[o].bw.count)
                                 else UpgradeShared(o, h))
  {
    OwnHalf(s, t, o);
    s' := Begin(s, t, i, if UsesOwnHalf(s, t, o) then IncStore(o, ByWeak(h), s.objs[o].bw.count)
                         else UpgradeShared(o, h));
  }

  /** The owner's increment: its half counts the new handle, and the call returns. */
  lemma IncStoreCounts(s: State, s': State, i: nat, h': nat)
    requires Reached(s) && IncStoreStep(s, s', i, h')
    ensures var o := s.ops[i].pc.o;
      && OnlyObject(s, s', o) && Returns(s, s', i)
      && h' !in s.objs[o].strong && s'.objs[o].strong == s.objs[o].strong + {h'}
      && s'.objs[o].bw == BiasedWord(s.objs[o].bw.owner, s.objs[o].bw.count + 1)
      && s'.objs[o].sw == s.objs[o].sw && s'.objs[o].weaks == s.objs[o].weaks
  {
    ReachedInv(s);
    assert OpOk(s, i);
    assert ObjectOk(s, s.ops[i].pc.o);
  }

  /** A polite shared clone: the shared half counts the new handle. */
  lemma CloneSharedCounts(s: State, s': State, i: nat, h': nat)
    requires Reached(s) && CloneSharedStep(s, s', i, h') && s.objs[s.ops[i].pc.o].sw.count != -1
    ensures var o := s.ops[i].pc.o;
      && OnlyObject(s, s', o) && Returns(s, s', i)
      && h' !in s.objs[o].strong && s'.objs[o].strong == s.objs[o].strong + {h'}
      && s'.objs[o].sw == SharedWord(s.objs[o].sw.count + 1, s.objs[o].sw.merged, s.objs[o].sw.queued)
      && s'.objs[o].bw == s.objs[o].bw && s'.objs[o].weaks == s.objs[o].weaks
  {
    ReachedInv(s);
    assert OpOk(s, i);
    assert ObjectOk(s, s.ops[i].pc.o);
  }

  /** `clone_shared` can be called whenever the count is not over the threshold. */
  lemma CloneDirectStarts(s: State, t: nat, o: nat, h: nat, h': nat) returns (s': State)
    requires Reached(s) && HasTurn(s, t) && IsFree(s, o, h) && h' !in s.objs[o].strong
    requires s.objs[o].sw.count <= OVERFLOW_THRESHOLD && s.objs[o].sw.count != -1
    ensures CloneDirect(s, s', t, o, h, h') && Next(s, s', StepCloneDirect(t, o, h, h')) && forall r | CloneDirect(s, r, t, o, h, h') :: r == s'
    ensures OnlyObject(s, s', o) && s'.ops == s.ops
    ensures s'.objs[o].strong == s.objs[o].strong + {h'}
    ensures s'.objs[o].sw == SharedWord(s.objs[o].sw.count + 1, s.objs[o].sw.merged, s.objs[o].sw.queued)
    ensures s'.objs[o].bw == s.objs[o].bw
  {
    ReachedInv(s);
    assert ObjectOk(s, o);
    s' := Put(s, o, SharedIncrement(s.objs[o], h'));
  }

  // ----- drop -----

  /** The owner drops on its own half, and merges with its last reference;
      everybody else drops on the shared half. */
  lemma DropStarts(s: State, t: nat, i: nat, o: nat, h: nat) returns (s': State)
    requires Reached(s) && HasTurn(s, t) && i !in s.ops && IsUnborrowed(s, o, h)
    ensures DropBegin(s, s', t, i, o, h) && Next(s, s', StepDrop(t, i, o, h)) && forall r | DropBegin(s, r, t, i, o, h) :: r == s'
    ensures OnlyObject(s, s', o) && s'.objs[o] == s.objs[o].(claims := s.objs[o].claims[h := i])
    ensures Started(s, s', t, i,
              if !Owns(s, t, o) then DropShared(o, h)
              else if s.objs[o].bw.count == 1 then DropMerge(o, h)
              else DropStore(o, h, s.objs[o].bw.count))
  {
    ReachedInv(s);
    assert ObjectOk(s, o);
    var x := s.objs[o];
    if x.bw.owner.Some? && x.bw.owner == Me(s, t) { IdleOwner(s, t, o); }
    s' := Begin(Put(s, o, x.(claims := x.claims[h := i])), t, i,
            if !Owns(s, t, o) then DropShared(o, h)
            else if x.bw.count == 1 then DropMerge(o, h)
            else DropStore(o, h, x.bw.count));
  }

  lemma DropStoreCounts(s: State, s': State, i: nat)
    requires Reached(s) && DropStoreStep(s, s', i)
    ensures var DropStore(o, h, _) := s.ops[i].pc;
      && OnlyObject(s, s', o) && Returns(s, s', i)
      && h in s.objs[o].strong && s'.objs[o].strong == s.objs[o].strong - {h}
      && s'.objs[o].bw.owner == s.objs[o].bw.owner && s'.objs[o].bw.count == s.objs[o].bw.count - 1
      && s'.objs[o].sw == s.objs[o].sw && s'.objs[o].life == s.objs[o].life
  {
    ReachedInv(s);
    assert OpOk(s, i);
    assert ObjectOk(s, s.ops[i].pc.o);
  }

  /** The implicit merge condemns the value exactly if no handle is left. */
  lemma DropMergeCounts(s: State, s': State, i: nat)
    requires Reached(s) && DropMergeStep(s, s', i) && !s.objs[s.ops[i].pc.o].sw.queued
    ensures var DropMerge(o, h) := s.ops[i].pc;
      && OnlyObject(s, s', o)
      && h in s.objs[o].strong && s'.objs[o].strong == s.objs[o].strong - {h}
      && s'.objs[o].sw == SharedWord(s.objs[o].sw.count, true, false)
      && GoesOn(s, s', i, StoreUnowned(o, if s'.objs[o].strong == {} then Condemn else Keep))
  {
    ReachedInv(s);
    var DropMerge(o, h) := s.ops[i].pc;
    assert OpOk(s, i);
    assert ObjectOk(s, o);
    assert h in s.objs[o].strong;
    Without(s.objs[o].strong, h);
    Empty(s.objs[o].strong - {h});
  }

  lemma Empty(s: set<nat>)
    ensures |s| == 0 <==> s == {}
  {
  }

  lemma DropSharedCounts(s: State, s': State, i: nat)
    requires Reached(s) && DropSharedStep(s, s', i)
    ensures var DropShared(o, h) := s.ops[i].pc;
      && OnlyObject(s, s', o)
      && h in s.objs[o].strong && s'.objs[o].strong == s.objs[o].strong - {h}
      && s'.objs[o].bw == s.objs[o].bw
      && s'.objs[o].sw.count == s.objs[o].sw.count - 1 && s'.objs[o].sw.merged == s.objs[o].sw.merged
      && (s'.objs[o].sw.queued <==> s.objs[o].sw.queued || s'.objs[o].sw.count < 0)
  {
    ReachedInv(s);
    assert OpOk(s, i);
    assert ObjectOk(s, s.ops[i].pc.o);
  }

  /** The shared drop asks the owner to merge when the shared half first owes a
      reference, condemns the value when the last handle of a merged object goes,
      and returns otherwise. */
  lemma DropSharedDecides(s: State, s': State, i: nat)
    requires Reached(s) && DropSharedStep(s, s', i)
    ensures var DropShared(o, h) := s.ops[i].pc;
      && o in s.objs && o in s'.objs
      && if !s.objs[o].sw.merged then
           if s.objs[o].phase == Unqueued && s.objs[o].sw.count == 0
           then GoesOn(s, s', i, LoadOwner(o)) && s'.objs[o].phase == Carried(i)
           else Returns(s, s', i) && s'.objs[o].phase == s.objs[o].phase
         else if s.objs[o].strong == {h} then GoesOn(s, s', i, StartDestroy(o))
         else Returns(s, s', i)
  {
    ReachedInv(s);
    var DropShared(o, h) := s.ops[i].pc;
    assert OpOk(s, i);
    assert ObjectOk(s, o);
    assert h in s.objs[o].strong;
    OnlyOne(s.objs[o].strong, h);
  }

  lemma OnlyOne(s: set<nat>, h: nat)
    requires h in s
    ensures |s| == 1 <==> s == {h}
  {
    Without(s, h);
    Empty(s - {h});
  }

  lemma StoreUnownedEnds(s: State, s': State, i: nat)
    requires Reached(s) && StoreUnownedStep(s, s', i)
    ensures var StoreUnowned(o, verdict) := s.ops[i].pc;
      && OnlyObject(s, s', o) && s'.objs[o].bw == BiasedWord(None, 0) && s'.objs[o].strong == s.objs[o].strong
      && (if s.objs[o].life == Doomed(i) then GoesOn(s, s', i, StartDestroy(o)) else Returns(s, s', i))
  {
    ReachedInv(s);
    assert OpOk(s, i);
    assert ObjectOk(s, s.ops[i].pc.o);
  }

  // ----- handing an object to its owner, and merging it -----

  /** The owner is found, and its queue exactly while somebody still holds it. */
  lemma OwnerFound(s: State, s': State, i: nat)
    requires Reached(s) && LoadOwnerStep(s, s', i)
    ensures var o := s.ops[i].pc.o;
      && o in s.objs && s.objs[o].creator.Some?
      && s'.objs == s.objs && s'.threads == s.threads
      && GoesOn(s, s', i, UpgradeQueue(o, s.objs[o].creator.value))
  {
    ReachedInv(s);
    assert OpOk(s, i);
    assert ObjectOk(s, s.ops[i].pc.o);
  }

  lemma QueueFound(s: State, s': State, i: nat)
    requires Reached(s) && UpgradeQueueStep(s, s', i)
    ensures var UpgradeQueue(o, a) := s.ops[i].pc;
      && OnlyThread(s, s', a) && s'.threads[a].queue == s.threads[a].queue && s'.threads[a].flag == s.threads[a].flag
      && if s.threads[a].arc != {}
         then GoesOn(s, s', i, Push(o, a)) && s'.threads[a].arc == s.threads[a].arc + {HeldBy(i)}
         else GoesOn(s, s', i, CheckDead(o, a)) && IsGone(s, a) && s'.threads[a].arc == {}
  {
    ReachedInv(s);
    var UpgradeQueue(o, a) := s.ops[i].pc;
    assert OpOk(s, i);
    assert ObjectOk(s, o);
    assert ThreadOk(s, a);
  }

  /** The push appends, the flag goes up if the owner is live, and the reference is given back. */
  lemma Pushed(s: State, s': State, i: nat)
    requires Reached(s) && PushStep(s, s', i)
    ensures var Push(o, a) := s.ops[i].pc;
      && a in s.threads && a in s'.threads && s'.threads == s.threads[a := s'.threads[a]]
      && s'.threads[a] == s.threads[a].(queue := s.threads[a].queue + [o])
      && o in s.objs && s'.objs == s.objs[o := s.objs[o].(phase := Waiting)]
      && GoesOn(s, s', i, RaiseFlag(a))
  {
    ReachedInv(s);
    assert OpOk(s, i);
  }

  lemma FlagRaised(s: State, s': State, i: nat)
    requires Reached(s) && RaiseFlagStep(s, s', i)
    ensures var a := s.ops[i].pc.a;
      && OnlyThread(s, s', a) && s'.threads[a].queue == s.threads[a].queue && s'.threads[a].arc == s.threads[a].arc
      && (IsLive(s.threads[a].flag) ==> s'.threads[a].flag == QueuedObjects)
      && (!IsLive(s.threads[a].flag) ==> s'.threads[a].flag == s.threads[a].flag)
      && GoesOn(s, s', i, DropArc(a))
  {
  }

  lemma ReferenceDropped(s: State, s': State, i: nat)
    requires Reached(s) && DropArcStep(s, s', i)
    ensures var a := s.ops[i].pc.a;
      && OnlyThread(s, s', a) && HeldBy(i) in s.threads[a].arc
      && s'.threads[a].queue == s.threads[a].queue && s'.threads[a].flag == s.threads[a].flag
      && s'.threads[a].arc == s.threads[a].arc - {HeldBy(i)}
      && if s.threads[a].arc == {HeldBy(i)} then GoesOn(s, s', i, Drain(a, false)) else Returns(s, s', i)
  {
    ReachedInv(s);
    assert OpOk(s, i);
  }

  /** A gone owner's object is merged by whoever found that out; every merge reads the biased count. */
  lemma MergedAtOnce(s: State, s': State, i: nat)
    requires Reached(s) && CheckDeadStep(s, s', i)
    ensures var CheckDead(o, a) := s.ops[i].pc;
      s'.objs == s.objs && s'.threads == s.threads && GoesOn(s, s', i, MergeLoad(o, a))
  {
    ReachedInv(s);
    var CheckDead(o, a) := s.ops[i].pc;
    assert OpOk(s, i);
    assert ThreadOk(s, a);
  }

  lemma MergeReads(s: State, s': State, i: nat)
    requires Reached(s) && MergeLoadStep(s, s', i)
    ensures var MergeLoad(o, a) := s.ops[i].pc;
      && o in s.objs && s'.objs == s.objs && s'.threads == s.threads
      && GoesOn(s, s', i, MergeCas(o, a, s.objs[o].bw.count))
  {
    ReachedInv(s);
    assert OpOk(s, i);
    assert ObjectOk(s, s.ops[i].pc.o);
  }

  /** The explicit merge condemns the value exactly if no handle is left. */
  lemma MergeCounts(s: State, s': State, i: nat)
    requires Reached(s) && MergeCasStep(s, s', i)
    ensures var o := s.ops[i].pc.o;
      && OnlyObject(s, s', o) && s'.objs[o].strong == s.objs[o].strong
      && s'.objs[o].sw == SharedWord(|s.objs[o].strong|, true, s.objs[o].sw.queued)
      && s'.objs[o].phase == Settled
      && GoesOn(s, s', i, StoreUnowned(o, if s.objs[o].strong == {} then Condemn else Keep))
  {
    ReachedInv(s);
    var o := s.ops[i].pc.o;
    assert OpOk(s, i);
    assert ObjectOk(s, o);
    Empty(s.objs[o].strong);
  }

  // ----- destruction and weak references -----

  lemma DestroyStarts(s: State, s': State, i: nat)
    requires Reached(s) && StartDestroyStep(s, s', i)
    ensures var o := s.ops[i].pc.o;
      && OnlyObject(s, s', o) && s.objs[o].destroys == 0 && s'.objs[o].destroys == 1
      && s'.objs[o].weak == s.objs[o].weak && GoesOn(s, s', i, RunDestructor(o))
  {
    ReachedInv(s);
    assert OpOk(s, i);
    assert ObjectOk(s, s.ops[i].pc.o);
  }

  /** After the destructor the memory goes exactly if there is no `Weak`. */
  lemma StrongSideReleased(s: State, s': State, i: nat)
    requires Reached(s) && ReleaseStep(s, s', i)
    ensures var o := s.ops[i].pc.o;
      && OnlyObject(s, s', o) && s'.objs[o].weaks == s.objs[o].weaks && s'.objs[o].weak == |s.objs[o].weaks|
      && if s.objs[o].weaks == {} then GoesOn(s, s', i, Free(o)) else Returns(s, s', i)
  {
    ReachedInv(s);
    var o := s.ops[i].pc.o;
    assert OpOk(s, i);
    assert ObjectOk(s, o);
    Empty(s.objs[o].weaks);
  }

  lemma Freed(s: State, s': State, i: nat)
    requires Reached(s) && FreeStep(s, s', i)
    ensures var o := s.ops[i].pc.o;
      OnlyObject(s, s', o) && s.objs[o].frees == 0 && s'.objs[o].frees == 1 && Returns(s, s', i)
  {
    ReachedInv(s);
    assert OpOk(s, i);
    assert ObjectOk(s, s.ops[i].pc.o);
  }

  /** A downgrade goes through exactly while nobody has the weak lock and the
      references are not too many; a weak clone needs only the latter. */
  lemma DowngradeGoesThroughIff(s: State, t: nat, o: nat, h: nat, w': nat)
    requires Reached(s) && HasTurn(s, t) && IsFree(s, o, h) && w' !in s.objs[o].weaks
    ensures (exists s' :: Next(s, s', StepDowngrade(t, o, h, w'))) <==>
              s.objs[o].locker == None && |s.objs[o].weaks| < WEAK_OVERFLOW_THRESHOLD
    ensures forall s' | Next(s, s', StepDowngrade(t, o, h, w')) ::
              && OnlyObject(s, s', o) && s'.ops == s.ops && s'.objs[o].weaks == s.objs[o].weaks + {w'}
              && s'.objs[o].weak == s.objs[o].weak + 1 && s'.objs[o].strong == s.objs[o].strong
  {
    ReachedInv(s);
    assert ObjectOk(s, o);
    var x := s.objs[o];
    assert Next(s, Put(s, o, x.(weak := x.weak + 1, weaks := x.weaks + {w'})), StepDowngrade(t, o, h, w'))
           <==> x.weak <= WEAK_OVERFLOW_THRESHOLD;
  }

  lemma WeakCloneGoesThroughIff(s: State, t: nat, o: nat, w: nat, w': nat)
    requires Reached(s) && HasTurn(s, t) && o in s.objs && w in s.objs[o].weaks && w' !in s.objs[o].weaks
    ensures (exists s' :: Next(s, s', StepWeakClone(t, o, w, w'))) <==>
              |s.objs[o].weaks| + (if s.objs[o].life == Released then 0 else 1) <= WEAK_OVERFLOW_THRESHOLD
    ensures forall s' | Next(s, s', StepWeakClone(t, o, w, w')) ::
              && OnlyObject(s, s', o) && s'.ops == s.ops && s'.objs[o].weaks == s.objs[o].weaks + {w'}
              && s'.objs[o].weak == s.objs[o].weak + 1 && s'.objs[o].strong == s.objs[o].strong
  {
    ReachedInv(s);
    assert ObjectOk(s, o);
    var x := s.objs[o];
    assert Next(s, Put(s, o, x.(weak := x.weak + 1, weaks := x.weaks + {w'})), StepWeakClone(t, o, w, w'))
           <==> x.weak <= WEAK_OVERFLOW_THRESHOLD;
  }

  /** A `Weak` nobody reads through can always be dropped, and the last reference frees. */
  lemma WeakDropStarts(s: State, t: nat, i: nat, o: nat, w: nat) returns (s': State)
    requires Reached(s) && HasTurn(s, t) && i !in s.ops && o in s.objs && w in s.objs[o].weaks
    requires forall j | j in s.ops ::
               var pc := s.ops[j].pc;
               && pc != UpgradeShared(o, w)
               && !((pc.IncStore? || pc.CountBiased? || pc.Counted?) && pc.o == o && pc.via == ByWeak(w))
    ensures WeakDrop(s, s', t, i, o, w) && Next(s, s', StepWeakDrop(t, i, o, w)) && forall r | WeakDrop(s, r, t, i, o, w) :: r == s'
    ensures OnlyObject(s, s', o) && s'.objs[o].weaks == s.objs[o].weaks - {w}
    ensures s'.objs[o].weak == |s'.objs[o].weaks| + (if s.objs[o].life == Released then 0 else 1)
    ensures if s.objs[o].life == Released && s.objs[o].weaks == {w} then Started(s, s', t, i, Free(o))
            else s'.ops == s.ops
  {
    ReachedInv(s);
    assert ObjectOk(s, o);
    OnlyOne(s.objs[o].weaks, w);
    Without(s.objs[o].weaks, w);
    var x := s.objs[o].(weak := s.objs[o].weak - 1, weaks := s.objs[o].weaks - {w});
    s' := if x.weak == 0 then Begin(Put(s, o, x.(freer := Some(i))), t, i, Free(o)) else Put(s, o, x);
  }

  // ----- is_unique and strong_count -----

  lemma UniqueStarts(s: State, t: nat, i: nat, o: nat, h: nat, exclusive: bool) returns (s': State)
    requires Reached(s) && HasTurn(s, t) && i !in s.ops
    requires if exclusive then IsUnborrowed(s, o, h) else IsFree(s, o, h)
    ensures UniqueBegin(s, s', t, i, o, h, exclusive) && Next(s, s', StepUnique(t, i, o, h, exclusive)) && forall r | UniqueBegin(s, r, t, i, o, h, exclusive) :: r == s'
  {
    var x := s.objs[o];
    s' := if x.bw.owner.Some? && x.bw.owner != Me(s, t) then s
          else Begin(if exclusive then Put(s, o, x.(claims := x.claims[h := i])) else s,
                     t, i, LockWeak(o, h, exclusive));
  }

  lemma CountStarts(s: State, t: nat, i: nat, o: nat, via: Via) returns (s': State)
    requires HasTurn(s, t) && i !in s.ops && o in s.objs
    requires match via case ByStrong(h) => IsFree(s, o, h) case ByWeak(w) => w in s.objs[o].weaks
    ensures CountBegin(s, s', t, i, o, via) && Next(s, s', StepCount(t, i, o, via)) && forall r | CountBegin(s, r, t, i, o, via) :: r == s'
    ensures s'.objs == s.objs && s'.threads == s.threads
    ensures Started(s, s', t, i, CountBiased(o, via, s.objs[o].sw, |s.objs[o].strong|))
  {
    s' := Begin(s, t, i, CountBiased(o, via, s.objs[o].sw, |s.objs[o].strong|));
  }

  // ----- collecting -----

  lemma CollectStarts(s: State, t: nat, i: nat) returns (s': State)
    requires Reached(s) && HasTurn(s, t) && i !in s.ops && s.threads[t].status == Registered
    ensures CollectBegin(s, s', t, i) && Next(s, s', StepCollect(t, i)) && forall r | CollectBegin(s, r, t, i) :: r == s'
    ensures s'.objs == s.objs && s'.threads == s.threads && Started(s, s', t, i, CollectUpgrade(t))
  {
    ReachedInv(s);
    assert ThreadOk(s, t);
    s' := Begin(s, t, i, CollectUpgrade(t));
  }

  /** A registered thread finds its queue. */
  lemma CollectEnters(s: State, s': State, i: nat)
    requires Reached(s) && CollectUpgradeStep(s, s', i)
    ensures var a := s.ops[i].pc.a;
      && OnlyThread(s, s', a) && s'.threads[a] == s.threads[a].(arc := s.threads[a].arc + {HeldBy(i)})
      && GoesOn(s, s', i, CollectPop(a))
  {
    ReachedInv(s);
    assert OpOk(s, i);
    assert ThreadOk(s, s.ops[i].pc.a);
  }

  /** The first object of the queue, if there is one, goes to a merge on this thread. */
  ghost predicate PopsFirst(s: State, s': State, i: nat, a: nat, k: nat) {
    && a in s.threads && a in s'.threads && s.threads[a].queue != []
    && [s.threads[a].queue[0]] + s'.threads[a].queue == s.threads[a].queue
    && s'.threads == s.threads[a := s.threads[a].(queue := s'.threads[a].queue)]
    && i in s.ops && k !in s.ops
    && s'.ops == s.ops[k := Op(s.ops[i].tid, MergeLoad(s.threads[a].queue[0], a))]
  }

  lemma CollectPops(s: State, s': State, i: nat, k: nat)
    requires Reached(s) && CollectPopStep(s, s', i, k)
    ensures var a := s.ops[i].pc.a;
      && a in s.threads
      && if s.threads[a].queue != [] then PopsFirst(s, s', i, a, k)
         else s'.threads == s.threads && GoesOn(s, s', i, CollectReset(a))
  {
  }

  lemma DrainPops(s: State, s': State, i: nat, k: nat)
    requires Reached(s) && DrainStep(s, s', i, k)
    ensures var Drain(a, dying) := s.ops[i].pc;
      && a in s.threads
      && if s.threads[a].queue != [] then PopsFirst(s, s', i, a, k)
         else
           && OnlyThread(s, s', a) && s'.threads[a] == s.threads[a].(drainer := None)
           && if dying then GoesOn(s, s', i, DeathDead(a)) else Returns(s, s', i)
  {
  }

  /** The reset lowers the flag of a live owner, and the loop ends exactly on an empty queue. */
  lemma FlagLowered(s: State, s': State, i: nat)
    requires Reached(s) && CollectResetStep(s, s', i)
    ensures var a := s.ops[i].pc.a;
      && OnlyThread(s, s', a) && s'.threads[a] == s.threads[a].(flag := Live)
      && GoesOn(s, s', i, CollectCheck(a))
  {
    ReachedInv(s);
    assert OpOk(s, i);
    assert ThreadOk(s, s.ops[i].pc.a);
  }

  lemma QueueChecked(s: State, s': State, i: nat)
    requires Reached(s) && CollectCheckStep(s, s', i)
    ensures var a := s.ops[i].pc.a;
      && a in s.threads && s'.objs == s.objs && s'.threads == s.threads
      && GoesOn(s, s', i, if s.threads[a].queue == [] then DropArc(a) else CollectPop(a))
  {
  }

  // ----- a thread's end -----

  lemma DyingFlagSet(s: State, s': State, i: nat)
    requires Reached(s) && DeathSwapStep(s, s', i)
    ensures var a := s.ops[i].pc.a;
      && OnlyThread(s, s', a) && s'.threads[a] == s.threads[a].(flag := Dying) && GoesOn(s, s', i, DeathArc(a))
  {
    ReachedInv(s);
    assert OpOk(s, i);
  }

  /** The thread runs its queue's destructor exactly if nobody else holds the queue. */
  lemma HomeReferenceDropped(s: State, s': State, i: nat)
    requires Reached(s) && DeathArcStep(s, s', i)
    ensures var a := s.ops[i].pc.a;
      && OnlyThread(s, s', a) && s'.threads[a].queue == s.threads[a].queue
      && s'.threads[a].arc == s.threads[a].arc - {Home}
      && GoesOn(s, s', i, if s.threads[a].arc == {Home} then Drain(a, true) else DeathDead(a))
  {
    ReachedInv(s);
    assert OpOk(s, i);
  }

  lemma DeadFlagSet(s: State, s': State, i: nat)
    requires Reached(s) && DeathDeadStep(s, s', i)
    ensures var a := s.ops[i].pc.a;
      && OnlyThread(s, s', a) && s'.threads[a].flag == Dead && s'.threads[a].queue == s.threads[a].queue
      && Returns(s, s', i)
  {
    ReachedInv(s);
    assert OpOk(s, i);
  }
}
