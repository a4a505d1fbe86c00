/** What every polite run of the protocol guarantees, over any number of
    threads, objects and interleavings. */
module Theorems {
  import opened Words
  import opened Protocol
  import opened Invariant
  import opened Frame
  import opened Preservation
  import opened Evolution

  // ----- the count -----

  /** The two words together count the live strong handles. */
  lemma CountingLaw(s: State, o: nat)
    requires Reached(s) && o in s.objs
    ensures var x := s.objs[o];
      if x.sw.merged then
        x.sw.count == |x.strong|
      else
        && x.bw.owner.Some? && x.bw.owner == x.creator && 1 <= x.bw.count <= BIASED_MAX
        && x.bw.count + x.sw.count == |x.strong|
        && (x.sw.count < 0 ==> x.sw.queued)
  {
    ReachedInv(s);
    assert ObjectOk(s, o);
  }

  /** A shared decrement never underflows, and the debug assertions on the counts hold. */
  lemma CountsInRange(s: State, i: nat, o: nat)
    requires Reached(s) && i in s.ops && o in s.objs && ObjOf(s.ops[i].pc) == Some(o)
    ensures var x := s.objs[o];
      && 0 - BIASED_MAX <= x.sw.count
      && (x.sw.merged ==> 0 <= x.sw.count)
      && (s.ops[i].pc.IncStore? || s.ops[i].pc.DropStore? ==> x.bw.count != 0)
      && (s.ops[i].pc.DropMerge? ==> !x.sw.merged && 0 <= x.sw.count)
      && (s.ops[i].pc.DropShared? ==> SHARED_MIN < x.sw.count
                                      && (x.sw.merged ==> 0 <= Decremented(x.sw).count))
  {
    ReachedInv(s);
    assert ObjectOk(s, o);
    assert OpOk(s, i);
  }

  /** The owner's plain load and store are one atomic update: the word it
      loaded is still there when it stores. */
  lemma PlainStoresAreAtomic(s: State, s': State, i: nat, f: nat)
    requires Reached(s) && CountAccess(s, s', i, f)
    requires s.ops[i].pc.IncStore? || s.ops[i].pc.DropStore?
    ensures var pc := s.ops[i].pc;
      && pc.o in s.objs && pc.o in s'.objs
      && s.objs[pc.o].bw == BiasedWord(Some(s.ops[i].tid), pc.b)
      && s'.objs[pc.o].bw.owner == s.objs[pc.o].bw.owner
      && s'.objs[pc.o].bw.count == s.objs[pc.o].bw.count + (if pc.IncStore? then 1 else -1)
      && 1 <= s'.objs[pc.o].bw.count <= BIASED_MAX
  {
    ReachedInv(s);
    assert OpOk(s, i);
    assert ObjectOk(s, s.ops[i].pc.o);
  }

  // ----- destruction -----

  /** A value is destroyed at most once, and only when no strong handle is left. */
  lemma DestroyedOnceAndDead(s: State, o: nat)
    requires Reached(s) && o in s.objs
    ensures s.objs[o].destroys <= 1
    ensures s.objs[o].destroys == 1 || s.objs[o].life != Alive ==>
              s.objs[o].strong == {} && IsExhausted(s.objs[o].sw)
  {
    ReachedInv(s);
    assert ObjectOk(s, o);
  }

  predicate Destroys(pc: Pc, o: nat) {
    pc == StartDestroy(o) || pc == RunDestructor(o) || pc == StoreUnowned(o, Condemn)
  }

  /** Of the places that compete to destroy, one operation wins, before any destructor has run. */
  lemma OneDestroyer(s: State, i: nat, j: nat, o: nat)
    requires Reached(s) && i in s.ops && j in s.ops
    requires Destroys(s.ops[i].pc, o) && Destroys(s.ops[j].pc, o)
    ensures i == j
    ensures o in s.objs
    ensures s.objs[o].destroys == (if s.ops[i].pc.RunDestructor? then 1 else 0)
  {
    ReachedInv(s);
    assert OpOk(s, i) && OpOk(s, j);
    assert ObjectOk(s, o);
  }

  /** No operation in flight, and every live owner's queue processed. */
  ghost predicate AtRest(s: State) {
    && s.ops == map[]
    && forall a | a in s.threads && s.threads[a].status == Registered :: s.threads[a].queue == []
  }

  lemma RestingQueue(s: State, a: nat)
    requires Inv(s) && s.ops == map[] && a in s.threads && s.threads[a].status == Departed
    ensures s.threads[a].arc == {} && s.threads[a].queue == [] && s.threads[a].flag == Dead
  {
    assert ThreadOk(s, a);
    forall r | r in s.threads[a].arc
      ensures false
    {
      match r
      case Home =>
      case HeldBy(_) =>
    }
  }

  /** No operation works on the object and no queue holds it. */
  ghost predicate Unattended(s: State, o: nat) {
    && (forall i | i in s.ops :: ObjOf(s.ops[i].pc) != Some(o))
    && (forall a | a in s.threads :: o !in s.threads[a].queue)
  }

  /** An unattended object without strong handles has been destroyed, and freed
      if it has no weak references either: its last reference cannot get lost. */
  lemma UnattendedIsDestroyed(s: State, o: nat)
    requires Reached(s) && o in s.objs && s.objs[o].strong == {} && Unattended(s, o)
    ensures s.objs[o].destroys == 1
    ensures s.objs[o].weak == |s.objs[o].weaks|
    ensures s.objs[o].weaks == {} ==> s.objs[o].frees == 1
  {
    ReachedInv(s);
    assert ObjectOk(s, o);
  }

  /** At rest nothing leaks. */
  lemma NoLeakAtRest(s: State, o: nat)
    requires Reached(s) && AtRest(s) && o in s.objs && s.objs[o].strong == {}
    ensures s.objs[o].destroys == 1
    ensures s.objs[o].weaks == {} ==> s.objs[o].frees == 1
  {
    ReachedInv(s);
    forall a | a in s.threads
      ensures o !in s.threads[a].queue
    {
      assert ThreadOk(s, a);
      if s.threads[a].status == Departed { RestingQueue(s, a); }
    }
    UnattendedIsDestroyed(s, o);
  }

  // ----- the queue -----

  /** A queued object is unmerged, neither destroyed nor freed, still owned by
      the queue's thread, and in one queue only, once. */
  lemma QueuedObjectIsIntact(s: State, a: nat, k: nat)
    requires Reached(s) && a in s.threads && k < |s.threads[a].queue|
    ensures var o := s.threads[a].queue[k];
      && o in s.objs
      && !s.objs[o].sw.merged && s.objs[o].destroys == 0 && s.objs[o].frees == 0
      && s.objs[o].bw.owner == Some(a)
      && (forall l | 0 <= l < |s.threads[a].queue| && l != k :: s.threads[a].queue[l] != o)
      && (forall b | b in s.threads && b != a :: o !in s.threads[b].queue)
  {
    ReachedInv(s);
    assert ThreadOk(s, a);
    var o := s.threads[a].queue[k];
    assert ObjectOk(s, o);
    forall b | b in s.threads && b != a
      ensures o !in s.threads[b].queue
    {
      assert ThreadOk(s, b);
    }
  }

  /** The same for an object on its way to the queue or to the merge; only one
      operation carries it, and it is in no queue. */
  lemma CarriedObjectIsIntact(s: State, i: nat, j: nat, o: nat)
    requires Reached(s) && i in s.ops && j in s.ops
    requires Carries(s.ops[i].pc, o) && Carries(s.ops[j].pc, o)
    ensures i == j
    ensures o in s.objs
    ensures !s.objs[o].sw.merged && s.objs[o].destroys == 0 && s.objs[o].frees == 0
    ensures s.objs[o].bw.owner.Some? && s.objs[o].bw.owner == s.objs[o].creator
    ensures forall a | a in s.threads :: o !in s.threads[a].queue
  {
    ReachedInv(s);
    CarriesPhase(s, i, o);
    CarriesPhase(s, j, o);
    assert ObjectOk(s, o);
    forall a | a in s.threads
      ensures o !in s.threads[a].queue
    {
      assert ThreadOk(s, a);
    }
  }

  lemma CarriesPhase(s: State, i: nat, o: nat)
    requires Inv(s) && i in s.ops && Carries(s.ops[i].pc, o)
    ensures o in s.objs && s.objs[o].phase == Carried(i)
  {
    assert OpOk(s, i);
  }

  /** An object asks to be queued at most once in its life. */
  lemma QueuedAtMostOnce(s: State, s': State, i: nat, o: nat)
    requires Reached(s) && o in s.objs && s.objs[o].phase != Unqueued
    requires Leads(s, s') && i in s'.ops && s'.ops[i].pc.DropShared? && s'.ops[i].pc.o == o
    ensures o in s'.objs && s'.objs[o].phase != Unqueued
    ensures s'.objs[o].sw.queued == Decremented(s'.objs[o].sw).queued
  {
    LeadsEvolves(s, s');
    LeadsReached(s, s');
    ReachedInv(s');
    assert OpOk(s', i);
    assert ObjectOk(s', o);
  }

  // ----- merging -----

  /** `explicit_merge` for owner `a` runs on `a` itself or after `a` has
      departed; the biased word it read stays until its compare-exchange, and
      the merged count is the number of live handles. */
  lemma MergeIsStable(s: State, s': State, i: nat)
    requires Reached(s) && MergeCasStep(s, s', i)
    ensures var MergeCas(o, a, b) := s.ops[i].pc;
      && MayMerge(s, s.ops[i].tid, a)
      && o in s.objs && !s.objs[o].sw.merged && s.objs[o].bw == BiasedWord(Some(a), b)
      && o in s'.objs && s'.objs[o].sw.merged && s'.objs[o].sw.count == |s'.objs[o].strong|
      && s'.objs[o].strong == s.objs[o].strong
  {
    ReachedInv(s);
    assert OpOk(s, i);
    assert ObjectOk(s, s.ops[i].pc.o);
  }

  /** The operation has failed an internal check. */
  predicate FailsCheck(pc: Pc) {
    pc.Panicked? || (pc.Counted? && pc.result == Negative)
  }

  /** No internal check ever fails on a thread with a short id: the bad-id check
      and the merged check of `explicit_merge`, its negative count, a queued
      object without an owner, a live thread without a queue, the flag checks of
      thread exit, and the sum in `strong_count`. On a thread without one only
      that sum can go wrong, and only when called as `strong_count`. */
  lemma NoInternalError(s: State, i: nat)
    requires Reached(s) && i in s.ops
    ensures s.ops[i].tid in s.threads
    ensures FailsCheck(s.ops[i].pc) ==>
              s.ops[i].pc.Counted? && s.threads[s.ops[i].tid].status != Registered
  {
    ReachedInv(s);
    assert OpOk(s, i);
  }

  /** So if every thread that calls `strong_count` is registered, none fails anywhere. */
  lemma RegisteredCallersNeverFail(s: State)
    requires Reached(s)
    requires forall i | i in s.ops && s.ops[i].pc.Counted? && s.ops[i].tid in s.threads ::
               s.threads[s.ops[i].tid].status == Registered
    ensures forall i | i in s.ops :: !FailsCheck(s.ops[i].pc)
  {
    forall i | i in s.ops
      ensures !FailsCheck(s.ops[i].pc)
    {
      NoInternalError(s, i);
    }
  }

  // ----- thread death -----

  /** Once the last reference to a dead owner's queue is gone it stays gone:
      nobody is pushing, nobody pushes later, and the queue only shrinks. */
  lemma ClosedQueueOnlyShrinks(s: State, s': State, a: nat)
    requires Reached(s) && Leads(s, s')
    requires a in s.threads && s.threads[a].status == Departed && s.threads[a].arc == {}
    ensures a in s'.threads && s'.threads[a].status == Departed && s'.threads[a].arc == {}
    ensures IsSuffix(s'.threads[a].queue, s.threads[a].queue)
    ensures forall i | i in s'.ops :: !(s'.ops[i].pc.Push? && s'.ops[i].pc.a == a)
  {
    LeadsEvolves(s, s');
    LeadsReached(s, s');
    ReachedInv(s');
    forall i | i in s'.ops
      ensures !(s'.ops[i].pc.Push? && s'.ops[i].pc.a == a)
    {
      assert OpOk(s', i);
    }
  }

  /** Whoever dropped the last reference empties the queue: at most one
      operation runs its destructor, and when none does the queue is empty. */
  lemma ClosedQueueIsDrained(s: State, a: nat)
    requires Reached(s) && a in s.threads
    requires s.threads[a].status == Departed && s.threads[a].arc == {}
    ensures forall i, j | i in s.ops && j in s.ops
              && s.ops[i].pc.Drain? && s.ops[i].pc.a == a
              && s.ops[j].pc.Drain? && s.ops[j].pc.a == a :: i == j
    ensures s.threads[a].queue != [] ==>
              exists i :: i in s.ops && s.ops[i].pc.Drain? && s.ops[i].pc.a == a
  {
    ReachedInv(s);
    assert ThreadOk(s, a);
    forall i, j | i in s.ops && j in s.ops
        && s.ops[i].pc.Drain? && s.ops[i].pc.a == a
        && s.ops[j].pc.Drain? && s.ops[j].pc.a == a
      ensures i == j
    {
      assert OpOk(s, i) && OpOk(s, j);
    }
  }

  /** When a dead owner has nothing in flight, every object ever queued for it has been merged. */
  lemma DeadOwnerLeavesNothing(s: State, a: nat, o: nat)
    requires Reached(s) && s.ops == map[]
    requires a in s.threads && s.threads[a].status == Departed
    requires o in s.objs && s.objs[o].creator == Some(a)
    ensures s.threads[a].flag == Dead && s.threads[a].queue == []
    ensures s.objs[o].phase == Unqueued || s.objs[o].phase == Settled
    ensures s.objs[o].phase == Settled ==> s.objs[o].sw.merged && s.objs[o].bw == UNOWNED
  {
    ReachedInv(s);
    RestingQueue(s, a);
    assert ThreadOk(s, a);
    assert ObjectOk(s, o);
  }

  /** A dead flag is final, and a merge is never undone. */
  lemma DeathAndMergeAreFinal(s: State, s': State, a: nat, o: nat)
    requires Reached(s) && Leads(s, s') && a in s.threads && o in s.objs
    ensures a in s'.threads && o in s'.objs
    ensures s.threads[a].status == Departed && s.threads[a].flag == Dead ==> s'.threads[a].flag == Dead
    ensures s.objs[o].sw.merged ==> s'.objs[o].sw.merged
    ensures s.objs[o].phase == Settled ==> s'.objs[o].phase == Settled
  {
    LeadsEvolves(s, s');
  }
}
