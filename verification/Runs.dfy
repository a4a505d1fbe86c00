/** Polite runs that mark where a guarantee ends: the inputs behind the exact
    conditions of `WeakTheorems`. */
module Runs {
  import opened Words
  import opened Protocol
  import opened Preservation
  import opened Impolite

  lemma Starts(s: State)
    requires Initial(s)
    ensures Reached(s)
  {
    var states, steps: seq<Step> := [s], [];
    assert IsPoliteStretch(states, steps) && states[0] == s && states[|steps|] == s;
    assert Leads(s, s);
  }

  lemma Follows(s: State, s': State, step: Step)
    requires Reached(s) && Next(s, s', step) && Polite(s, step)
    ensures Reached(s')
  {
    var states, steps := [s, s'], [step];
    assert IsPoliteStretch(states, steps) && states[0] == s && states[|steps|] == s';
    assert Leads(s, s');
    LeadsReached(s, s');
  }

  lemma FollowsCall(s: State, s': State, step: Step)
    requires Reached(s) && Next(s, s', step) && !step.Access?
    requires step.StepCloneDirect? ==> step.o in s.objs && s.objs[step.o].sw.count != -1
    ensures Reached(s')
  {
    Follows(s, s', step);
  }

  // The same for an access, by the group it belongs to.

  lemma FollowsCount(s: State, s': State, i: nat, f: nat)
    requires Reached(s) && CountAccess(s, s', i, f)
    requires s.ops[i].pc.CloneShared? ==>
               s.ops[i].pc.o in s.objs && s.objs[s.ops[i].pc.o].sw.count != -1
    requires s.ops[i].pc.DropMerge? ==> s.ops[i].pc.o in s.objs && !s.objs[s.ops[i].pc.o].sw.queued
    ensures Reached(s')
  {
    Follows(s, s', Access(i, f));
  }

  lemma FollowsQueue(s: State, s': State, i: nat)
    requires Reached(s) && QueueAccess(s, s', i)
    ensures Reached(s')
  {
    Follows(s, s', Access(i, 0));
  }

  lemma FollowsWeak(s: State, s': State, i: nat)
    requires Reached(s) && WeakAccess(s, s', i)
    ensures Reached(s')
  {
    Follows(s, s', Access(i, 0));
  }

  lemma FollowsThread(s: State, s': State, i: nat, f: nat)
    requires Reached(s) && ThreadAccess(s, s', i, f)
    ensures Reached(s')
  {
    Follows(s, s', Access(i, f));
  }

  lemma OneHandle()
    ensures Reached(With(NewObj(Some(OWNER)), map[], map[]))
  {
    var s0 := State(map[], map[], map[], Threads(Thread(Fresh, Live, {}, [], None, None)));
    var y := Thread(Registered, Live, {Home}, [], None, None);
    var s1 := PutThread(s0, OWNER, y);
    var s2 := With(NewObj(Some(OWNER)), map[], map[]);
    assert s1.threads == Threads(y);
    assert s2 == Put(s1, 0, NewObj(Some(OWNER)));
    Starts(s0);
    FollowsCall(s0, s1, StepInit(OWNER, false));
    FollowsCall(s1, s2, StepCreate(OWNER, 0));
  }

  // ----- a store of UNOWNED behind the last drop -----

  /** The owner has created an object and cloned it on the shared side. */
  ghost function Shared(): Obj {
    NewObj(Some(OWNER)).(sw := SharedWord(1, false, false), strong := {0, 1})
  }

  /** The owner has merged, and has yet to store UNOWNED. */
  ghost function Merging(): State {
    With(Shared().(sw := SharedWord(1, true, false), strong := {1}, unowner := Some(0)),
         map[0 := Op(OWNER, StoreUnowned(0, Keep))], map[OWNER := 0])
  }

  lemma OwnerClonesShared()
    ensures Reached(With(Shared(), map[], map[]))
  {
    OneHandle();
    var s, x := With(NewObj(Some(OWNER)), map[], map[]), NewObj(Some(OWNER));
    assert {0} + {1} == {0, 1};
    assert With(Shared(), map[], map[]) == Put(s, 0, SharedIncrement(x, 1));
    FollowsCall(s, With(Shared(), map[], map[]), StepCloneDirect(OWNER, 0, 0, 1));
  }

  ghost function OwnersDrop(): State {
    With(Shared().(claims := map[0 := 0]), map[0 := Op(OWNER, DropMerge(0, 0))], map[OWNER := 0])
  }

  lemma OwnerDrops()
    ensures Reached(OwnersDrop())
  {
    OwnerClonesShared();
    var s := With(Shared(), map[], map[]);
    assert OwnersDrop() == Begin(Put(s, 0, Shared().(claims := map[0 := 0])), OWNER, 0, DropMerge(0, 0));
    FollowsCall(s, OwnersDrop(), StepDrop(OWNER, 0, 0, 0));
  }

  lemma OwnerMerges()
    ensures Reached(Merging())
  {
    OwnerDrops();
    var y := Shared().(claims := map[0 := 0]);
    assert y.strong - {0} == {1} && y.claims - {0} == map[];
    assert Merging() == Go(Put(OwnersDrop(), 0, MergedAway(y, 0, 0)), 0, StoreUnowned(0, Keep));
    assert DropMergeStep(OwnersDrop(), Merging(), 0);
    FollowsCount(OwnersDrop(), Merging(), 0, 0);
  }

  /** Another thread's drop of the last handle destroys the value. */
  ghost function Doomed1(): State {
    With(Merging().objs[0].(sw := SharedWord(0, true, false), strong := {}, life := Doomed(1)),
         map[0 := Op(OWNER, StoreUnowned(0, Keep)), 1 := Op(DROPPER, StartDestroy(0))],
         map[OWNER := 0, DROPPER := 1])
  }

  ghost function LastDropping(): State {
    With(Merging().objs[0].(claims := map[1 := 1]),
         map[0 := Op(OWNER, StoreUnowned(0, Keep)), 1 := Op(DROPPER, DropShared(0, 1))],
         map[OWNER := 0, DROPPER := 1])
  }

  lemma LastDropFollows()
    ensures DropBegin(Merging(), LastDropping(), DROPPER, 1, 0, 1)
  {
    var s := Merging();
    assert !Borrows(StoreUnowned(0, Keep), 0, ByStrong(1));
    assert LastDropping() == Begin(Put(s, 0, s.objs[0].(claims := map[1 := 1])), DROPPER, 1, DropShared(0, 1));
  }

  lemma LastDropStarts()
    ensures Reached(LastDropping())
  {
    OwnerMerges();
    LastDropFollows();
    FollowsCall(Merging(), LastDropping(), StepDrop(DROPPER, 1, 0, 1));
  }

  lemma LastDrop()
    ensures Reached(Doomed1())
  {
    LastDropStarts();
    var y := LastDropping().objs[0];
    assert y.strong - {1} == {} && y.claims - {1} == map[];
    assert Doomed1() == Go(Put(LastDropping(), 0, SharedDropped(y, 1, 1)), 1, StartDestroy(0));
    assert DropSharedStep(LastDropping(), Doomed1(), 1);
    FollowsCount(LastDropping(), Doomed1(), 1, 0);
  }

  ghost function Released1(): State {
    With(Doomed1().objs[0].(life := Released, destroys := 1, weak := 0, freer := Some(1)),
         map[0 := Op(OWNER, StoreUnowned(0, Keep)), 1 := Op(DROPPER, Free(0))],
         map[OWNER := 0, DROPPER := 1])
  }

  ghost function Destroying1(): State {
    With(Doomed1().objs[0].(life := Destroying(1), destroys := 1),
         map[0 := Op(OWNER, StoreUnowned(0, Keep)), 1 := Op(DROPPER, RunDestructor(0))],
         map[OWNER := 0])
  }

  lemma ValueDestroyed()
    ensures Reached(Destroying1())
  {
    LastDrop();
    assert Destroying1() == Go(Put(Doomed1(), 0, Destroying1().objs[0]), 1, RunDestructor(0));
    assert StartDestroyStep(Doomed1(), Destroying1(), 1);
    FollowsWeak(Doomed1(), Destroying1(), 1);
  }

  lemma LastReferenceGone()
    ensures Reached(Released1())
  {
    ValueDestroyed();
    assert Released1() == Go(Put(Destroying1(), 0, Released1().objs[0]), 1, Free(0));
    assert ReleaseStep(Destroying1(), Released1(), 1);
    FollowsWeak(Destroying1(), Released1(), 1);
  }

  /** The owner creates an object, clones it on the shared side and drops one
      handle, which merges; before it stores UNOWNED another thread drops the
      other handle. The header is freed with that store still to come. */
  lemma StoreOutlivesHeader() returns (s: State)
    ensures Reached(s)
    ensures 0 in s.objs && s.objs[0].frees == 1
    ensures 0 in s.ops && s.ops[0].pc == StoreUnowned(0, Keep)
  {
    LastReferenceGone();
    s := End(Put(Released1(), 0, Released1().objs[0].(freer := None, frees := 1)), 1);
    assert FreeStep(Released1(), s, 1);
    FollowsWeak(Released1(), s, 1);
  }

  // ----- strong_count across a merge -----

  const READER: nat := CLONER

  /** The reader loaded the shared count -1 of an object with one live handle. */
  ghost function Reading(): Op {
    Op(READER, CountBiased(0, ByStrong(1), SharedWord(-1, false, true), 1))
  }

  ghost function Owner(arc: set<Ref>, queue: seq<nat>): Thread {
    Thread(Registered, Live, arc, queue, None, None)
  }

  ghost function Between(x: Obj, ops: map<nat, Op>, busy: map<nat, nat>, y: Thread): State {
    State(map[0 := x], ops, busy, Threads(y))
  }

  lemma TwoHandles()
    ensures Reached(With(Twice(), map[], map[]))
  {
    OneHandle();
    var s := With(NewObj(Some(OWNER)), map[], map[]);
    var s1 := Begin(s, OWNER, 0, IncStore(0, ByStrong(0), 1));
    FollowsCall(s, s1, StepClone(OWNER, 0, 0, 0));
    var x := NewObj(Some(OWNER)).(bw := BiasedWord(Some(OWNER), 2), strong := {0} + {1});
    assert x == Twice();
    assert With(Twice(), map[], map[]) == End(Put(s1, 0, x), 0);
    assert IncStoreStep(s1, With(Twice(), map[], map[]), 0, 1);
    FollowsCount(s1, With(Twice(), map[], map[]), 0, 1);
  }

  ghost function Loaded(): State {
    Between(AtMinusOne(), map[0 := Op(DROPPER, LoadOwner(0)), 1 := Reading()],
            map[DROPPER := 0, READER := 1], Owner({Home}, []))
  }

  lemma DropperDrops()
    ensures Reached(Dropped())
  {
    TwoHandles();
    DropFollows();
    FollowsCall(With(Twice(), map[], map[]), Dropping(), StepDrop(DROPPER, 0, 0, 0));
    CasFollows();
    assert Dropping().ops[0].pc == DropShared(0, 0);
    Follows(Dropping(), Dropped(), Access(0, 0));
  }

  lemma ReaderLoads()
    ensures Reached(Loaded())
  {
    DropperDrops();
    assert |AtMinusOne().strong| == 1;
    assert Loaded() == Begin(Dropped(), READER, 1, Reading().pc);
    FollowsCall(Dropped(), Loaded(), StepCount(READER, 1, 0, ByStrong(1)));
  }

  ghost function Pushed(): State {
    Between(AtMinusOne().(phase := Waiting), map[0 := Op(DROPPER, RaiseFlag(OWNER)), 1 := Reading()],
            map[DROPPER := 0, READER := 1], Owner({Home, HeldBy(0)}, [0]))
  }

  ghost function Pushing(): State {
    Between(AtMinusOne(), map[0 := Op(DROPPER, Push(0, OWNER)), 1 := Reading()],
            map[DROPPER := 0, READER := 1], Owner({Home, HeldBy(0)}, []))
  }

  ghost function FindingQueue(): State {
    Loaded().(ops := Loaded().ops[0 := Op(DROPPER, UpgradeQueue(0, OWNER))])
  }

  lemma DropperFindsOwner()
    ensures Reached(FindingQueue())
  {
    ReaderLoads();
    assert FindingQueue() == Go(Loaded(), 0, UpgradeQueue(0, OWNER));
    assert LoadOwnerStep(Loaded(), FindingQueue(), 0);
    FollowsQueue(Loaded(), FindingQueue(), 0);
  }

  lemma DropperTakesQueue()
    ensures FindingQueue().threads[OWNER := Owner({Home, HeldBy(0)}, [])] == Pushing().threads
    ensures OWNER in FindingQueue().threads && FindingQueue().threads[OWNER] == Owner({Home}, [])
  {
  }

  lemma FindFollows()
    ensures UpgradeQueueStep(FindingQueue(), Pushing(), 0)
  {
    assert {Home} + {HeldBy(0)} == {Home, HeldBy(0)};
    DropperTakesQueue();
    assert FindingQueue().ops[0] == Op(DROPPER, UpgradeQueue(0, OWNER));
    assert Pushing().ops == FindingQueue().ops[0 := Op(DROPPER, Push(0, OWNER))];
    assert Pushing().busy == FindingQueue().busy[DROPPER := 0];
  }

  lemma DropperFindsQueue()
    ensures Reached(Pushing())
  {
    DropperFindsOwner();
    FindFollows();
    assert FindingQueue().ops[0].pc == UpgradeQueue(0, OWNER);
    FollowsQueue(FindingQueue(), Pushing(), 0);
  }

  lemma PushFollows()
    ensures PushStep(Pushing(), Pushed(), 0)
  {
    var queue: seq<nat> := [];
    assert queue + [0] == [0];
    assert Pushed() == Go(PutThread(Put(Pushing(), 0, AtMinusOne().(phase := Waiting)),
                                    OWNER, Owner({Home, HeldBy(0)}, [0])), 0, RaiseFlag(OWNER));
  }

  lemma DropperPushes()
    ensures Reached(Pushed())
  {
    DropperFindsQueue();
    PushFollows();
    assert Pushing().ops[0].pc == Push(0, OWNER);
    FollowsQueue(Pushing(), Pushed(), 0);
  }

  ghost function Popped(): State {
    Between(AtMinusOne().(phase := Carried(3)),
            map[0 := Op(DROPPER, RaiseFlag(OWNER)), 1 := Reading(),
                2 := Op(OWNER, CollectPop(OWNER)), 3 := Op(OWNER, MergeLoad(0, OWNER))],
            map[DROPPER := 0, READER := 1, OWNER := 3],
            Owner({Home, HeldBy(0), HeldBy(2)}, []))
  }

  ghost function Popping(): State {
    Between(AtMinusOne().(phase := Waiting),
            map[0 := Op(DROPPER, RaiseFlag(OWNER)), 1 := Reading(), 2 := Op(OWNER, CollectPop(OWNER))],
            map[DROPPER := 0, READER := 1], Owner({Home, HeldBy(0), HeldBy(2)}, [0]))
  }

  ghost function Collecting(): State {
    Pushed().(ops := Pushed().ops[2 := Op(OWNER, CollectUpgrade(OWNER))],
              busy := Pushed().busy[OWNER := 2])
  }

  lemma OwnerCalls()
    ensures Reached(Collecting())
  {
    DropperPushes();
    assert Collecting() == Begin(Pushed(), OWNER, 2, CollectUpgrade(OWNER));
    FollowsCall(Pushed(), Collecting(), StepCollect(OWNER, 2));
  }

  lemma ThreeReferences(r: Ref, r': Ref, r'': Ref)
    ensures {r, r'} + {r''} == {r, r', r''}
  {
  }

  lemma OwnerTakesQueue()
    ensures Collecting().threads[OWNER := Owner({Home, HeldBy(0), HeldBy(2)}, [0])] == Popping().threads
    ensures OWNER in Collecting().threads && Collecting().threads[OWNER] == Owner({Home, HeldBy(0)}, [0])
  {
  }

  lemma CollectFollows()
    ensures CollectUpgradeStep(Collecting(), Popping(), 2)
  {
    ThreeReferences(Home, HeldBy(0), HeldBy(2));
    OwnerTakesQueue();
    assert Collecting().ops[2] == Op(OWNER, CollectUpgrade(OWNER));
    assert Popping().ops == Collecting().ops[2 := Op(OWNER, CollectPop(OWNER))];
    assert Popping().busy == Collecting().busy - {OWNER};
  }

  lemma OwnerStartsCollecting()
    ensures Reached(Popping())
  {
    OwnerCalls();
    CollectFollows();
    assert Collecting().ops[2].pc == CollectUpgrade(OWNER);
    FollowsThread(Collecting(), Popping(), 2, 0);
  }

  lemma OwnerPops()
    ensures Reached(Popped())
  {
    OwnerStartsCollecting();
    assert [0][1..] == [];
    assert Popped() == PopInto(Popping(), OWNER, OWNER, 3);
    assert CollectPopStep(Popping(), Popped(), 2, 3);
    FollowsThread(Popping(), Popped(), 2, 3);
  }

  ghost function Settling(): State {
    var x := AtMinusOne().(sw := SharedWord(1, true, true), phase := Settled, unowner := Some(3));
    Popped().(objs := map[0 := x], ops := Popped().ops[3 := Op(OWNER, StoreUnowned(0, Keep))])
  }

  lemma OwnerCollects()
    ensures Reached(Settling())
  {
    OwnerPops();
    var s1 := Go(Popped(), 3, MergeCas(0, OWNER, 2));
    assert MergeLoadStep(Popped(), s1, 3);
    FollowsQueue(Popped(), s1, 3);
    var x := AtMinusOne().(phase := Carried(3));
    assert Settling() == Go(Put(s1, 0, ExplicitlyMerged(x, 3, 2)), 3, StoreUnowned(0, Keep));
    assert MergeCasStep(s1, Settling(), 3);
    FollowsQueue(s1, Settling(), 3);
  }

  ghost function Disowned(): State {
    Between(AtMinusOne().(sw := SharedWord(1, true, true), phase := Settled, bw := UNOWNED),
            Popped().ops - {3}, map[DROPPER := 0, READER := 1], Owner({Home, HeldBy(0), HeldBy(2)}, []))
  }

  lemma DisownedObject()
    ensures Settling().objs == map[0 := Settling().objs[0]] && 0 in Settling().objs
    ensures Disowned().objs == Settling().objs[0 := Settling().objs[0].(bw := UNOWNED, unowner := None)]
  {
  }

  lemma DisownedOps()
    ensures 3 in Settling().ops && Settling().ops[3] == Op(OWNER, StoreUnowned(0, Keep))
    ensures Disowned().ops == Settling().ops - {3} && Disowned().busy == Settling().busy - {OWNER}
  {
  }

  lemma DisownFollows()
    ensures StoreUnownedStep(Settling(), Disowned(), 3)
  {
    DisownedObject();
    DisownedOps();
    assert Disowned().threads == Settling().threads;
  }

  lemma OwnerDisowns()
    ensures Reached(Disowned())
  {
    OwnerCollects();
    DisownFollows();
    assert Settling().ops[3].pc == StoreUnowned(0, Keep);
    FollowsCount(Settling(), Disowned(), 3, 0);
  }

  /** One of two handles is dropped elsewhere; a thread that never registered
      calls `strong_count` through the other and loads the shared count -1; the
      owner collects, merges and gives up ownership. The reader takes the absent
      owner for itself, adds 0 and -1, and fails the check on the sum, although
      one handle is live throughout. */
  lemma CountFallsBelowZero() returns (s: State)
    ensures Reached(s)
    ensures 0 in s.objs && s.objs[0].strong == {1}
    ensures 1 in s.ops && s.ops[1].pc == Counted(0, ByStrong(1), Negative, 1)
    ensures s.ops[1].tid in s.threads && s.threads[s.ops[1].tid].status == Fresh
  {
    OwnerDisowns();
    s := Go(Disowned(), 1, Counted(0, ByStrong(1), Negative, 1));
    assert CountBiasedStep(Disowned(), s, 1);
    FollowsWeak(Disowned(), s, 1);
  }

  // ----- is_unique through a handle that others use as well -----

  ghost function Checking(): State {
    With(NewObj(Some(OWNER)).(weak := WEAK_LOCKED, locker := Some(0)),
         map[0 := Op(OWNER, UniqueBiased(0, 0, false, SharedWord(0, false, false), true))],
         map[OWNER := 0])
  }

  ghost function Locked(): State {
    With(NewObj(Some(OWNER)).(weak := WEAK_LOCKED, locker := Some(0)),
         map[0 := Op(OWNER, UniqueShared(0, 0, false))], map[OWNER := 0])
  }

  lemma OwnerLocks()
    ensures Reached(Locked())
  {
    OneHandle();
    var s, x := With(NewObj(Some(OWNER)), map[], map[]), NewObj(Some(OWNER));
    var s1 := Begin(s, OWNER, 0, LockWeak(0, 0, false));
    FollowsCall(s, s1, StepUnique(OWNER, 0, 0, 0, false));
    assert Locked() == Go(Put(s1, 0, x.(weak := WEAK_LOCKED, locker := Some(0))), 0, UniqueShared(0, 0, false));
    assert LockWeakStep(s1, Locked(), 0);
    FollowsWeak(s1, Locked(), 0);
  }

  lemma OwnerChecks()
    ensures Reached(Checking())
  {
    OwnerLocks();
    assert Checking() == Go(Locked(), 0, UniqueBiased(0, 0, false, SharedWord(0, false, false), true));
    assert UniqueSharedStep(Locked(), Checking(), 0);
    FollowsWeak(Locked(), Checking(), 0);
  }

  ghost function ClonedMeanwhile(): State {
    Checking().(objs := map[0 := SharedIncrement(Checking().objs[0], 1)])
  }

  ghost function Cloning(): State {
    Checking().(ops := Checking().ops[1 := Op(CLONER, CloneShared(0, 0))],
                busy := Checking().busy[CLONER := 1])
  }

  lemma AnotherStartsCloning()
    ensures Reached(Cloning())
  {
    OwnerChecks();
    assert Cloning() == Begin(Checking(), CLONER, 1, CloneShared(0, 0));
    FollowsCall(Checking(), Cloning(), StepClone(CLONER, 1, 0, 0));
  }

  lemma CloneFollows()
    ensures CloneSharedStep(Cloning(), ClonedMeanwhile(), 1, 1)
  {
    assert ClonedMeanwhile() == End(Put(Cloning(), 0, SharedIncrement(Checking().objs[0], 1)), 1);
  }

  lemma AnotherClones()
    ensures Reached(ClonedMeanwhile())
  {
    AnotherStartsCloning();
    CloneFollows();
    assert Cloning().ops[1].pc == CloneShared(0, 0);
    FollowsCount(Cloning(), ClonedMeanwhile(), 1, 1);
  }

  /** While the owner's `is_unique` stands between its shared load and its
      unlock, another thread clones through the same borrowed handle: the answer
      is `true`, as it was at the load, and two handles are live. */
  lemma CloneDuringIsUnique() returns (s: State)
    ensures Reached(s)
    ensures 0 in s.objs && s.objs[0].strong == {0, 1}
    ensures 0 in s.ops && s.ops[0].pc == UnlockWeak(0, 0, false, true, true)
  {
    AnotherClones();
    assert {0} + {1} == {0, 1};
    s := Go(ClonedMeanwhile(), 0, UnlockWeak(0, 0, false, true, true));
    assert UniqueBiasedStep(ClonedMeanwhile(), s, 0);
    FollowsWeak(ClonedMeanwhile(), s, 0);
  }

  // ----- get_mut on a value that is not shared -----

  ghost function Asking(pc: Pc, weak: nat, locker: Option<nat>): State {
    With(NewObj(Some(OWNER)).(claims := map[0 := 0], weak := weak, locker := locker),
         map[0 := Op(OWNER, pc)], if pc.HoldMut? then map[] else map[OWNER := 0])
  }

  lemma GetMutStarts()
    ensures Reached(Asking(LockWeak(0, 0, true), 1, None))
  {
    OneHandle();
    var s, x := With(NewObj(Some(OWNER)), map[], map[]), NewObj(Some(OWNER));
    var s1 := Asking(LockWeak(0, 0, true), 1, None);
    assert s1 == Begin(Put(s, 0, x.(claims := map[0 := 0])), OWNER, 0, LockWeak(0, 0, true));
    FollowsCall(s, s1, StepUnique(OWNER, 0, 0, 0, true));
  }

  lemma GetMutLocks()
    ensures Reached(Asking(UniqueShared(0, 0, true), WEAK_LOCKED, Some(0)))
  {
    GetMutStarts();
    var s, s1 := Asking(LockWeak(0, 0, true), 1, None), Asking(UniqueShared(0, 0, true), WEAK_LOCKED, Some(0));
    assert s1 == Go(Put(s, 0, s1.objs[0]), 0, UniqueShared(0, 0, true));
    assert LockWeakStep(s, s1, 0);
    FollowsWeak(s, s1, 0);
  }

  lemma GetMutCounts()
    ensures Reached(Asking(UnlockWeak(0, 0, true, true, true), WEAK_LOCKED, Some(0)))
  {
    GetMutLocks();
    var w := SharedWord(0, false, false);
    var s := Asking(UniqueShared(0, 0, true), WEAK_LOCKED, Some(0));
    var s1 := Asking(UniqueBiased(0, 0, true, w, true), WEAK_LOCKED, Some(0));
    var s2 := Asking(UnlockWeak(0, 0, true, true, true), WEAK_LOCKED, Some(0));
    assert s1 == Go(s, 0, UniqueBiased(0, 0, true, w, true));
    assert UniqueSharedStep(s, s1, 0);
    FollowsWeak(s, s1, 0);
    assert s2 == Go(s1, 0, UnlockWeak(0, 0, true, true, true));
    assert UniqueBiasedStep(s1, s2, 0);
    FollowsWeak(s1, s2, 0);
  }

  /** The owner of an object with one handle and no `Weak` gets its `&mut`. */
  lemma GetMutSucceeds() returns (s: State)
    ensures Reached(s)
    ensures 0 in s.objs && s.objs[0].strong == {0} && s.objs[0].weaks == {} && s.objs[0].weak == 1
    ensures 0 in s.ops && s.ops[0] == Op(OWNER, HoldMut(0, 0))
  {
    GetMutCounts();
    var s0 := Asking(UnlockWeak(0, 0, true, true, true), WEAK_LOCKED, Some(0));
    s := Asking(HoldMut(0, 0), 1, None);
    assert s == Go(Put(s0, 0, s.objs[0]), 0, HoldMut(0, 0));
    assert UnlockWeakStep(s0, s, 0);
    FollowsWeak(s0, s, 0);
  }
}
