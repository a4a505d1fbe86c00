/** The reference-counting protocol as an interleaving of atomic accesses.

    A state holds every object, every operation in flight and every thread's
    shared record. A step is one atomic access by one operation, together with
    the thread-local code up to the next access. */
module Protocol {
  import opened Words

  // ----- objects -----

  /** Where a queued object is on its way to the merge. */
  datatype Phase = Unqueued | Carried(op: nat) | Waiting | Settled

  /** From the decision to destroy to the release of the strong side's weak reference. */
  datatype Life = Alive | Doomed(op: nat) | Destroying(op: nat) | Released

  datatype Obj = Obj(
    // the header
    bw: BiasedWord,
    sw: SharedWord,
    weak: nat,
    // who created it, the handles that exist, and which operation holds which right
    creator: Option<nat>,
    strong: set<nat>,
    claims: map<nat, nat>,   // handles an operation holds exclusively
    weaks: set<nat>,
    phase: Phase,
    life: Life,
    unowner: Option<nat>,    // still has to store UNOWNED
    locker: Option<nat>,     // holds the weak lock
    freer: Option<nat>,      // dropped the last weak reference
    destroys: nat,
    frees: nat)

  // ----- threads -----

  /** The thread-local status; `Unregistrable` threads found no short id left. */
  datatype Status = Fresh | Registered | Unregistrable | Departed

  datatype Flag = Live | QueuedObjects | Dying | Dead

  /** One strong reference to a queue's `Arc`. */
  datatype Ref = Home | HeldBy(op: nat)

  datatype Thread = Thread(
    status: Status,
    flag: Flag,
    arc: set<Ref>,
    queue: seq<nat>,
    drainer: Option<nat>,    // runs the queue's destructor
    death: Option<nat>)      // runs the thread's destructor

  predicate IsLive(f: Flag) {
    f == Live || f == QueuedObjects
  }

  // ----- operations -----

  datatype Via = ByStrong(h: nat) | ByWeak(h: nat)

  /** What follows the store of UNOWNED. */
  datatype Verdict = Keep | Condemn | Corrupt

  /** The access an operation does next. */
  datatype Pc =
    // clone and upgrade
    | IncStore(o: nat, via: Via, b: nat)
    | CloneShared(o: nat, h: nat)
    | UpgradeShared(o: nat, h: nat)
    // drop
    | DropStore(o: nat, h: nat, b: nat)
    | DropMerge(o: nat, h: nat)
    | DropShared(o: nat, h: nat)
    | StoreUnowned(o: nat, verdict: Verdict)
    // hand an object to its owner's queue
    | LoadOwner(o: nat)
    | UpgradeQueue(o: nat, a: nat)
    | Push(o: nat, a: nat)
    | RaiseFlag(a: nat)
    | DropArc(a: nat)
    | CheckDead(o: nat, a: nat)
    // explicit merge
    | MergeLoad(o: nat, a: nat)
    | MergeCas(o: nat, a: nat, b: nat)
    // destruction
    | StartDestroy(o: nat)
    | RunDestructor(o: nat)
    | Free(o: nat)
    // is_unique, called with a borrowed handle or by get_mut with an exclusive one;
    // `sole` remembers whether the handle was the only one at the shared load
    | LockWeak(o: nat, h: nat, exclusive: bool)
    | UniqueShared(o: nat, h: nat, exclusive: bool)
    | UniqueBiased(o: nat, h: nat, exclusive: bool, w: SharedWord, sole: bool)
    | UnlockWeak(o: nat, h: nat, exclusive: bool, unique: bool, sole: bool)
    | HoldMut(o: nat, h: nat)
    // strong_count
    | CountBiased(o: nat, via: Via, w: SharedWord, live: nat)
    | Counted(o: nat, via: Via, result: CountResult, live: nat)
    // collect_force
    | CollectUpgrade(a: nat)
    | CollectPop(a: nat)
    | CollectReset(a: nat)
    | CollectCheck(a: nat)
    // the queue's destructor, run by the thread that dropped the last Arc
    | Drain(a: nat, dying: bool)
    // thread exit
    | DeathSwap(a: nat)
    | DeathArc(a: nat)
    | DeathDead(a: nat)
    // an internal check failed
    | Panicked

  datatype Op = Op(tid: nat, pc: Pc)

  /** At these points the thread may be running other code: a destructor, the
      user's code under a `&mut`, or a merge called from a queue loop. */
  predicate Suspended(pc: Pc) {
    pc.RunDestructor? || pc.HoldMut? || pc.CollectPop? || pc.Drain?
  }

  predicate AsksUnique(pc: Pc) {
    pc.LockWeak? || pc.UniqueShared? || pc.UniqueBiased? || pc.UnlockWeak?
  }

  /** The operation holds handle `h` of `o` exclusively. */
  predicate Claims(pc: Pc, o: nat, h: nat) {
    && (pc.DropStore? || pc.DropMerge? || pc.DropShared? || pc.HoldMut?
        || (AsksUnique(pc) && pc.exclusive))
    && pc.o == o && pc.h == h
  }

  /** The operation borrows the object through `via`. */
  predicate Borrows(pc: Pc, o: nat, via: Via) {
    || (pc.CloneShared? && pc.o == o && via == ByStrong(pc.h))
    || (pc.UpgradeShared? && pc.o == o && via == ByWeak(pc.h))
    || (AsksUnique(pc) && !pc.exclusive && pc.o == o && via == ByStrong(pc.h))
    || ((pc.IncStore? || pc.CountBiased? || pc.Counted?) && pc.o == o && via == pc.via)
  }

  datatype State = State(
    objs: map<nat, Obj>,
    ops: map<nat, Op>,
    busy: map<nat, nat>,     // the straight-line operation each thread is in
    threads: map<nat, Thread>)

  // ----- building blocks of steps -----

  ghost predicate Idle(s: State, t: nat) {
    t in s.threads && t !in s.busy
  }

  /** Operation `i` may do its next access. */
  ghost predicate Runs(s: State, i: nat) {
    && i in s.ops
    && s.ops[i].tid in s.threads
    && (Suspended(s.ops[i].pc) ==> s.ops[i].tid !in s.busy)
  }

  /** The short id of thread `t`, if it has one now. */
  ghost function Me(s: State, t: nat): Option<nat>
    requires t in s.threads
  {
    if s.threads[t].status == Registered then Some(t) else None
  }

  ghost function Begin(s: State, t: nat, i: nat, pc: Pc): State {
    s.(ops := s.ops[i := Op(t, pc)],
       busy := if Suspended(pc) then s.busy - {t} else s.busy[t := i])
  }

  ghost function Go(s: State, i: nat, pc: Pc): State
    requires i in s.ops
  {
    Begin(s, s.ops[i].tid, i, pc)
  }

  ghost function End(s: State, i: nat): State
    requires i in s.ops
  {
    s.(ops := s.ops - {i}, busy := s.busy - {s.ops[i].tid})
  }

  ghost function Put(s: State, o: nat, x: Obj): State {
    s.(objs := s.objs[o := x])
  }

  ghost function PutThread(s: State, a: nat, x: Thread): State {
    s.(threads := s.threads[a := x])
  }

  /** A handle nobody holds exclusively. */
  ghost predicate Usable(s: State, o: nat, h: nat) {
    o in s.objs && h in s.objs[o].strong && h !in s.objs[o].claims
  }

  /** A handle no operation is using at all, so it can be moved or borrowed mutably. */
  ghost predicate Movable(s: State, o: nat, h: nat) {
    && Usable(s, o, h)
    && (forall i | i in s.ops :: !Borrows(s.ops[i].pc, o, ByStrong(h)))
  }

  // ----- threads starting and ending -----

  /** `init_thread`: registers the thread, or finds the short ids exhausted. */
  ghost predicate InitThread(s: State, s': State, t: nat, exhausted: bool) {
    && Idle(s, t)
    && s.threads[t].status == Fresh
    && s' == PutThread(s, t,
         if exhausted then s.threads[t].(status := Unregistrable)
         else Thread(Registered, Live, {Home}, [], None, None))
  }

  /** `LocalThreadState::drop` starts: the thread-local id is cleared. */
  ghost predicate DeathBegin(s: State, s': State, t: nat, i: nat) {
    && Idle(s, t) && i !in s.ops
    && s.threads[t].status == Registered
    && (forall j | j in s.ops :: s.ops[j].tid != t)
    && s' == Begin(PutThread(s, t, s.threads[t].(status := Departed, death := Some(i))),
                   t, i, DeathSwap(t))
  }

  ghost predicate DeathSwapStep(s: State, s': State, i: nat) {
    && Runs(s, i) && s.ops[i].pc.DeathSwap?
    && var a := s.ops[i].pc.a;
    && a in s.threads
    && s' == if IsLive(s.threads[a].flag)
             then Go(PutThread(s, a, s.threads[a].(flag := Dying)), i, DeathArc(a))
             else Go(s, i, Panicked)
  }

  ghost predicate DeathArcStep(s: State, s': State, i: nat) {
    && Runs(s, i) && s.ops[i].pc.DeathArc?
    && var a := s.ops[i].pc.a;
    && a in s.threads
    && var x := s.threads[a].(arc := s.threads[a].arc - {Home});
    && s' == if x.arc == {}
             then Go(PutThread(s, a, x.(drainer := Some(i))), i, Drain(a, true))
             else Go(PutThread(s, a, x), i, DeathDead(a))
  }

  ghost predicate DeathDeadStep(s: State, s': State, i: nat) {
    && Runs(s, i) && s.ops[i].pc.DeathDead?
    && var a := s.ops[i].pc.a;
    && a in s.threads
    && s' == if s.threads[a].flag == Dying
             then End(PutThread(s, a, s.threads[a].(flag := Dead, death := None)), i)
             else Go(s, i, Panicked)
  }

  // ----- creating -----

  ghost function NewObj(me: Option<nat>): Obj {
    Obj(if me.Some? then BiasedWord(me, 1) else UNOWNED,
        if me.Some? then SharedWord(0, false, false) else SharedWord(1, true, false),
        1, me, {0}, map[], {}, Unqueued, Alive, None, None, None, 0, 0)
  }

  /** `RawBrcHeader::init`; a fresh thread registers first. */
  ghost predicate Create(s: State, s': State, t: nat, o: nat) {
    && Idle(s, t) && o !in s.objs
    && s.threads[t].status != Fresh
    && s' == Put(s, o, NewObj(Me(s, t)))
  }

  // ----- clone and upgrade -----

  /** The load of `attempt_biased_increment` lets the owner store directly. */
  ghost predicate MayStore(s: State, t: nat, o: nat)
    requires t in s.threads && o in s.objs
  {
    && s.objs[o].bw.count < BIASED_MAX
    && Me(s, t).Some? && s.objs[o].bw.owner == Me(s, t)
  }

  ghost predicate CloneBegin(s: State, s': State, t: nat, i: nat, o: nat, h: nat) {
    && Idle(s, t) && i !in s.ops && Usable(s, o, h)
    && s' == Begin(s, t, i,
         if MayStore(s, t, o) then IncStore(o, ByStrong(h), s.objs[o].bw.count) else CloneShared(o, h))
  }

  ghost predicate UpgradeBegin(s: State, s': State, t: nat, i: nat, o: nat, h: nat) {
    && Idle(s, t) && i !in s.ops && o in s.objs && h in s.objs[o].weaks
    && s' == Begin(s, t, i,
         if MayStore(s, t, o) then IncStore(o, ByWeak(h), s.objs[o].bw.count) else UpgradeShared(o, h))
  }

  ghost predicate IncStoreStep(s: State, s': State, i: nat, h': nat) {
    && Runs(s, i) && s.ops[i].pc.IncStore?
    && var IncStore(o, via, b) := s.ops[i].pc;
    && o in s.objs && h' !in s.objs[o].strong
    && var x := s.objs[o];
    && s' == End(Put(s, o, x.(bw := BiasedWord(Some(s.ops[i].tid), b + 1),
                              strong := x.strong + {h'})), i)
  }

  /** The effect of `increment_strong_shared` on an object. */
  ghost function SharedIncrement(x: Obj, h': nat): Obj {
    x.(sw := FetchAddOne(x.sw), strong := x.strong + {h'})
  }

  ghost predicate CloneSharedStep(s: State, s': State, i: nat, h': nat) {
    && Runs(s, i) && s.ops[i].pc.CloneShared?
    && var CloneShared(o, h) := s.ops[i].pc;
    && o in s.objs && h' !in s.objs[o].strong
    && s.objs[o].sw.count <= OVERFLOW_THRESHOLD
    && s' == End(Put(s, o, SharedIncrement(s.objs[o], h')), i)
  }

  /** `clone_shared`: one access, by any thread. */
  ghost predicate CloneDirect(s: State, s': State, t: nat, o: nat, h: nat, h': nat) {
    && Idle(s, t) && Usable(s, o, h) && h' !in s.objs[o].strong
    && s.objs[o].sw.count <= OVERFLOW_THRESHOLD
    && s' == Put(s, o, SharedIncrement(s.objs[o], h'))
  }

  /** The successful compare-exchange of `increment_strong_unless_zero`, or its refusal. */
  ghost predicate UpgradeSharedStep(s: State, s': State, i: nat, h': nat) {
    && Runs(s, i) && s.ops[i].pc.UpgradeShared?
    && var UpgradeShared(o, h) := s.ops[i].pc;
    && o in s.objs && h' !in s.objs[o].strong
    && var x := s.objs[o];
    && if IsExhausted(x.sw) then
         s' == End(s, i)
       else
         && x.sw.count < SHARED_MAX
         && s' == End(Put(s, o, x.(sw := x.sw.(count := x.sw.count + 1),
                                   strong := x.strong + {h'})), i)
  }

  // ----- drop -----

  /** The load of `decrement_biased`. */
  ghost predicate DropBegin(s: State, s': State, t: nat, i: nat, o: nat, h: nat) {
    && Idle(s, t) && i !in s.ops && Movable(s, o, h)
    && var x := s.objs[o];
    && var pc :=
         if x.bw.owner.None? || x.bw.owner != Me(s, t) then DropShared(o, h)
         else if x.bw.count > 1 then DropStore(o, h, x.bw.count)
         else DropMerge(o, h);
    && s' == Begin(Put(s, o, x.(claims := x.claims[h := i])), t, i, pc)
  }

  ghost function WithoutStrong(x: Obj, h: nat): Obj {
    x.(strong := x.strong - {h}, claims := x.claims - {h})
  }

  ghost predicate DropStoreStep(s: State, s': State, i: nat) {
    && Runs(s, i) && s.ops[i].pc.DropStore?
    && var DropStore(o, h, b) := s.ops[i].pc;
    && o in s.objs && b >= 1
    && var x := WithoutStrong(s.objs[o], h);
    && s' == End(Put(s, o, x.(bw := BiasedWord(Some(s.ops[i].tid), b - 1))), i)
  }

  /** `decrement_biased_slow` sets the merged bit, which gives up the last biased count. */
  ghost function MergedAway(x: Obj, i: nat, h: nat): Obj {
    WithoutStrong(x, h).(
      sw := x.sw.(merged := true), unowner := Some(i),
      life := if x.sw.count == 0 then Doomed(i) else x.life)
  }

  ghost predicate DropMergeStep(s: State, s': State, i: nat) {
    && Runs(s, i) && s.ops[i].pc.DropMerge?
    && var DropMerge(o, h) := s.ops[i].pc;
    && o in s.objs
    && s' == Go(Put(s, o, MergedAway(s.objs[o], i, h)), i,
                StoreUnowned(o, if s.objs[o].sw.count == 0 then Condemn else Keep))
  }

  ghost predicate StoreUnownedStep(s: State, s': State, i: nat) {
    && Runs(s, i) && s.ops[i].pc.StoreUnowned?
    && var StoreUnowned(o, verdict) := s.ops[i].pc;
    && o in s.objs
    && var s1 := Put(s, o, s.objs[o].(bw := UNOWNED, unowner := None));
    && s' == match verdict
             case Keep => End(s1, i)
             case Condemn => Go(s1, i, StartDestroy(o))
             case Corrupt => Go(s1, i, Panicked)
  }

  /** The compare-exchange of `decrement_shared`: the first negative count queues
      the object, and a merged count of zero destroys it. */
  ghost function SharedDropped(x: Obj, i: nat, h: nat): Obj {
    var y := WithoutStrong(x, h).(sw := Decremented(x.sw));
    if x.sw.queued != y.sw.queued then y.(phase := Carried(i))
    else if IsExhausted(y.sw) then y.(life := Doomed(i))
    else y
  }

  ghost predicate DropSharedStep(s: State, s': State, i: nat) {
    && Runs(s, i) && s.ops[i].pc.DropShared?
    && var DropShared(o, h) := s.ops[i].pc;
    && o in s.objs && s.objs[o].sw.count > SHARED_MIN
    && var x := SharedDropped(s.objs[o], i, h);
    && var s1 := Put(s, o, x);
    && s' == if s.objs[o].sw.queued != x.sw.queued then Go(s1, i, LoadOwner(o))
             else if IsExhausted(x.sw) then Go(s1, i, StartDestroy(o))
             else End(s1, i)
  }

  // ----- queueing -----

  ghost predicate LoadOwnerStep(s: State, s': State, i: nat) {
    && Runs(s, i) && s.ops[i].pc.LoadOwner?
    && var o := s.ops[i].pc.o;
    && o in s.objs
    && s' == Go(s, i, match s.objs[o].bw.owner
                      case Some(a) => if a in s.threads then UpgradeQueue(o, a) else Panicked
                      case None => Panicked)
  }

  ghost predicate UpgradeQueueStep(s: State, s': State, i: nat) {
    && Runs(s, i) && s.ops[i].pc.UpgradeQueue?
    && var UpgradeQueue(o, a) := s.ops[i].pc;
    && a in s.threads
    && var x := s.threads[a];
    && s' == if x.arc != {}
             then Go(PutThread(s, a, x.(arc := x.arc + {HeldBy(i)})), i, Push(o, a))
             else Go(s, i, CheckDead(o, a))
  }

  ghost predicate PushStep(s: State, s': State, i: nat) {
    && Runs(s, i) && s.ops[i].pc.Push?
    && var Push(o, a) := s.ops[i].pc;
    && o in s.objs && a in s.threads
    && var x := s.threads[a];
    && s' == Go(PutThread(Put(s, o, s.objs[o].(phase := Waiting)),
                          a, x.(queue := x.queue + [o])), i, RaiseFlag(a))
  }

  ghost predicate RaiseFlagStep(s: State, s': State, i: nat) {
    && Runs(s, i) && s.ops[i].pc.RaiseFlag?
    && var a := s.ops[i].pc.a;
    && a in s.threads
    && var x := s.threads[a];
    && s' == Go(PutThread(s, a, x.(flag := if x.flag == Live then QueuedObjects else x.flag)),
                i, DropArc(a))
  }

  ghost predicate DropArcStep(s: State, s': State, i: nat) {
    && Runs(s, i) && s.ops[i].pc.DropArc?
    && var a := s.ops[i].pc.a;
    && a in s.threads
    && var x := s.threads[a].(arc := s.threads[a].arc - {HeldBy(i)});
    && s' == if x.arc == {}
             then Go(PutThread(s, a, x.(drainer := Some(i))), i, Drain(a, false))
             else End(PutThread(s, a, x), i)
  }

  ghost predicate CheckDeadStep(s: State, s': State, i: nat) {
    && Runs(s, i) && s.ops[i].pc.CheckDead?
    && var CheckDead(o, a) := s.ops[i].pc;
    && a in s.threads
    && s' == Go(s, i, if IsLive(s.threads[a].flag) then Panicked else MergeLoad(o, a))
  }

  // ----- explicit merge -----

  ghost predicate MergeLoadStep(s: State, s': State, i: nat) {
    && Runs(s, i) && s.ops[i].pc.MergeLoad?
    && var MergeLoad(o, a) := s.ops[i].pc;
    && o in s.objs
    && var b := s.objs[o].bw;
    && s' == Go(s, i, if b.owner == Some(a) then MergeCas(o, a, b.count) else Panicked)
  }

  ghost function ExplicitlyMerged(x: Obj, i: nat, b: nat): Obj {
    var w := Merged(x.sw, b);
    x.(sw := w, phase := Settled, unowner := Some(i),
       life := if w.count == 0 then Doomed(i) else x.life)
  }

  ghost predicate MergeCasStep(s: State, s': State, i: nat) {
    && Runs(s, i) && s.ops[i].pc.MergeCas?
    && var MergeCas(o, a, b) := s.ops[i].pc;
    && o in s.objs
    && var w := s.objs[o].sw;
    && if w.merged then
         s' == Go(s, i, Panicked)
       else
         && w.count + b <= SHARED_MAX
         && s' == Go(Put(s, o, ExplicitlyMerged(s.objs[o], i, b)), i,
                     StoreUnowned(o, if w.count + b == 0 then Condemn
                                     else if w.count + b < 0 then Corrupt else Keep))
  }

  // ----- destruction -----

  /** `erased_dealloc` starts the value's destructor. */
  ghost predicate StartDestroyStep(s: State, s': State, i: nat) {
    && Runs(s, i) && s.ops[i].pc.StartDestroy?
    && var o := s.ops[i].pc.o;
    && o in s.objs
    && var x := s.objs[o];
    && s' == Go(Put(s, o, x.(life := Destroying(i), destroys := x.destroys + 1)), i, RunDestructor(o))
  }

  /** `drop_weak` once the destructor has returned. */
  ghost predicate ReleaseStep(s: State, s': State, i: nat) {
    && Runs(s, i) && s.ops[i].pc.RunDestructor?
    && var o := s.ops[i].pc.o;
    && o in s.objs && s.objs[o].weak >= 1
    && var x := s.objs[o].(life := Released, weak := s.objs[o].weak - 1);
    && s' == if x.weak == 0
             then Go(Put(s, o, x.(freer := Some(i))), i, Free(o))
             else End(Put(s, o, x), i)
  }

  ghost predicate FreeStep(s: State, s': State, i: nat) {
    && Runs(s, i) && s.ops[i].pc.Free?
    && var o := s.ops[i].pc.o;
    && o in s.objs
    && var x := s.objs[o];
    && s' == End(Put(s, o, x.(freer := None, frees := x.frees + 1)), i)
  }

  // ----- weak references -----

  /** The successful compare-exchange of `downgrade`; it spins while locked. */
  ghost predicate Downgrade(s: State, s': State, t: nat, o: nat, h: nat, w': nat) {
    && Idle(s, t) && Usable(s, o, h) && w' !in s.objs[o].weaks
    && var x := s.objs[o];
    && x.weak <= WEAK_OVERFLOW_THRESHOLD
    && s' == Put(s, o, x.(weak := x.weak + 1, weaks := x.weaks + {w'}))
  }

  ghost predicate WeakClone(s: State, s': State, t: nat, o: nat, w: nat, w': nat) {
    && Idle(s, t) && o in s.objs && w in s.objs[o].weaks && w' !in s.objs[o].weaks
    && var x := s.objs[o];
    && x.weak <= WEAK_OVERFLOW_THRESHOLD
    && s' == Put(s, o, x.(weak := x.weak + 1, weaks := x.weaks + {w'}))
  }

  ghost predicate WeakDrop(s: State, s': State, t: nat, i: nat, o: nat, w: nat) {
    && Idle(s, t) && i !in s.ops && o in s.objs && w in s.objs[o].weaks
    && (forall j | j in s.ops :: !Borrows(s.ops[j].pc, o, ByWeak(w)))
    && s.objs[o].weak >= 1
    && var x := s.objs[o].(weak := s.objs[o].weak - 1, weaks := s.objs[o].weaks - {w});
    && s' == if x.weak == 0
             then Begin(Put(s, o, x.(freer := Some(i))), t, i, Free(o))
             else Put(s, o, x)
  }

  // ----- is_unique and get_mut -----

  /** `get_mut` borrows `h` mutably, `is_unique` alone only reads through it. The
      first load is `is_definitely_not_unique`. */
  ghost predicate UniqueBegin(s: State, s': State, t: nat, i: nat, o: nat, h: nat, exclusive: bool) {
    && Idle(s, t) && i !in s.ops && (if exclusive then Movable(s, o, h) else Usable(s, o, h))
    && var x := s.objs[o];
    && s' == if x.bw.owner.Some? && x.bw.owner != Me(s, t) then s
             else Begin(if exclusive then Put(s, o, x.(claims := x.claims[h := i])) else s,
                        t, i, LockWeak(o, h, exclusive))
  }

  /** The handle goes back to where it was borrowed from. */
  ghost function GivenBack(x: Obj, h: nat, exclusive: bool): Obj {
    if exclusive then x.(claims := x.claims - {h}) else x
  }

  ghost predicate LockWeakStep(s: State, s': State, i: nat) {
    && Runs(s, i) && s.ops[i].pc.LockWeak?
    && var LockWeak(o, h, exclusive) := s.ops[i].pc;
    && o in s.objs
    && var x := s.objs[o];
    && s' == if x.weak == 1
             then Go(Put(s, o, x.(weak := WEAK_LOCKED, locker := Some(i))), i, UniqueShared(o, h, exclusive))
             else End(Put(s, o, GivenBack(x, h, exclusive)), i)
  }

  ghost predicate UniqueSharedStep(s: State, s': State, i: nat) {
    && Runs(s, i) && s.ops[i].pc.UniqueShared?
    && var UniqueShared(o, h, exclusive) := s.ops[i].pc;
    && o in s.objs
    && s' == Go(s, i, UniqueBiased(o, h, exclusive, s.objs[o].sw, s.objs[o].strong == {h}))
  }

  ghost predicate UniqueBiasedStep(s: State, s': State, i: nat) {
    && Runs(s, i) && s.ops[i].pc.UniqueBiased?
    && var UniqueBiased(o, h, exclusive, w, sole) := s.ops[i].pc;
    && o in s.objs
    && var count := CountFrom(Me(s, s.ops[i].tid), w, s.objs[o].bw);
    && s' == Go(s, i, if count == Negative then Panicked
                      else UnlockWeak(o, h, exclusive, count == Exact(1), sole))
  }

  /** The lock is released with a plain store of 1. */
  ghost predicate UnlockWeakStep(s: State, s': State, i: nat) {
    && Runs(s, i) && s.ops[i].pc.UnlockWeak?
    && var UnlockWeak(o, h, exclusive, unique, _) := s.ops[i].pc;
    && o in s.objs
    && var x := s.objs[o].(weak := 1, locker := None);
    && s' == if unique && exclusive
             then Go(Put(s, o, x), i, HoldMut(o, h))
             else End(Put(s, o, GivenBack(x, h, exclusive)), i)
  }

  /** The `&mut` borrow ends. */
  ghost predicate ReturnMut(s: State, s': State, i: nat) {
    && Runs(s, i) && s.ops[i].pc.HoldMut?
    && var HoldMut(o, h) := s.ops[i].pc;
    && o in s.objs
    && var x := s.objs[o];
    && s' == End(Put(s, o, x.(claims := x.claims - {h})), i)
  }

  // ----- strong_count -----

  ghost predicate CountBegin(s: State, s': State, t: nat, i: nat, o: nat, via: Via) {
    && Idle(s, t) && i !in s.ops && o in s.objs
    && (match via
        case ByStrong(h) => Usable(s, o, h)
        case ByWeak(h) => h in s.objs[o].weaks)
    && s' == Begin(s, t, i, CountBiased(o, via, s.objs[o].sw, |s.objs[o].strong|))
  }

  ghost predicate CountBiasedStep(s: State, s': State, i: nat) {
    && Runs(s, i) && s.ops[i].pc.CountBiased?
    && var CountBiased(o, via, w, live) := s.ops[i].pc;
    && o in s.objs
    && s' == Go(s, i, Counted(o, via, CountFrom(Me(s, s.ops[i].tid), w, s.objs[o].bw), live))
  }

  ghost predicate CountReturn(s: State, s': State, i: nat) {
    && Runs(s, i) && s.ops[i].pc.Counted?
    && s' == End(s, i)
  }

  // ----- collect_force and the queue's destructor -----

  /** The owner finds its flag live; otherwise it leaves everything to the destructor. */
  ghost predicate CollectBegin(s: State, s': State, t: nat, i: nat) {
    && Idle(s, t) && i !in s.ops
    && s.threads[t].status == Registered && IsLive(s.threads[t].flag)
    && s' == Begin(s, t, i, CollectUpgrade(t))
  }

  ghost predicate CollectUpgradeStep(s: State, s': State, i: nat) {
    && Runs(s, i) && s.ops[i].pc.CollectUpgrade?
    && var a := s.ops[i].pc.a;
    && a in s.threads
    && var x := s.threads[a];
    && s' == if x.arc == {} then End(s, i)
             else Go(PutThread(s, a, x.(arc := x.arc + {HeldBy(i)})), i, CollectPop(a))
  }

  /** Pops one object and calls `explicit_merge` on it as operation `k`. */
  ghost function PopInto(s: State, a: nat, t: nat, k: nat): State
    requires a in s.threads && s.threads[a].queue != []
    requires s.threads[a].queue[0] in s.objs
  {
    var x := s.threads[a];
    var o := x.queue[0];
    Begin(PutThread(Put(s, o, s.objs[o].(phase := Carried(k))), a, x.(queue := x.queue[1..])),
          t, k, MergeLoad(o, a))
  }

  ghost predicate CollectPopStep(s: State, s': State, i: nat, k: nat) {
    && Runs(s, i) && s.ops[i].pc.CollectPop?
    && var a := s.ops[i].pc.a;
    && a in s.threads
    && var x := s.threads[a];
    && if x.queue == [] then
         s' == Go(s, i, CollectReset(a))
       else
         && k !in s.ops && x.queue[0] in s.objs
         && s' == PopInto(s, a, s.ops[i].tid, k)
  }

  ghost predicate CollectResetStep(s: State, s': State, i: nat) {
    && Runs(s, i) && s.ops[i].pc.CollectReset?
    && var a := s.ops[i].pc.a;
    && a in s.threads
    && var x := s.threads[a];
    && s' == Go(PutThread(s, a, x.(flag := if x.flag == QueuedObjects then Live else x.flag)),
                i, CollectCheck(a))
  }

  ghost predicate CollectCheckStep(s: State, s': State, i: nat) {
    && Runs(s, i) && s.ops[i].pc.CollectCheck?
    && var a := s.ops[i].pc.a;
    && a in s.threads
    && s' == Go(s, i, if s.threads[a].queue == [] then DropArc(a) else CollectPop(a))
  }

  ghost predicate DrainStep(s: State, s': State, i: nat, k: nat) {
    && Runs(s, i) && s.ops[i].pc.Drain?
    && var Drain(a, dying) := s.ops[i].pc;
    && a in s.threads
    && var x := s.threads[a];
    && if x.queue == [] then
         var s1 := PutThread(s, a, x.(drainer := None));
         s' == if dying then Go(s1, i, DeathDead(a)) else End(s1, i)
       else
         && k !in s.ops && x.queue[0] in s.objs
         && s' == PopInto(s, a, s.ops[i].tid, k)
  }

  // ----- runs -----

  /** `Access(i, f)` is operation `i` doing its next access, with fresh name `f`
      where one is needed; the others are the calls that start with an access. */
  datatype Step =
    | StepInit(t: nat, exhausted: bool)
    | StepDeath(t: nat, i: nat)
    | StepCreate(t: nat, o: nat)
    | StepClone(t: nat, i: nat, o: nat, h: nat)
    | StepCloneDirect(t: nat, o: nat, h: nat, h': nat)
    | StepUpgrade(t: nat, i: nat, o: nat, h: nat)
    | StepDrop(t: nat, i: nat, o: nat, h: nat)
    | StepDowngrade(t: nat, o: nat, h: nat, w': nat)
    | StepWeakClone(t: nat, o: nat, h: nat, w': nat)
    | StepWeakDrop(t: nat, i: nat, o: nat, h: nat)
    | StepUnique(t: nat, i: nat, o: nat, h: nat, exclusive: bool)
    | StepCount(t: nat, i: nat, o: nat, via: Via)
    | StepCollect(t: nat, i: nat)
    | Access(i: nat, f: nat)

  ghost predicate CountAccess(s: State, s': State, i: nat, f: nat) {
    i in s.ops &&
    match s.ops[i].pc
    case IncStore(_, _, _) => IncStoreStep(s, s', i, f)
    case CloneShared(_, _) => CloneSharedStep(s, s', i, f)
    case UpgradeShared(_, _) => UpgradeSharedStep(s, s', i, f)
    case DropStore(_, _, _) => DropStoreStep(s, s', i)
    case DropMerge(_, _) => DropMergeStep(s, s', i)
    case DropShared(_, _) => DropSharedStep(s, s', i)
    case StoreUnowned(_, _) => StoreUnownedStep(s, s', i)
    case _ => false
  }

  ghost predicate QueueAccess(s: State, s': State, i: nat) {
    i in s.ops &&
    match s.ops[i].pc
    case LoadOwner(_) => LoadOwnerStep(s, s', i)
    case UpgradeQueue(_, _) => UpgradeQueueStep(s, s', i)
    case Push(_, _) => PushStep(s, s', i)
    case RaiseFlag(_) => RaiseFlagStep(s, s', i)
    case DropArc(_) => DropArcStep(s, s', i)
    case CheckDead(_, _) => CheckDeadStep(s, s', i)
    case MergeLoad(_, _) => MergeLoadStep(s, s', i)
    case MergeCas(_, _, _) => MergeCasStep(s, s', i)
    case _ => false
  }

  ghost predicate WeakAccess(s: State, s': State, i: nat) {
    i in s.ops &&
    match s.ops[i].pc
    case StartDestroy(_) => StartDestroyStep(s, s', i)
    case RunDestructor(_) => ReleaseStep(s, s', i)
    case Free(_) => FreeStep(s, s', i)
    case LockWeak(_, _, _) => LockWeakStep(s, s', i)
    case UniqueShared(_, _, _) => UniqueSharedStep(s, s', i)
    case UniqueBiased(_, _, _, _, _) => UniqueBiasedStep(s, s', i)
    case UnlockWeak(_, _, _, _, _) => UnlockWeakStep(s, s', i)
    case HoldMut(_, _) => ReturnMut(s, s', i)
    case CountBiased(_, _, _, _) => CountBiasedStep(s, s', i)
    case Counted(_, _, _, _) => CountReturn(s, s', i)
    case _ => false
  }

  ghost predicate ThreadAccess(s: State, s': State, i: nat, f: nat) {
    i in s.ops &&
    match s.ops[i].pc
    case CollectUpgrade(_) => CollectUpgradeStep(s, s', i)
    case CollectPop(_) => CollectPopStep(s, s', i, f)
    case CollectReset(_) => CollectResetStep(s, s', i)
    case CollectCheck(_) => CollectCheckStep(s, s', i)
    case Drain(_, _) => DrainStep(s, s', i, f)
    case DeathSwap(_) => DeathSwapStep(s, s', i)
    case DeathArc(_) => DeathArcStep(s, s', i)
    case DeathDead(_) => DeathDeadStep(s, s', i)
    case _ => false
  }

  /** Operation `i` does its next access; a panicked one does none. */
  ghost predicate AccessStep(s: State, s': State, i: nat, f: nat) {
    || CountAccess(s, s', i, f)
    || QueueAccess(s, s', i)
    || WeakAccess(s, s', i)
    || ThreadAccess(s, s', i, f)
  }

  ghost predicate Next(s: State, s': State, step: Step) {
    match step
    case StepInit(t, exhausted) => InitThread(s, s', t, exhausted)
    case StepDeath(t, i) => DeathBegin(s, s', t, i)
    case StepCreate(t, o) => Create(s, s', t, o)
    case StepClone(t, i, o, h) => CloneBegin(s, s', t, i, o, h)
    case StepCloneDirect(t, o, h, h') => CloneDirect(s, s', t, o, h, h')
    case StepUpgrade(t, i, o, h) => UpgradeBegin(s, s', t, i, o, h)
    case StepDrop(t, i, o, h) => DropBegin(s, s', t, i, o, h)
    case StepDowngrade(t, o, h, w') => Downgrade(s, s', t, o, h, w')
    case StepWeakClone(t, o, h, w') => WeakClone(s, s', t, o, h, w')
    case StepWeakDrop(t, i, o, h) => WeakDrop(s, s', t, i, o, h)
    case StepUnique(t, i, o, h, exclusive) => UniqueBegin(s, s', t, i, o, h, exclusive)
    case StepCount(t, i, o, via) => CountBegin(s, s', t, i, o, via)
    case StepCollect(t, i) => CollectBegin(s, s', t, i)
    case Access(i, f) => AccessStep(s, s', i, f)
  }

  /** No object, no operation, and threads that have not touched the crate yet. */
  ghost predicate Initial(s: State) {
    && s.objs == map[] && s.ops == map[] && s.busy == map[]
    && forall t | t in s.threads :: s.threads[t] == Thread(Fresh, Live, {}, [], None, None)
  }

  /** The object whose raw shared word the step increments, if it increments one. */
  ghost predicate RawIncrementOn(s: State, step: Step, o: nat) {
    || (step.StepCloneDirect? && step.o == o)
    || (step.Access? && step.i in s.ops && s.ops[step.i].pc.CloneShared? && s.ops[step.i].pc.o == o)
  }

  /** The object whose halves the owner's last drop merges. */
  ghost predicate ImplicitMergeOn(s: State, step: Step, o: nat) {
    step.Access? && step.i in s.ops && s.ops[step.i].pc.DropMerge? && s.ops[step.i].pc.o == o
  }

  /** No raw increment starts from a shared count of -1, and no owner merges an
      object that is queued. */
  ghost predicate Polite(s: State, step: Step) {
    && (forall o | o in s.objs && RawIncrementOn(s, step, o) :: s.objs[o].sw.count != -1)
    && (forall o | o in s.objs && ImplicitMergeOn(s, step, o) :: !s.objs[o].sw.queued)
  }

  ghost predicate UpgradeOn(s: State, step: Step, o: nat) {
    step.Access? && step.i in s.ops && s.ops[step.i].pc.UpgradeShared? && s.ops[step.i].pc.o == o
  }

  /** The object's owner has given up its id. */
  ghost predicate OwnerDeparted(s: State, o: nat)
    requires o in s.objs
  {
    && s.objs[o].creator.Some? && s.objs[o].creator.value in s.threads
    && s.threads[s.objs[o].creator.value].status == Departed
  }

  /** No shared increment starts from -1, except an upgrade after the owner has
      departed. */
  ghost predicate Careful(s: State, step: Step) {
    && (forall o | o in s.objs && RawIncrementOn(s, step, o) :: s.objs[o].sw.count != -1)
    && (forall o | o in s.objs && UpgradeOn(s, step, o) :: s.objs[o].sw.count != -1 || OwnerDeparted(s, o))
  }

  /** `states[k + 1]` follows `states[k]` by `steps[k]`. */
  ghost predicate LinkAt(states: seq<State>, steps: seq<Step>, k: nat) {
    k < |steps| < |states| && Next(states[k], states[k + 1], steps[k])
  }

  /** A run, polite or not. */
  ghost predicate IsRun(states: seq<State>, steps: seq<Step>) {
    && |states| == |steps| + 1
    && Initial(states[0])
    && forall k {:trigger LinkAt(states, steps, k)} | 0 <= k < |steps| :: LinkAt(states, steps, k)
  }

  /** `states[k + 1]` follows `states[k]` by the polite step `steps[k]`. */
  ghost predicate PoliteAt(states: seq<State>, steps: seq<Step>, k: nat) {
    k < |steps| < |states| && Next(states[k], states[k + 1], steps[k]) && Polite(states[k], steps[k])
  }

  ghost predicate IsPoliteStretch(states: seq<State>, steps: seq<Step>) {
    && |states| == |steps| + 1
    && forall k {:trigger PoliteAt(states, steps, k)} | 0 <= k < |steps| :: PoliteAt(states, steps, k)
  }

  ghost predicate Leads(s: State, s': State) {
    exists states, steps ::
      IsPoliteStretch(states, steps) && states[0] == s && states[|steps|] == s'
  }

  /** The states of all polite runs. */
  ghost predicate Reached(s: State) {
    exists s0 :: Initial(s0) && Leads(s0, s)
  }
}
