/** The invariant of the protocol, one predicate per kind of entity. */
module Invariant {
  import opened Words
  import opened Protocol

  // ----- one object on its own -----

  /** While unmerged the two words split the count, and a negative half is queued. */
  ghost predicate UnmergedOk(x: Obj) {
    && x.creator.Some? && x.bw.owner == x.creator
    && 1 <= x.bw.count <= BIASED_MAX
    && x.unowner == None
    && (x.sw.count < 0 ==> x.sw.queued)
  }

  ghost function StrongSide(x: Obj): nat {
    if x.life == Released then 0 else 1
  }

  ghost predicate WeakOk(x: Obj) {
    if x.locker.Some? then
      && x.weak == WEAK_LOCKED && x.weaks == {} && x.life == Alive
      && x.freer == None && x.frees == 0
    else
      && x.weak == |x.weaks| + StrongSide(x)
      && x.weak <= WEAK_OVERFLOW_THRESHOLD + 1
      && (x.weak == 0 <==> x.freer.Some? || x.frees > 0)
      && (x.freer.Some? ==> x.frees == 0)
  }

  ghost predicate ObjOk(x: Obj) {
    && (!x.sw.merged ==> UnmergedOk(x))
    && (x.sw.merged ==> x.unowner.Some? || x.bw == UNOWNED)
    && (if x.bw.owner.Some? then x.bw.owner == x.creator else x.bw == UNOWNED)
    && Total(x.bw, x.sw) == |x.strong|
    && SHARED_MIN <= x.sw.count <= SHARED_MAX
    && (x.life != Alive <==> IsExhausted(x.sw))
    && (x.phase.Carried? || x.phase.Waiting? <==> !x.sw.merged && x.sw.queued)
    && (x.phase == Settled ==> x.sw.merged)
    && x.claims.Keys <= x.strong
    && WeakOk(x)
    && x.destroys == (if x.life.Destroying? || x.life == Released then 1 else 0)
    && x.frees <= 1
  }

  // ----- the rights an object says are held -----

  /** The operation carries `o` from the decision to queue it to the merge. */
  predicate Carries(pc: Pc, o: nat) {
    && (pc.LoadOwner? || pc.UpgradeQueue? || pc.Push? || pc.CheckDead? || pc.MergeLoad? || pc.MergeCas?)
    && pc.o == o
  }

  predicate IsLocker(pc: Pc, o: nat) {
    (pc.UniqueShared? || pc.UniqueBiased? || pc.UnlockWeak?) && pc.o == o
  }

  ghost predicate IsGone(s: State, a: nat) {
    a in s.threads && s.threads[a].status == Departed
  }

  /** Thread `t` may merge objects owned by `a`. */
  ghost predicate MayMerge(s: State, t: nat, a: nat) {
    && a in s.threads
    && (s.threads[a].status == Departed || (t == a && s.threads[a].status == Registered))
  }

  ghost predicate ClaimsOk(s: State, o: nat, x: Obj) {
    forall h | h in x.claims :: x.claims[h] in s.ops && Claims(s.ops[x.claims[h]].pc, o, h)
  }

  /** The rights that only depend on the operations. */
  ghost predicate HeldOk(s: State, o: nat, x: Obj) {
    && (x.phase.Carried? ==> x.phase.op in s.ops && Carries(s.ops[x.phase.op].pc, o))
    && (x.life.Doomed? ==>
          && x.life.op in s.ops
          && (s.ops[x.life.op].pc == StartDestroy(o)
              || s.ops[x.life.op].pc == StoreUnowned(o, Condemn)))
    && (x.life.Destroying? ==> x.life.op in s.ops && s.ops[x.life.op].pc == RunDestructor(o))
    && (x.locker.Some? ==> x.locker.value in s.ops && IsLocker(s.ops[x.locker.value].pc, o))
    && (x.freer.Some? ==> x.freer.value in s.ops && s.ops[x.freer.value].pc == Free(o))
  }

  /** Those that depend on the owner as well. */
  ghost predicate OwnerOk(s: State, o: nat, x: Obj) {
    && (x.creator.Some? ==>
          && x.creator.value in s.threads
          && (s.threads[x.creator.value].status == Registered
              || s.threads[x.creator.value].status == Departed))
    && (x.phase.Waiting? ==>
          && x.creator.Some? && x.creator.value in s.threads
          && o in s.threads[x.creator.value].queue)
    && (x.unowner.Some? ==>
          && x.unowner.value in s.ops
          && s.ops[x.unowner.value].pc.StoreUnowned? && s.ops[x.unowner.value].pc.o == o
          && x.creator.Some? && MayMerge(s, s.ops[x.unowner.value].tid, x.creator.value))
  }

  ghost predicate RightsOk(s: State, o: nat, x: Obj) {
    HeldOk(s, o, x) && OwnerOk(s, o, x)
  }

  // ----- what an operation in flight relies on -----

  /** Thread `t` is the owner of the unmerged object: nobody else writes its biased word. */
  ghost predicate Owns(s: State, t: nat, o: nat) {
    && o in s.objs && t in s.threads
    && s.threads[t].status == Registered
    && !s.objs[o].sw.merged && s.objs[o].bw.owner == Some(t)
  }

  ghost predicate Claimed(s: State, i: nat, o: nat, h: nat) {
    o in s.objs && h in s.objs[o].claims && s.objs[o].claims[h] == i
  }

  ghost predicate Carrying(s: State, i: nat, o: nat, a: nat) {
    && o in s.objs && s.objs[o].phase == Carried(i)
    && s.objs[o].creator == Some(a) && a in s.threads
  }

  ghost predicate HoldsQueue(s: State, i: nat, a: nat) {
    a in s.threads && HeldBy(i) in s.threads[a].arc
  }

  ghost predicate Borrowed(s: State, o: nat, via: Via) {
    match via
    case ByStrong(h) => Usable(s, o, h)
    case ByWeak(h) => o in s.objs && h in s.objs[o].weaks
  }

  /** The caller passed the first owner check of `is_unique`. */
  ghost predicate OwnerChecked(s: State, t: nat, o: nat) {
    o in s.objs && (s.objs[o].sw.merged || Owns(s, t, o))
  }

  /** The handle `is_unique` was called with is still there. */
  ghost predicate HasHandle(s: State, i: nat, o: nat, h: nat, exclusive: bool) {
    if exclusive then Claimed(s, i, o, h) else Usable(s, o, h)
  }

  /** A loaded shared word determines the count at its load: it will come out as
      1 exactly if the handle was the only one then. */
  ghost predicate CountsUnique(s: State, t: nat, o: nat, w: SharedWord, sole: bool) {
    && o in s.objs
    && if w.merged then s.objs[o].sw.merged && 0 <= w.count && (w.count == 1 <==> sole)
       else
         && Owns(s, t, o)
         && 0 <= s.objs[o].bw.count + w.count && (s.objs[o].bw.count + w.count == 1 <==> sole)
  }

  /** With an exclusive handle nobody can add another one. */
  ghost predicate StillSole(s: State, o: nat, h: nat, exclusive: bool, sole: bool) {
    exclusive && sole ==> o in s.objs && s.objs[o].strong == {h}
  }

  /** What `strong_count` relies on between its two loads. */
  ghost predicate CountWindow(s: State, t: nat, o: nat, w: SharedWord, live: nat) {
    && o in s.objs && t in s.threads
    && if w.merged then w.count == live
       else
         && w.count < live <= w.count + BIASED_MAX
         && (s.objs[o].creator == Some(t) && s.threads[t].status == Registered ==>
               Owns(s, t, o) && s.objs[o].bw.count + w.count == live)
  }

  ghost predicate ResultOk(result: CountResult, live: nat) {
    match result
    case Exact(n) => n == live
    case AtLeast(bound) => bound <= live
    case Negative => false
  }

  ghost predicate OwnQueue(s: State, t: nat, a: nat) {
    t == a && a in s.threads && s.threads[a].status == Registered
  }

  ghost predicate Dies(s: State, t: nat, i: nat, a: nat) {
    t == a && IsGone(s, a) && s.threads[a].death == Some(i)
  }

  ghost predicate PcOk(s: State, i: nat, t: nat, pc: Pc) {
    match pc
    case IncStore(o, via, b) =>
      Owns(s, t, o) && s.objs[o].bw.count == b < BIASED_MAX && Borrowed(s, o, via)
    case CloneShared(o, h) => Usable(s, o, h)
    case UpgradeShared(o, h) => o in s.objs && h in s.objs[o].weaks
    case DropStore(o, h, b) => Owns(s, t, o) && s.objs[o].bw.count == b > 1 && Claimed(s, i, o, h)
    case DropMerge(o, h) => Owns(s, t, o) && s.objs[o].bw.count == 1 && Claimed(s, i, o, h)
    case DropShared(o, h) => Claimed(s, i, o, h)
    case StoreUnowned(o, verdict) =>
      && o in s.objs && s.objs[o].sw.merged && s.objs[o].unowner == Some(i)
      && verdict != Corrupt
      && (verdict == Condemn ==> s.objs[o].life == Doomed(i))
    case LoadOwner(o) => o in s.objs && s.objs[o].phase == Carried(i)
    case UpgradeQueue(o, a) => Carrying(s, i, o, a)
    case Push(o, a) => Carrying(s, i, o, a) && HoldsQueue(s, i, a)
    case RaiseFlag(a) => HoldsQueue(s, i, a)
    case DropArc(a) => HoldsQueue(s, i, a)
    case CheckDead(o, a) => Carrying(s, i, o, a) && IsGone(s, a) && s.threads[a].arc == {}
    case MergeLoad(o, a) => Carrying(s, i, o, a) && MayMerge(s, t, a)
    case MergeCas(o, a, b) => Carrying(s, i, o, a) && MayMerge(s, t, a) && s.objs[o].bw.count == b
    case StartDestroy(o) => o in s.objs && s.objs[o].life == Doomed(i)
    case RunDestructor(o) => o in s.objs && s.objs[o].life == Destroying(i)
    case Free(o) => o in s.objs && s.objs[o].freer == Some(i)
    case LockWeak(o, h, exclusive) => HasHandle(s, i, o, h, exclusive) && OwnerChecked(s, t, o)
    case UniqueShared(o, h, exclusive) =>
      HasHandle(s, i, o, h, exclusive) && OwnerChecked(s, t, o) && s.objs[o].locker == Some(i)
    case UniqueBiased(o, h, exclusive, w, sole) =>
      && HasHandle(s, i, o, h, exclusive) && s.objs[o].locker == Some(i)
      && CountsUnique(s, t, o, w, sole) && StillSole(s, o, h, exclusive, sole)
    case UnlockWeak(o, h, exclusive, unique, sole) =>
      && HasHandle(s, i, o, h, exclusive) && s.objs[o].locker == Some(i)
      && (unique <==> sole) && StillSole(s, o, h, exclusive, sole)
    case HoldMut(o, h) =>
      Claimed(s, i, o, h) && s.objs[o].strong == {h} && s.objs[o].weaks == {}
    case CountBiased(o, via, w, live) => Borrowed(s, o, via) && CountWindow(s, t, o, w, live)
    case Counted(o, via, result, live) =>
      && Borrowed(s, o, via) && t in s.threads
      && (s.threads[t].status == Registered ==> ResultOk(result, live))
    case CollectUpgrade(a) => OwnQueue(s, t, a)
    case CollectPop(a) => OwnQueue(s, t, a) && HoldsQueue(s, i, a)
    case CollectReset(a) => OwnQueue(s, t, a) && HoldsQueue(s, i, a)
    case CollectCheck(a) => OwnQueue(s, t, a) && HoldsQueue(s, i, a)
    case Drain(a, dying) =>
      && IsGone(s, a) && s.threads[a].arc == {} && s.threads[a].drainer == Some(i)
      && (dying ==> Dies(s, t, i, a) && s.threads[a].flag == Dying)
    case DeathSwap(a) => Dies(s, t, i, a) && IsLive(s.threads[a].flag) && Home in s.threads[a].arc
    case DeathArc(a) => Dies(s, t, i, a) && s.threads[a].flag == Dying && Home in s.threads[a].arc
    case DeathDead(a) =>
      && Dies(s, t, i, a) && s.threads[a].flag == Dying
      && Home !in s.threads[a].arc && s.threads[a].drainer != Some(i)
    case Panicked => false
  }

  ghost predicate OpOk(s: State, i: nat)
    requires i in s.ops
  {
    && s.ops[i].tid in s.threads
    && (!Suspended(s.ops[i].pc) ==> s.ops[i].tid in s.busy && s.busy[s.ops[i].tid] == i)
    && PcOk(s, i, s.ops[i].tid, s.ops[i].pc)
  }

  // ----- threads -----

  predicate HoldsArc(pc: Pc, a: nat) {
    && (pc.Push? || pc.RaiseFlag? || pc.DropArc? || pc.CollectPop? || pc.CollectReset? || pc.CollectCheck?)
    && pc.a == a
  }

  predicate IsDeath(pc: Pc, a: nat) {
    (pc.DeathSwap? || pc.DeathArc? || pc.DeathDead? || (pc.Drain? && pc.dying)) && pc.a == a
  }

  ghost predicate QueueOk(s: State, a: nat, queue: seq<nat>) {
    && (forall k | 0 <= k < |queue| ::
          && queue[k] in s.objs && s.objs[queue[k]].phase == Waiting
          && s.objs[queue[k]].creator == Some(a))
    && (forall k, l | 0 <= k < l < |queue| :: queue[k] != queue[l])
  }

  /** Which operations hold the rights the record names. */
  ghost predicate ArcOk(s: State, a: nat, x: Thread) {
    && (forall i | HeldBy(i) in x.arc :: i in s.ops && HoldsArc(s.ops[i].pc, a))
    && (x.drainer.Some? ==>
          && x.drainer.value in s.ops
          && s.ops[x.drainer.value].pc.Drain? && s.ops[x.drainer.value].pc.a == a)
    && (x.death.Some? ==> x.death.value in s.ops && IsDeath(s.ops[x.death.value].pc, a))
  }

  /** The shapes a thread's record can have. */
  ghost predicate StatusOk(x: Thread) {
    && (x.drainer.Some? ==> x.arc == {})
    && (x.arc == {} && x.queue != [] ==> x.drainer.Some?)
    && match x.status
       case Registered => Home in x.arc && IsLive(x.flag) && x.death == None
       case Departed =>
         && (Home in x.arc || IsLive(x.flag) || x.flag == Dying ==> x.death.Some?)
         && (IsLive(x.flag) ==> Home in x.arc)
       case _ => x.arc == {} && x.queue == [] && x.death == None
  }

  ghost predicate ThreadOk(s: State, a: nat)
    requires a in s.threads
  {
    && QueueOk(s, a, s.threads[a].queue)
    && ArcOk(s, a, s.threads[a])
    && StatusOk(s.threads[a])
  }

  // ----- all together -----

  ghost predicate ObjectOk(s: State, o: nat)
    requires o in s.objs
  {
    ObjOk(s.objs[o]) && RightsOk(s, o, s.objs[o]) && ClaimsOk(s, o, s.objs[o])
  }

  ghost predicate Inv(s: State) {
    && (forall o {:trigger ObjectOk(s, o)} | o in s.objs :: ObjectOk(s, o))
    && (forall i {:trigger OpOk(s, i)} | i in s.ops :: OpOk(s, i))
    && (forall a {:trigger ThreadOk(s, a)} | a in s.threads :: ThreadOk(s, a))
  }

  lemma InitialInv(s: State)
    requires Initial(s)
    ensures Inv(s)
  {
  }
}
