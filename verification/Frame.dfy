/** Every step moves at most one operation and touches at most one object and
    one thread record. What the other operations rely on is stated once, and
    one lemma puts the parts of the invariant back together. */
module Frame {
  import opened Words
  import opened Protocol
  import opened Invariant

  /** The object an operation is working on. */
  function ObjOf(pc: Pc): Option<nat> {
    if pc.RaiseFlag? || pc.DropArc? || pc.CollectUpgrade? || pc.CollectPop? || pc.CollectReset?
       || pc.CollectCheck? || pc.Drain? || pc.DeathSwap? || pc.DeathArc? || pc.DeathDead? || pc.Panicked?
    then None
    else Some(pc.o)
  }

  /** The thread record in which an operation holds a right. */
  function QueueOf(pc: Pc): Option<nat> {
    if pc.Push? || pc.RaiseFlag? || pc.DropArc? || pc.CollectPop? || pc.CollectReset?
       || pc.CollectCheck? || pc.Drain? || pc.DeathSwap? || pc.DeathArc? || pc.DeathDead?
    then Some(pc.a)
    else None
  }

  // ----- the change one step makes -----

  /** Only operation `m` of thread `t` moves, only `o` and `a` change. */
  ghost predicate Moves(s: State, s': State, m: nat, t: nat, o: Option<nat>, a: Option<nat>) {
    && (forall j | j in s.ops && j != m :: j in s'.ops && s'.ops[j] == s.ops[j])
    && (forall j | j in s'.ops && j != m :: j in s.ops)
    && (m in s.ops ==>
          && s.ops[m].tid == t
          && (ObjOf(s.ops[m].pc).Some? ==> ObjOf(s.ops[m].pc) == o)
          && (QueueOf(s.ops[m].pc).Some? ==> QueueOf(s.ops[m].pc) == a))
    && (t in s.busy ==> s.busy[t] == m)
    && (forall u | u in s.busy && u != t :: u in s'.busy && s'.busy[u] == s.busy[u])
    && (forall p | p in s.objs && Some(p) != o :: p in s'.objs && s'.objs[p] == s.objs[p])
    && (forall p | p in s'.objs && Some(p) != o :: p in s.objs)
    && (o.Some? && o.value in s.objs ==> o.value in s'.objs)
    && (forall b | b in s.threads && Some(b) != a :: b in s'.threads && s'.threads[b] == s.threads[b])
    && s.threads.Keys == s'.threads.Keys
  }

  // ----- what the other operations rely on -----

  ghost predicate RightsKept(j: nat, x: Obj, x': Obj) {
    && x'.creator == x.creator
    && (forall h | h in x.claims && x.claims[h] == j :: h in x'.claims && x'.claims[h] == j)
    && (x.phase == Carried(j) ==> x'.phase == x.phase)
    && (x.life == Doomed(j) || x.life == Destroying(j) ==> x'.life == x.life)
    && (x.unowner == Some(j) ==> x'.unowner == x.unowner)
    && (x.locker == Some(j) ==> x'.locker == x.locker)
    && (x.freer == Some(j) ==> x'.freer == x.freer)
  }

  ghost predicate HandlesKept(j: nat, pc: Pc, o: nat, x: Obj, x': Obj) {
    && (forall h | Borrows(pc, o, ByStrong(h)) && h in x.strong && h !in x.claims ::
          h in x'.strong && h !in x'.claims)
    && (forall h | Borrows(pc, o, ByWeak(h)) && h in x.weaks :: h in x'.weaks)
    && (forall h | h in x.claims && x.claims[h] == j && x.strong == {h} && x.weaks == {} ::
          x'.strong == x.strong && x'.weaks == x.weaks)
  }

  ghost predicate WordsKept(s: State, j: nat, o: nat, x: Obj, x': Obj)
    requires j in s.ops
  {
    var t, pc := s.ops[j].tid, s.ops[j].pc;
    && (x.sw.merged ==> x'.sw.merged)
    && (!Suspended(pc) && Owns(s, t, o) ==> !x'.sw.merged && x'.bw == x.bw)
    && (!Suspended(pc) && x.phase == Carried(j) && x.creator.Some? && MayMerge(s, t, x.creator.value) ==>
          x'.bw == x.bw)
  }

  ghost predicate ObjRely(s: State, j: nat, o: nat, x: Obj, x': Obj)
    requires j in s.ops
  {
    && RightsKept(j, x, x')
    && HandlesKept(j, s.ops[j].pc, o, x, x')
    && WordsKept(s, j, o, x, x')
  }

  ghost predicate ThreadRely(s: State, j: nat, a: nat, x: Thread, x': Thread)
    requires j in s.ops
  {
    && (a == s.ops[j].tid && (Suspended(s.ops[j].pc) ==> x.status != Fresh) ==> x'.status == x.status)
    && (x.status == Departed ==> x'.status == Departed)
    && (HeldBy(j) in x.arc ==> HeldBy(j) in x'.arc)
    && (x.arc == {} && x.status == Departed ==> x'.arc == {})
    && (x.drainer == Some(j) <==> x'.drainer == Some(j))
    && (x.death == Some(j) ==>
          && x'.death == Some(j)
          && (IsLive(x.flag) ==> IsLive(x'.flag))
          && (x.flag == Dying ==> x'.flag == Dying)
          && (Home in x.arc <==> Home in x'.arc))
  }

  lemma Unchanged(s: State, j: nat, o: nat, x: Obj)
    requires j in s.ops && o in s.objs && s.objs[o] == x
    ensures ObjRely(s, j, o, x, x)
  {
  }

  ghost predicate Rely(s: State, s': State, j: nat)
    requires j in s.ops
  {
    && j in s'.ops && s'.ops[j] == s.ops[j]
    && (!Suspended(s.ops[j].pc) ==> s.ops[j].tid in s'.busy && s'.busy[s.ops[j].tid] == j)
    && (forall o | o in s.objs :: o in s'.objs && ObjRely(s, j, o, s.objs[o], s'.objs[o]))
    && (forall a | a in s.threads :: a in s'.threads && ThreadRely(s, j, a, s.threads[a], s'.threads[a]))
  }

  /** The part of `Rely` that concerns the object and the threads of one operation. */
  ghost predicate RelyOn(s: State, s': State, j: nat, o: nat)
    requires j in s.ops
  {
    && o in s.objs && o in s'.objs && ObjRely(s, j, o, s.objs[o], s'.objs[o])
    && ObjOk(s.objs[o])
    && RelyThread(s, s', j, s.ops[j].tid)
  }

  ghost predicate RelyThread(s: State, s': State, j: nat, a: nat)
    requires j in s.ops
  {
    a in s.threads && a in s'.threads && ThreadRely(s, j, a, s.threads[a], s'.threads[a])
  }

  predicate UsesHandle(pc: Pc) {
    pc.IncStore? || pc.CloneShared? || pc.UpgradeShared? || pc.DropStore? || pc.DropMerge? || pc.DropShared?
  }

  lemma StableHandle(s: State, s': State, j: nat, o: nat)
    requires j in s.ops && RelyOn(s, s', j, o) && ObjOf(s.ops[j].pc) == Some(o)
    requires UsesHandle(s.ops[j].pc)
    requires PcOk(s, j, s.ops[j].tid, s.ops[j].pc)
    ensures PcOk(s', j, s.ops[j].tid, s.ops[j].pc)
  {
  }

  predicate Retires(pc: Pc) {
    pc.StoreUnowned? || pc.StartDestroy? || pc.RunDestructor? || pc.Free?
  }

  lemma StableRetire(s: State, s': State, j: nat, o: nat)
    requires j in s.ops && RelyOn(s, s', j, o) && ObjOf(s.ops[j].pc) == Some(o)
    requires Retires(s.ops[j].pc)
    requires PcOk(s, j, s.ops[j].tid, s.ops[j].pc)
    ensures PcOk(s', j, s.ops[j].tid, s.ops[j].pc)
  {
  }

  lemma StableCarry(s: State, s': State, j: nat, o: nat)
    requires j in s.ops && RelyOn(s, s', j, o) && Carries(s.ops[j].pc, o)
    requires s.objs[o].creator.Some? && RelyThread(s, s', j, s.objs[o].creator.value)
    requires PcOk(s, j, s.ops[j].tid, s.ops[j].pc)
    ensures PcOk(s', j, s.ops[j].tid, s.ops[j].pc)
  {
  }

  lemma StableUnique(s: State, s': State, j: nat, o: nat)
    requires j in s.ops && RelyOn(s, s', j, o) && ObjOf(s.ops[j].pc) == Some(o)
    requires AsksUnique(s.ops[j].pc) || s.ops[j].pc.HoldMut?
    requires PcOk(s, j, s.ops[j].tid, s.ops[j].pc)
    ensures PcOk(s', j, s.ops[j].tid, s.ops[j].pc)
  {
  }

  lemma StableCount(s: State, s': State, j: nat, o: nat)
    requires j in s.ops && RelyOn(s, s', j, o) && ObjOf(s.ops[j].pc) == Some(o)
    requires s.ops[j].pc.CountBiased? || s.ops[j].pc.Counted?
    requires PcOk(s, j, s.ops[j].tid, s.ops[j].pc)
    ensures PcOk(s', j, s.ops[j].tid, s.ops[j].pc)
  {
  }

  lemma StableQueue(s: State, s': State, j: nat)
    requires j in s.ops && RelyThread(s, s', j, s.ops[j].tid)
    requires ObjOf(s.ops[j].pc) == None
    requires QueueOf(s.ops[j].pc).Some? ==> RelyThread(s, s', j, QueueOf(s.ops[j].pc).value)
    requires PcOk(s, j, s.ops[j].tid, s.ops[j].pc)
    ensures PcOk(s', j, s.ops[j].tid, s.ops[j].pc)
  {
  }

  lemma RelyOnObject(s: State, s': State, j: nat, o: nat)
    requires j in s.ops && OpOk(s, j) && Rely(s, s', j) && ObjOf(s.ops[j].pc) == Some(o)
    requires o in s.objs ==> ObjOk(s.objs[o])
    ensures RelyOn(s, s', j, o)
  {
  }

  lemma OwnerIsThere(s: State, j: nat, o: nat)
    requires j in s.ops && OpOk(s, j) && Carries(s.ops[j].pc, o)
    requires o in s.objs && ObjOk(s.objs[o]) && RightsOk(s, o, s.objs[o])
    ensures s.objs[o].creator.Some? && s.objs[o].creator.value in s.threads
  {
  }

  lemma QueueIsThere(s: State, j: nat, a: nat)
    requires j in s.ops && OpOk(s, j) && ObjOf(s.ops[j].pc) == None && QueueOf(s.ops[j].pc) == Some(a)
    ensures a in s.threads
  {
  }

  lemma RelyOnThread(s: State, s': State, j: nat, a: nat)
    requires j in s.ops && Rely(s, s', j) && a in s.threads
    ensures RelyThread(s, s', j, a)
  {
  }

  lemma StableOn(s: State, s': State, j: nat, o: nat)
    requires j in s.ops && RelyOn(s, s', j, o) && ObjOf(s.ops[j].pc) == Some(o)
    requires Carries(s.ops[j].pc, o) ==>
               s.objs[o].creator.Some? && RelyThread(s, s', j, s.objs[o].creator.value)
    requires PcOk(s, j, s.ops[j].tid, s.ops[j].pc)
    ensures PcOk(s', j, s.ops[j].tid, s.ops[j].pc)
  {
    if UsesHandle(s.ops[j].pc) { StableHandle(s, s', j, o); }
    else if Retires(s.ops[j].pc) { StableRetire(s, s', j, o); }
    else if Carries(s.ops[j].pc, o) { StableCarry(s, s', j, o); }
    else if AsksUnique(s.ops[j].pc) || s.ops[j].pc.HoldMut? { StableUnique(s, s', j, o); }
    else { StableCount(s, s', j, o); }
  }

  /** An operation that did not move still has what it relies on. */
  lemma Stable(s: State, s': State, j: nat)
    requires j in s.ops && OpOk(s, j) && Rely(s, s', j)
    requires ObjOf(s.ops[j].pc).Some? && ObjOf(s.ops[j].pc).value in s.objs ==>
               && ObjOk(s.objs[ObjOf(s.ops[j].pc).value])
               && RightsOk(s, ObjOf(s.ops[j].pc).value, s.objs[ObjOf(s.ops[j].pc).value])
    ensures OpOk(s', j)
  {
    match ObjOf(s.ops[j].pc)
    case None =>
      RelyOnThread(s, s', j, s.ops[j].tid);
      if QueueOf(s.ops[j].pc).Some? {
        QueueIsThere(s, j, QueueOf(s.ops[j].pc).value);
        RelyOnThread(s, s', j, QueueOf(s.ops[j].pc).value);
      }
      StableQueue(s, s', j);
    case Some(o) =>
      RelyOnObject(s, s', j, o);
      if Carries(s.ops[j].pc, o) {
        OwnerIsThere(s, j, o);
        RelyOnThread(s, s', j, s.objs[o].creator.value);
      }
      StableOn(s, s', j, o);
  }

  // ----- the parts of the invariant a step did not touch -----

  /** The operations on `p` did not move. */
  ghost predicate OpsKept(s: State, s': State, p: nat) {
    forall j | j in s.ops && ObjOf(s.ops[j].pc) == Some(p) :: j in s'.ops && s'.ops[j] == s.ops[j]
  }

  lemma OthersKept(s: State, s': State, m: nat, t: nat, o: Option<nat>, a: Option<nat>, p: nat)
    requires Moves(s, s', m, t, o, a) && Some(p) != o
    ensures OpsKept(s, s', p)
  {
  }

  lemma HeldFrame(s: State, s': State, p: nat)
    requires p in s.objs && OpsKept(s, s', p) && HeldOk(s, p, s.objs[p])
    ensures HeldOk(s', p, s.objs[p])
  {
  }

  lemma OwnerFrame(s: State, s': State, o: Option<nat>, p: nat)
    requires p in s.objs && Some(p) != o && OpsKept(s, s', p) && OwnerOk(s, p, s.objs[p])
    requires s.objs[p].creator.Some? && s.objs[p].creator.value in s.threads ==>
               && StatusKept(s, s', s.objs[p].creator.value)
               && QueueKept(s, s', s.objs[p].creator.value, o)
    ensures OwnerOk(s', p, s.objs[p])
  {
  }

  /** An object the step did not touch keeps its rights. */
  lemma RightsFrame(s: State, s': State, m: nat, t: nat, o: Option<nat>, a: Option<nat>, p: nat)
    requires Moves(s, s', m, t, o, a)
    requires p in s.objs && Some(p) != o && RightsOk(s, p, s.objs[p])
    requires s.objs[p].creator.Some? && s.objs[p].creator.value in s.threads ==>
               && StatusKept(s, s', s.objs[p].creator.value)
               && QueueKept(s, s', s.objs[p].creator.value, o)
    ensures RightsOk(s', p, s.objs[p])
  {
    OthersKept(s, s', m, t, o, a, p);
    HeldFrame(s, s', p);
    OwnerFrame(s, s', o, p);
  }

  lemma ClaimsFrame(s: State, s': State, m: nat, t: nat, o: Option<nat>, a: Option<nat>, p: nat)
    requires Moves(s, s', m, t, o, a)
    requires p in s.objs && Some(p) != o && ClaimsOk(s, p, s.objs[p])
    ensures ClaimsOk(s', p, s.objs[p])
  {
  }

  /** A participating thread stays one, and a departed thread stays departed. */
  ghost predicate StatusKept(s: State, s': State, b: nat)
    requires b in s.threads
  {
    && b in s'.threads
    && (s.threads[b].status == Registered ==>
          || s'.threads[b].status == Registered
          || (s'.threads[b].status == Departed && forall j | j in s.ops :: s.ops[j].tid != b))
    && (s.threads[b].status == Departed ==> s'.threads[b].status == Departed)
  }

  /** Only the touched object may leave a queue. */
  ghost predicate QueueKept(s: State, s': State, b: nat, o: Option<nat>)
    requires b in s.threads
  {
    && b in s'.threads
    && forall p | p in s.threads[b].queue && Some(p) != o :: p in s'.threads[b].queue
  }

  /** While the object waits, it stays as its queue expects it. */
  ghost predicate WaitingKept(s: State, s': State, o: nat, b: nat)
    requires b in s.threads
  {
    o in s.threads[b].queue ==>
      && o in s'.objs && s'.objs[o].phase == Waiting && s'.objs[o].creator == Some(b)
  }

  lemma QueueFrame(s: State, s': State, m: nat, t: nat, o: Option<nat>, a: Option<nat>, b: nat)
    requires Moves(s, s', m, t, o, a)
    requires b in s.threads && QueueOk(s, b, s.threads[b].queue)
    requires o.Some? ==> WaitingKept(s, s', o.value, b)
    ensures QueueOk(s', b, s.threads[b].queue)
  {
  }

  lemma ArcFrame(s: State, s': State, m: nat, t: nat, o: Option<nat>, a: Option<nat>, b: nat)
    requires Moves(s, s', m, t, o, a)
    requires b in s.threads && Some(b) != a
    requires ArcOk(s, b, s.threads[b])
    ensures ArcOk(s', b, s.threads[b])
  {
  }

  lemma ThreadFrame(s: State, s': State, m: nat, t: nat, o: Option<nat>, a: Option<nat>, b: nat)
    requires Moves(s, s', m, t, o, a)
    requires b in s.threads && Some(b) != a && ThreadOk(s, b)
    requires o.Some? ==> WaitingKept(s, s', o.value, b)
    ensures b in s'.threads && ThreadOk(s', b)
  {
    QueueFrame(s, s', m, t, o, a, b);
    ArcFrame(s, s', m, t, o, a, b);
  }

  /** Nobody else of the moving thread is in straight-line code. */
  lemma RelyFrame(s: State, s': State, m: nat, t: nat, o: Option<nat>, a: Option<nat>, j: nat)
    requires Moves(s, s', m, t, o, a)
    requires j in s.ops && j != m && OpOk(s, j)
    requires o.Some? && o.value in s.objs ==>
               o.value in s'.objs && ObjRely(s, j, o.value, s.objs[o.value], s'.objs[o.value])
    requires a.Some? && a.value in s.threads ==>
               a.value in s'.threads && ThreadRely(s, j, a.value, s.threads[a.value], s'.threads[a.value])
    ensures Rely(s, s', j)
  {
  }

  // ----- putting the invariant back together -----

  ghost predicate OthersRely(s: State, s': State, m: nat, o: Option<nat>, a: Option<nat>) {
    && (o.Some? && o.value in s.objs ==>
          && o.value in s'.objs
          && forall j | j in s.ops && j != m ::
               ObjRely(s, j, o.value, s.objs[o.value], s'.objs[o.value]))
    && (a.Some? && a.value in s.threads ==>
          && a.value in s'.threads
          && forall j | j in s.ops && j != m ::
               ThreadRely(s, j, a.value, s.threads[a.value], s'.threads[a.value]))
  }

  lemma Recompose(s: State, s': State, m: nat, t: nat, o: Option<nat>, a: Option<nat>)
    requires Inv(s) && Moves(s, s', m, t, o, a) && OthersRely(s, s', m, o, a)
    requires m in s'.ops ==> OpOk(s', m)
    requires o.Some? && o.value in s'.objs ==> ObjectOk(s', o.value)
    requires o.Some? ==> forall b | b in s.threads && Some(b) != a :: WaitingKept(s, s', o.value, b)
    requires a.Some? && a.value in s.threads ==>
               && StatusKept(s, s', a.value) && QueueKept(s, s', a.value, o)
               && ThreadOk(s', a.value)
    ensures Inv(s')
  {
    forall b | b in s.threads
      ensures StatusKept(s, s', b) && QueueKept(s, s', b, o)
    {
      if Some(b) != a { assert s'.threads[b] == s.threads[b]; }
    }
    forall j | j in s'.ops
      ensures OpOk(s', j)
    {
      if j != m {
        assert OpOk(s, j);
        RelyFrame(s, s', m, t, o, a, j);
        if ObjOf(s.ops[j].pc).Some? && ObjOf(s.ops[j].pc).value in s.objs {
          assert ObjectOk(s, ObjOf(s.ops[j].pc).value);
        }
        Stable(s, s', j);
      }
    }
    forall p | p in s'.objs
      ensures ObjectOk(s', p)
    {
      if Some(p) != o {
        assert ObjectOk(s, p);
        assert s'.objs[p] == s.objs[p];
        RightsFrame(s, s', m, t, o, a, p);
        ClaimsFrame(s, s', m, t, o, a, p);
      }
    }
    forall b | b in s'.threads
      ensures ThreadOk(s', b)
    {
      if Some(b) != a {
        assert ThreadOk(s, b);
        ThreadFrame(s, s', m, t, o, a, b);
      }
    }
  }

  // ----- steps that touch one object -----

  /** Every right the object records afterwards is an old one of another
      operation, or is one the mover holds at its new position. */
  ghost predicate RightsFrom(s': State, m: nat, o: nat, x: Obj, x': Obj) {
    var pc := if m in s'.ops then s'.ops[m].pc else Panicked;
    && x'.creator == x.creator
    && (x'.phase.Carried? ==> if x'.phase.op == m then Carries(pc, o) else x'.phase == x.phase)
    && (x'.life.Doomed? ==>
          if x'.life.op == m then pc == StartDestroy(o) || pc == StoreUnowned(o, Condemn)
          else x'.life == x.life)
    && (x'.life.Destroying? ==>
          if x'.life.op == m then pc == RunDestructor(o) else x'.life == x.life)
    && (x'.unowner.Some? ==>
          if x'.unowner.value == m then
            && pc.StoreUnowned? && pc.o == o && x.creator.Some?
            && MayMerge(s', s'.ops[m].tid, x.creator.value)
          else x'.unowner == x.unowner)
    && (x'.locker.Some? ==>
          if x'.locker.value == m then IsLocker(pc, o) else x'.locker == x.locker)
    && (x'.freer.Some? ==> if x'.freer.value == m then pc == Free(o) else x'.freer == x.freer)
    && (forall h | h in x'.claims ::
          if x'.claims[h] == m then Claims(pc, o, h)
          else h in x.claims && x.claims[h] == x'.claims[h])
  }

  ghost predicate RightsMoved(s': State, m: nat, o: nat, x: Obj, x': Obj) {
    && RightsFrom(s', m, o, x, x')
    && (x.phase == Waiting <==> x'.phase == Waiting)
  }

  lemma TouchedRights(s: State, s': State, m: nat, t: nat, o: nat, a: Option<nat>)
    requires Moves(s, s', m, t, Some(o), a)
    requires o in s.objs && RightsOk(s, o, s.objs[o]) && ClaimsOk(s, o, s.objs[o])
    requires RightsFrom(s', m, o, s.objs[o], s'.objs[o])
    requires s.objs[o].creator.Some? && s.objs[o].creator.value in s.threads ==>
               StatusKept(s, s', s.objs[o].creator.value)
    requires s'.objs[o].phase == Waiting ==> InItsQueue(s', o, s'.objs[o])
    ensures RightsOk(s', o, s'.objs[o]) && ClaimsOk(s', o, s'.objs[o])
  {
  }

  ghost predicate InItsQueue(s: State, o: nat, x: Obj) {
    x.creator.Some? && x.creator.value in s.threads && o in s.threads[x.creator.value].queue
  }

  ghost predicate ObjRelied(s: State, m: nat, o: nat, x': Obj) {
    && o in s.objs
    && forall j | j in s.ops && j != m :: ObjRely(s, j, o, s.objs[o], x')
  }

  lemma StillWaiting(s: State, s': State, o: nat, b: nat)
    requires b in s.threads && ThreadOk(s, b)
    requires o in s.objs && o in s'.objs
    requires s.objs[o].phase == Waiting ==> s'.objs[o].phase == Waiting
    requires s'.objs[o].creator == s.objs[o].creator
    ensures WaitingKept(s, s', o, b)
  {
  }

  lemma RecomposeObj(s: State, s': State, m: nat, t: nat, o: nat)
    requires Inv(s) && Moves(s, s', m, t, Some(o), None)
    requires o in s.objs && ObjRelied(s, m, o, s'.objs[o])
    requires m in s'.ops ==> OpOk(s', m)
    requires ObjOk(s'.objs[o]) && RightsMoved(s', m, o, s.objs[o], s'.objs[o])
    ensures Inv(s')
  {
    assert ObjectOk(s, o);
    TouchedRights(s, s', m, t, o, None);
    forall b | b in s.threads
      ensures WaitingKept(s, s', o, b)
    {
      assert ThreadOk(s, b);
      StillWaiting(s, s', o, b);
    }
    Recompose(s, s', m, t, Some(o), None);
  }

  // ----- the shapes of s' -----

  /** The step may have written object `o` and thread `a` before moving the operation. */
  ghost predicate Wrote(s: State, s1: State, o: Option<nat>, a: Option<nat>) {
    && s1.ops == s.ops && s1.busy == s.busy
    && (forall p | p in s.objs && Some(p) != o :: p in s1.objs && s1.objs[p] == s.objs[p])
    && (forall p | p in s1.objs && Some(p) != o :: p in s.objs)
    && (o.Some? && o.value in s.objs ==> o.value in s1.objs)
    && (forall b | b in s.threads && Some(b) != a :: b in s1.threads && s1.threads[b] == s.threads[b])
    && s.threads.Keys == s1.threads.Keys
  }

  ghost predicate AreaOf(pc: Pc, o: Option<nat>, a: Option<nat>) {
    && (ObjOf(pc).Some? ==> ObjOf(pc) == o)
    && (QueueOf(pc).Some? ==> QueueOf(pc) == a)
  }

  lemma GoMoves(s: State, s1: State, i: nat, pc: Pc, o: Option<nat>, a: Option<nat>)
    requires Runs(s, i) && OpOk(s, i) && AreaOf(s.ops[i].pc, o, a) && Wrote(s, s1, o, a)
    ensures Moves(s, Go(s1, i, pc), i, s.ops[i].tid, o, a)
  {
  }

  lemma EndMoves(s: State, s1: State, i: nat, o: Option<nat>, a: Option<nat>)
    requires Runs(s, i) && OpOk(s, i) && AreaOf(s.ops[i].pc, o, a) && Wrote(s, s1, o, a)
    ensures Moves(s, End(s1, i), i, s.ops[i].tid, o, a)
  {
  }

  lemma BeginMoves(s: State, s1: State, t: nat, i: nat, pc: Pc, o: Option<nat>, a: Option<nat>)
    requires Idle(s, t) && i !in s.ops && Wrote(s, s1, o, a)
    ensures Moves(s, Begin(s1, t, i, pc), i, t, o, a)
  {
  }

  // ----- steps that write object `o` as `x'` -----

  ghost predicate Touches(s: State, i: nat, o: nat) {
    && Runs(s, i) && o in s.objs
    && AreaOf(s.ops[i].pc, Some(o), None)
  }

  lemma GoKeeps(s: State, s': State, i: nat, o: nat, x': Obj, pc: Pc)
    requires Inv(s) && Touches(s, i, o) && ObjRelied(s, i, o, x')
    requires s' == Go(Put(s, o, x'), i, pc)
    requires OpOk(s', i) && ObjOk(x') && RightsMoved(s', i, o, s.objs[o], x')
    ensures Inv(s')
  {
    assert OpOk(s, i);
    GoMoves(s, Put(s, o, x'), i, pc, Some(o), None);
    RecomposeObj(s, s', i, s.ops[i].tid, o);
  }

  lemma EndKeeps(s: State, s': State, i: nat, o: nat, x': Obj)
    requires Inv(s) && Touches(s, i, o) && ObjRelied(s, i, o, x')
    requires s' == End(Put(s, o, x'), i)
    requires ObjOk(x') && RightsMoved(s', i, o, s.objs[o], x')
    ensures Inv(s')
  {
    assert OpOk(s, i);
    EndMoves(s, Put(s, o, x'), i, Some(o), None);
    RecomposeObj(s, s', i, s.ops[i].tid, o);
  }

  lemma BeginKeeps(s: State, s': State, t: nat, i: nat, o: nat, x': Obj, pc: Pc)
    requires Inv(s) && Idle(s, t) && i !in s.ops && o in s.objs && ObjRelied(s, i, o, x')
    requires s' == Begin(Put(s, o, x'), t, i, pc)
    requires OpOk(s', i) && ObjOk(x') && RightsMoved(s', i, o, s.objs[o], x')
    ensures Inv(s')
  {
    BeginMoves(s, Put(s, o, x'), t, i, pc, Some(o), None);
    RecomposeObj(s, s', i, t, o);
  }

  ghost predicate SameRights(x: Obj, x': Obj) {
    && x'.creator == x.creator && x'.claims == x.claims && x'.phase == x.phase && x'.life == x.life
    && x'.unowner == x.unowner && x'.locker == x.locker && x'.freer == x.freer
  }

  /** A call that is a single access. */
  lemma PutKeeps(s: State, s': State, t: nat, o: nat, x': Obj)
    requires Inv(s) && Idle(s, t) && o in s.objs
    requires s' == Put(s, o, x')
    requires forall j | j in s.ops :: ObjRely(s, j, o, s.objs[o], x')
    requires SameRights(s.objs[o], x') && ObjOk(x')
    ensures Inv(s')
  {
    var m := Unused(s.ops.Keys);
    assert ObjectOk(s, o);
    RecomposeObj(s, s', m, t, o);
  }

  /** A name nobody has, for a call that leaves no operation behind. */
  lemma Unused(names: set<nat>) returns (m: nat)
    ensures m !in names
  {
    m := 0;
    var bound := 0;
    var rest := names;
    while rest != {}
      invariant rest <= names
      invariant forall n | n in names && n !in rest :: n < bound
    {
      var n :| n in rest;
      rest := rest - {n};
      if n >= bound { bound := n + 1; }
    }
    m := bound;
  }

  lemma UnchangedRelied(s: State, m: nat, o: nat)
    requires o in s.objs
    ensures ObjRelied(s, m, o, s.objs[o])
  {
  }

  // ----- steps that touch one thread record -----

  ghost predicate ThreadRelied(s: State, m: nat, a: nat, y': Thread) {
    && a in s.threads
    && forall j | j in s.ops && j != m :: ThreadRely(s, j, a, s.threads[a], y')
  }

  /** The object the mover is working on, if any, is not written. */
  ghost predicate ObjSame(s: State, s': State, m: nat, o: Option<nat>) {
    o.Some? ==>
      && o.value in s.objs && o.value in s'.objs && s'.objs[o.value] == s.objs[o.value]
      && RightsMoved(s', m, o.value, s.objs[o.value], s.objs[o.value])
  }

  /** Every right the record names afterwards is an old one of another
      operation, or is one the mover holds at its new position. */
  ghost predicate ArcFrom(s': State, m: nat, a: nat, y: Thread, y': Thread) {
    var pc := if m in s'.ops then s'.ops[m].pc else Panicked;
    && (forall i | HeldBy(i) in y'.arc :: if i == m then HoldsArc(pc, a) else HeldBy(i) in y.arc)
    && (y'.drainer.Some? ==>
          if y'.drainer.value == m then pc.Drain? && pc.a == a else y'.drainer == y.drainer)
    && (y'.death.Some? ==>
          if y'.death.value == m then IsDeath(pc, a) else y'.death == y.death)
  }

  lemma TouchedThread(s: State, s': State, m: nat, t: nat, o: Option<nat>, a: nat)
    requires Moves(s, s', m, t, o, Some(a)) && a in s.threads
    requires ArcOk(s, a, s.threads[a])
    requires ArcFrom(s', m, a, s.threads[a], s'.threads[a])
    ensures ArcOk(s', a, s'.threads[a])
  {
  }

  lemma RecomposeThread(s: State, s': State, m: nat, t: nat, o: Option<nat>, a: nat)
    requires Inv(s) && Moves(s, s', m, t, o, Some(a)) && ObjSame(s, s', m, o)
    requires a in s'.threads && ThreadRelied(s, m, a, s'.threads[a])
    requires StatusKept(s, s', a) && s'.threads[a].queue == s.threads[a].queue
    requires ArcFrom(s', m, a, s.threads[a], s'.threads[a]) && StatusOk(s'.threads[a])
    requires m in s'.ops ==> OpOk(s', m)
    ensures Inv(s')
  {
    assert ThreadOk(s, a);
    forall b | b in s.threads
      ensures StatusKept(s, s', b) && s.threads[b].queue == s'.threads[b].queue
    {
      if b != a { assert s'.threads[b] == s.threads[b]; }
    }
    if o.Some? {
      assert ObjectOk(s, o.value);
      TouchedRights(s, s', m, t, o.value, Some(a));
      forall b | b in s.threads
        ensures WaitingKept(s, s', o.value, b)
      {
        assert ThreadOk(s, b);
        StillWaiting(s, s', o.value, b);
      }
      forall j | j in s.ops
        ensures ObjRely(s, j, o.value, s.objs[o.value], s'.objs[o.value])
      {
        Unchanged(s, j, o.value, s.objs[o.value]);
      }
    }
    QueueFrame(s, s', m, t, o, Some(a), a);
    TouchedThread(s, s', m, t, o, a);
    Recompose(s, s', m, t, o, Some(a));
  }

  lemma GoSame(s: State, s': State, i: nat, o: nat, pc: Pc)
    requires Inv(s) && Touches(s, i, o)
    requires s' == Go(s, i, pc)
    requires OpOk(s', i) && RightsMoved(s', i, o, s.objs[o], s.objs[o])
    ensures Inv(s')
  {
    assert ObjectOk(s, o);
    UnchangedRelied(s, i, o);
    assert s' == Go(Put(s, o, s.objs[o]), i, pc);
    GoKeeps(s, s', i, o, s.objs[o], pc);
  }

  ghost predicate InArea(s: State, i: nat, o: Option<nat>, a: nat) {
    && Runs(s, i) && AreaOf(s.ops[i].pc, o, Some(a)) && a in s.threads
  }

  lemma GoThread(s: State, s': State, i: nat, o: Option<nat>, a: nat, y': Thread, pc: Pc)
    requires Inv(s) && InArea(s, i, o, a) && ThreadRelied(s, i, a, y')
    requires s' == Go(PutThread(s, a, y'), i, pc)
    requires ObjSame(s, s', i, o)
    requires StatusKept(s, s', a) && y'.queue == s.threads[a].queue
    requires ArcFrom(s', i, a, s.threads[a], y') && StatusOk(y')
    requires OpOk(s', i)
    ensures Inv(s')
  {
    assert OpOk(s, i);
    GoMoves(s, PutThread(s, a, y'), i, pc, o, Some(a));
    RecomposeThread(s, s', i, s.ops[i].tid, o, a);
  }

  lemma EndThread(s: State, s': State, i: nat, a: nat, y': Thread)
    requires Inv(s) && InArea(s, i, None, a) && ThreadRelied(s, i, a, y')
    requires s' == End(PutThread(s, a, y'), i)
    requires StatusKept(s, s', a) && y'.queue == s.threads[a].queue
    requires ArcFrom(s', i, a, s.threads[a], y') && StatusOk(y')
    ensures Inv(s')
  {
    assert OpOk(s, i);
    EndMoves(s, PutThread(s, a, y'), i, None, Some(a));
    RecomposeThread(s, s', i, s.ops[i].tid, None, a);
  }

  lemma BeginThread(s: State, s': State, t: nat, i: nat, a: nat, y': Thread, pc: Pc)
    requires Inv(s) && Idle(s, t) && i !in s.ops && ThreadRelied(s, i, a, y')
    requires s' == Begin(PutThread(s, a, y'), t, i, pc)
    requires StatusKept(s, s', a) && y'.queue == s.threads[a].queue
    requires ArcFrom(s', i, a, s.threads[a], y') && StatusOk(y')
    requires OpOk(s', i)
    ensures Inv(s')
  {
    BeginMoves(s, PutThread(s, a, y'), t, i, pc, None, Some(a));
    RecomposeThread(s, s', i, t, None, a);
  }

  // ----- entering and leaving a queue -----

  ghost predicate QueueMove(s: State, s': State, o: nat, a: nat) {
    && o in s.objs && o in s'.objs && s.objs[o].creator == Some(a)
    && a in s.threads && a in s'.threads
    && s'.threads[a].status == s.threads[a].status
    && QueueKept(s, s', a, Some(o))
    && (s'.objs[o].phase == Waiting ==> InItsQueue(s', o, s'.objs[o]))
  }

  lemma RecomposeQueue(s: State, s': State, m: nat, t: nat, o: nat, a: nat)
    requires Inv(s) && Moves(s, s', m, t, Some(o), Some(a)) && QueueMove(s, s', o, a)
    requires ObjRelied(s, m, o, s'.objs[o]) && ThreadRelied(s, m, a, s'.threads[a])
    requires ObjOk(s'.objs[o]) && RightsFrom(s', m, o, s.objs[o], s'.objs[o])
    requires ThreadOk(s', a)
    requires m in s'.ops ==> OpOk(s', m)
    ensures Inv(s')
  {
    assert ObjectOk(s, o);
    forall b | b in s.threads
      ensures StatusKept(s, s', b)
    {
      if b != a { assert s'.threads[b] == s.threads[b]; }
    }
    TouchedRights(s, s', m, t, o, Some(a));
    forall b | b in s.threads && b != a
      ensures WaitingKept(s, s', o, b)
    {
      assert ThreadOk(s, b);
    }
    Recompose(s, s', m, t, Some(o), Some(a));
  }
}
