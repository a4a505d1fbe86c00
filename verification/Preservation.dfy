/** Every polite step keeps the invariant, so it holds throughout every polite run. */
module Preservation {
  import opened Protocol
  import opened Invariant
  import opened CountSteps
  import opened QueueSteps
  import opened WeakSteps
  import opened ThreadSteps

  lemma CountAccessPreserves(s: State, s': State, i: nat, f: nat)
    requires Inv(s) && CountAccess(s, s', i, f) && Polite(s, Access(i, f))
    ensures Inv(s')
  {
    match s.ops[i].pc
    case IncStore(_, _, _) => IncStorePreserves(s, s', i, f);
    case CloneShared(_, _) => CloneSharedPreserves(s, s', i, f);
    case UpgradeShared(_, _) => UpgradeSharedPreserves(s, s', i, f);
    case DropStore(_, _, _) => DropStorePreserves(s, s', i);
    case DropMerge(_, _) => DropMergePreserves(s, s', i);
    case DropShared(_, _) => DropSharedPreserves(s, s', i);
    case StoreUnowned(_, _) => StoreUnownedPreserves(s, s', i);
  }

  lemma QueueAccessPreserves(s: State, s': State, i: nat)
    requires Inv(s) && QueueAccess(s, s', i)
    ensures Inv(s')
  {
    match s.ops[i].pc
    case LoadOwner(_) => LoadOwnerPreserves(s, s', i);
    case UpgradeQueue(_, _) => UpgradeQueuePreserves(s, s', i);
    case Push(_, _) => PushPreserves(s, s', i);
    case RaiseFlag(_) => RaiseFlagPreserves(s, s', i);
    case DropArc(_) => DropArcPreserves(s, s', i);
    case CheckDead(_, _) => CheckDeadPreserves(s, s', i);
    case MergeLoad(_, _) => MergeLoadPreserves(s, s', i);
    case MergeCas(_, _, _) => MergeCasPreserves(s, s', i);
  }

  lemma WeakAccessPreserves(s: State, s': State, i: nat)
    requires Inv(s) && WeakAccess(s, s', i)
    ensures Inv(s')
  {
    match s.ops[i].pc
    case StartDestroy(_) => StartDestroyPreserves(s, s', i);
    case RunDestructor(_) => ReleasePreserves(s, s', i);
    case Free(_) => FreePreserves(s, s', i);
    case LockWeak(_, _, _) => LockWeakPreserves(s, s', i);
    case UniqueShared(_, _, _) => UniqueSharedPreserves(s, s', i);
    case UniqueBiased(_, _, _, _, _) => UniqueBiasedPreserves(s, s', i);
    case UnlockWeak(_, _, _, _, _) => UnlockWeakPreserves(s, s', i);
    case HoldMut(_, _) => ReturnMutPreserves(s, s', i);
    case CountBiased(_, _, _, _) => CountBiasedPreserves(s, s', i);
    case Counted(_, _, _, _) => CountReturnPreserves(s, s', i);
  }

  lemma ThreadAccessPreserves(s: State, s': State, i: nat, f: nat)
    requires Inv(s) && ThreadAccess(s, s', i, f)
    ensures Inv(s')
  {
    match s.ops[i].pc
    case CollectUpgrade(_) => CollectUpgradePreserves(s, s', i);
    case CollectPop(_) => CollectPopPreserves(s, s', i, f);
    case CollectReset(_) => CollectResetPreserves(s, s', i);
    case CollectCheck(_) => CollectCheckPreserves(s, s', i);
    case Drain(_, _) => DrainPreserves(s, s', i, f);
    case DeathSwap(_) => DeathSwapPreserves(s, s', i);
    case DeathArc(_) => DeathArcPreserves(s, s', i);
    case DeathDead(_) => DeathDeadPreserves(s, s', i);
  }

  lemma AccessPreserves(s: State, s': State, i: nat, f: nat)
    requires Inv(s) && AccessStep(s, s', i, f) && Polite(s, Access(i, f))
    ensures Inv(s')
  {
    if CountAccess(s, s', i, f) { CountAccessPreserves(s, s', i, f); }
    else if QueueAccess(s, s', i) { QueueAccessPreserves(s, s', i); }
    else if WeakAccess(s, s', i) { WeakAccessPreserves(s, s', i); }
    else { ThreadAccessPreserves(s, s', i, f); }
  }

  lemma StepPreserves(s: State, s': State, step: Step)
    requires Inv(s) && Next(s, s', step) && Polite(s, step)
    ensures Inv(s')
  {
    match step
    case StepInit(t, exhausted) => InitPreserves(s, s', t, exhausted);
    case StepDeath(t, i) => DeathBeginPreserves(s, s', t, i);
    case StepCreate(t, o) => CreatePreserves(s, s', t, o);
    case StepClone(t, i, o, h) => CloneBeginPreserves(s, s', t, i, o, h);
    case StepCloneDirect(t, o, h, h') => CloneDirectPreserves(s, s', t, o, h, h');
    case StepUpgrade(t, i, o, h) => UpgradeBeginPreserves(s, s', t, i, o, h);
    case StepDrop(t, i, o, h) => DropBeginPreserves(s, s', t, i, o, h);
    case StepDowngrade(t, o, h, w') => AddWeakKeeps(s, s', t, o, w');
    case StepWeakClone(t, o, h, w') => AddWeakKeeps(s, s', t, o, w');
    case StepWeakDrop(t, i, o, h) => WeakDropPreserves(s, s', t, i, o, h);
    case StepUnique(t, i, o, h, exclusive) => UniqueBeginPreserves(s, s', t, i, o, h, exclusive);
    case StepCount(t, i, o, via) => CountBeginPreserves(s, s', t, i, o, via);
    case StepCollect(t, i) => CollectBeginPreserves(s, s', t, i);
    case Access(i, f) => AccessPreserves(s, s', i, f);
  }

  lemma {:induction false} StretchPreserves(states: seq<State>, steps: seq<Step>, k: nat)
    requires IsPoliteStretch(states, steps) && k < |states| && Inv(states[0])
    ensures Inv(states[k])
  {
    if k > 0 {
      StretchPreserves(states, steps, k - 1);
      assert PoliteAt(states, steps, k - 1);
      StepPreserves(states[k - 1], states[k], steps[k - 1]);
    }
  }

  /** The invariant holds in every state of every polite run. */
  lemma ReachedInv(s: State)
    requires Reached(s)
    ensures Inv(s)
  {
    var s0 :| Initial(s0) && Leads(s0, s);
    var states, steps :|
      IsPoliteStretch(states, steps) && states[0] == s0 && states[|steps|] == s;
    InitialInv(s0);
    StretchPreserves(states, steps, |steps|);
  }

  lemma Joined(xs: seq<State>, ps: seq<Step>, ys: seq<State>, qs: seq<Step>)
    requires IsPoliteStretch(xs, ps) && IsPoliteStretch(ys, qs) && xs[|ps|] == ys[0]
    ensures IsPoliteStretch(xs + ys[1..], ps + qs)
    ensures (xs + ys[1..])[0] == xs[0] && (xs + ys[1..])[|ps + qs|] == ys[|qs|]
  {
    var states, steps := xs + ys[1..], ps + qs;
    assert forall k | 0 <= k <= |ps| :: states[k] == xs[k];
    assert forall k | |ps| <= k <= |steps| :: states[k] == ys[k - |ps|];
    forall k | 0 <= k < |steps|
      ensures PoliteAt(states, steps, k)
    {
      if k < |ps| {
        assert PoliteAt(xs, ps, k);
      } else {
        assert PoliteAt(ys, qs, k - |ps|);
      }
    }
  }

  /** A polite run can go on from a reached state. */
  lemma LeadsReached(s: State, s': State)
    requires Reached(s) && Leads(s, s')
    ensures Reached(s')
  {
    var s0 :| Initial(s0) && Leads(s0, s);
    var xs, ps :| IsPoliteStretch(xs, ps) && xs[0] == s0 && xs[|ps|] == s;
    var ys, qs :| IsPoliteStretch(ys, qs) && ys[0] == s && ys[|qs|] == s';
    Joined(xs, ps, ys, qs);
  }
}
