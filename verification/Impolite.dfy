/** What happens without politeness. The raw `fetch_add(1)` of a shared clone
    carries out of a count of -1 into the merged bit, and an upgrade from -1
    leaves a queued object that its owner may merge. */
module Impolite {
  import opened Words
  import opened Protocol
  import opened Invariant
  import opened CountSteps
  import opened Preservation

  /** The two words count the handles. */
  ghost predicate Counts(s: State, o: nat) {
    o in s.objs && Total(s.objs[o].bw, s.objs[o].sw) == |s.objs[o].strong|
  }

  /** From any state that satisfies the invariant, a shared clone keeps it, and
      keeps the count right, if and only if the shared count is not -1. */
  lemma CloneKeepsIffNotMinusOne(s: State, s': State, i: nat, h': nat)
    requires Inv(s) && CloneSharedStep(s, s', i, h')
    ensures Inv(s') <==> s.objs[s.ops[i].pc.o].sw.count != -1
    ensures Counts(s', s.ops[i].pc.o) <==> s.objs[s.ops[i].pc.o].sw.count != -1
  {
    var o := s.ops[i].pc.o;
    if s.objs[o].sw.count != -1 {
      CloneSharedPreserves(s, s', i, h');
      assert ObjectOk(s', o);
    } else {
      assert At(s, i, o);
      BrokenByCarry(s, s', o, h');
    }
  }

  lemma BrokenByCarry(s: State, s': State, o: nat, h': nat)
    requires o in s.objs && ObjectOk(s, o) && s.objs[o].sw.count == -1
    requires h' !in s.objs[o].strong
    requires o in s'.objs && s'.objs[o] == SharedIncrement(s.objs[o], h')
    ensures IsExhausted(s'.objs[o].sw) && !ObjectOk(s', o)
    ensures Total(s'.objs[o].bw, s'.objs[o].sw) == 0 < |s'.objs[o].strong|
  {
  }

  lemma DirectCloneKeepsIffNotMinusOne(s: State, s': State, t: nat, o: nat, h: nat, h': nat)
    requires Inv(s) && CloneDirect(s, s', t, o, h, h')
    ensures Inv(s') <==> s.objs[o].sw.count != -1
    ensures Counts(s', o) <==> s.objs[o].sw.count != -1
  {
    if s.objs[o].sw.count != -1 {
      CloneDirectPreserves(s, s', t, o, h, h');
      assert ObjectOk(s', o);
    } else {
      assert ObjectOk(s, o);
      BrokenByCarry(s, s', o, h');
    }
  }

  /** The owner's merge keeps the invariant if and only if the object is not
      queued; otherwise somebody is left carrying a merged object, or a queue is
      left holding one. */
  lemma ImplicitMergeKeepsIffNotQueued(s: State, s': State, i: nat)
    requires Inv(s) && DropMergeStep(s, s', i)
    ensures Inv(s') <==> !s.objs[s.ops[i].pc.o].sw.queued
    ensures var o := s.ops[i].pc.o;
      o in s'.objs && s'.objs[o].sw.merged
      && (s'.objs[o].phase.Carried? || s'.objs[o].phase.Waiting? <==> s.objs[o].sw.queued)
  {
    var o := s.ops[i].pc.o;
    assert At(s, i, o);
    if !s.objs[o].sw.queued {
      DropMergePreserves(s, s', i);
    } else {
      assert !ObjectOk(s', o);
    }
  }

  /** Politeness is exactly what the invariant needs of a step. */
  lemma StepKeepsIffPolite(s: State, s': State, step: Step)
    requires Inv(s) && Next(s, s', step)
    ensures Inv(s') <==> Polite(s, step)
  {
    if Polite(s, step) {
      StepPreserves(s, s', step);
    } else if step.StepCloneDirect? {
      DirectCloneKeepsIffNotMinusOne(s, s', step.t, step.o, step.h, step.h');
    } else if s.ops[step.i].pc.CloneShared? {
      CloneKeepsIffNotMinusOne(s, s', step.i, step.f);
    } else {
      ImplicitMergeKeepsIffNotQueued(s, s', step.i);
    }
  }

  // ----- a run that gets there -----

  const OWNER: nat := 1
  const DROPPER: nat := 2
  const CLONER: nat := 3

  ghost function Threads(owner: Thread): map<nat, Thread> {
    var newborn := Thread(Fresh, Live, {}, [], None, None);
    map[OWNER := owner, DROPPER := newborn, CLONER := newborn]
  }

  ghost function With(x: Obj, ops: map<nat, Op>, busy: map<nat, nat>): State {
    State(map[0 := x], ops, busy, Threads(Thread(Registered, Live, {Home}, [], None, None)))
  }

  /** Two handles, both counted in the biased word. */
  ghost function Twice(): Obj {
    NewObj(Some(OWNER)).(bw := BiasedWord(Some(OWNER), 2), strong := {0, 1})
  }

  /** Handle 0 was dropped by another thread. */
  ghost function AtMinusOne(): Obj {
    Twice().(sw := SharedWord(-1, false, true), strong := {1}, phase := Carried(0))
  }

  /** A run that ends in `s`. */
  ghost predicate Arrives(states: seq<State>, steps: seq<Step>, s: State) {
    IsRun(states, steps) && states[|steps|] == s
  }

  lemma Extend(states: seq<State>, steps: seq<Step>, s: State, s': State, step: Step)
    requires Arrives(states, steps, s) && Next(s, s', step)
    ensures Arrives(states + [s'], steps + [step], s')
  {
    var xs, ps := states + [s'], steps + [step];
    forall k | 0 <= k < |ps|
      ensures LinkAt(xs, ps, k)
    {
      if k < |steps| { assert LinkAt(states, steps, k); }
    }
  }

  lemma OwnerCreates() returns (states: seq<State>, steps: seq<Step>)
    ensures Arrives(states, steps, With(NewObj(Some(OWNER)), map[], map[]))
  {
    var s0 := State(map[], map[], map[], Threads(Thread(Fresh, Live, {}, [], None, None)));
    var s1 := s0.(threads := Threads(Thread(Registered, Live, {Home}, [], None, None)));
    var s2 := With(NewObj(Some(OWNER)), map[], map[]);
    assert s1 == PutThread(s0, OWNER, Thread(Registered, Live, {Home}, [], None, None));
    assert s2 == Put(s1, 0, NewObj(Some(OWNER)));
    assert Arrives([s0], [], s0);
    Extend([s0], [], s0, s1, StepInit(OWNER, false));
    Extend([s0] + [s1], [] + [StepInit(OWNER, false)], s1, s2, StepCreate(OWNER, 0));
    states := [s0] + [s1] + [s2];
    steps := [] + [StepInit(OWNER, false)] + [StepCreate(OWNER, 0)];
  }

  lemma OwnerClones(xs: seq<State>, ps: seq<Step>) returns (states: seq<State>, steps: seq<Step>)
    requires Arrives(xs, ps, With(NewObj(Some(OWNER)), map[], map[]))
    ensures Arrives(states, steps, With(Twice(), map[], map[]))
  {
    var s2 := With(NewObj(Some(OWNER)), map[], map[]);
    var s3 := With(NewObj(Some(OWNER)), map[0 := Op(OWNER, IncStore(0, ByStrong(0), 1))], map[OWNER := 0]);
    var s4 := With(Twice(), map[], map[]);
    assert s3 == Begin(s2, OWNER, 0, IncStore(0, ByStrong(0), 1));
    var x := NewObj(Some(OWNER)).(bw := BiasedWord(Some(OWNER), 2), strong := {0} + {1});
    assert x == Twice();
    assert s4 == End(Put(s3, 0, x), 0);
    assert IncStoreStep(s3, s4, 0, 1);
    Extend(xs, ps, s2, s3, StepClone(OWNER, 0, 0, 0));
    states, steps := xs + [s3], ps + [StepClone(OWNER, 0, 0, 0)];
    Extend(states, steps, s3, s4, Access(0, 1));
    states, steps := states + [s4], steps + [Access(0, 1)];
  }

  ghost function Dropping(): State {
    With(Twice().(claims := map[0 := 0]), map[0 := Op(DROPPER, DropShared(0, 0))], map[DROPPER := 0])
  }

  ghost function Dropped(): State {
    With(AtMinusOne(), map[0 := Op(DROPPER, LoadOwner(0))], map[DROPPER := 0])
  }

  lemma DropFollows()
    ensures Next(With(Twice(), map[], map[]), Dropping(), StepDrop(DROPPER, 0, 0, 0))
  {
    var y := Twice().(claims := map[0 := 0]);
    assert Dropping() == Begin(Put(With(Twice(), map[], map[]), 0, y), DROPPER, 0, DropShared(0, 0));
  }

  lemma CasFollows()
    ensures Next(Dropping(), Dropped(), Access(0, 0))
  {
    var y := Twice().(claims := map[0 := 0]);
    assert y.strong - {0} == {1} && y.claims - {0} == map[];
    assert SharedDropped(y, 0, 0) == AtMinusOne();
    assert Dropped() == Go(Put(Dropping(), 0, AtMinusOne()), 0, LoadOwner(0));
    assert DropSharedStep(Dropping(), Dropped(), 0);
  }

  lemma AnotherDrops(xs: seq<State>, ps: seq<Step>) returns (states: seq<State>, steps: seq<Step>)
    requires Arrives(xs, ps, With(Twice(), map[], map[]))
    ensures Arrives(states, steps, Dropped())
  {
    DropFollows();
    Extend(xs, ps, With(Twice(), map[], map[]), Dropping(), StepDrop(DROPPER, 0, 0, 0));
    states, steps := xs + [Dropping()], ps + [StepDrop(DROPPER, 0, 0, 0)];
    CasFollows();
    Extend(states, steps, Dropping(), Dropped(), Access(0, 0));
    states, steps := states + [Dropped()], steps + [Access(0, 0)];
  }

  lemma ThirdClones(xs: seq<State>, ps: seq<Step>) returns (states: seq<State>, steps: seq<Step>)
    requires Arrives(xs, ps, Dropped())
    ensures Arrives(states, steps, Put(Dropped(), 0, SharedIncrement(AtMinusOne(), 2)))
  {
    var s7 := Begin(Dropped(), CLONER, 1, CloneShared(0, 1));
    var s8 := Put(Dropped(), 0, SharedIncrement(AtMinusOne(), 2));
    assert s8 == End(Put(s7, 0, SharedIncrement(AtMinusOne(), 2)), 1);
    assert CloneSharedStep(s7, s8, 1, 2);
    Extend(xs, ps, Dropped(), s7, StepClone(CLONER, 1, 0, 1));
    states, steps := xs + [s7], ps + [StepClone(CLONER, 1, 0, 1)];
    Extend(states, steps, s7, s8, Access(1, 2));
    states, steps := states + [s8], steps + [Access(1, 2)];
  }

  /** The owner creates an object and clones it, another thread drops one of
      the handles, a third thread clones the other: two handles live on, and the
      shared word says the object is merged with a count of zero. */
  lemma CarryLosesTwoHandles() returns (states: seq<State>, steps: seq<Step>)
    ensures IsRun(states, steps)
    ensures var x := states[|steps|].objs;
      0 in x && x[0].strong == {1, 2} && IsExhausted(x[0].sw) && x[0].destroys == 0
  {
    states, steps := OwnerCreates();
    states, steps := OwnerClones(states, steps);
    states, steps := AnotherDrops(states, steps);
    states, steps := ThirdClones(states, steps);
  }

  // ----- a run that goes wrong through an upgrade -----

  ghost function WithAWeak(): Obj {
    NewObj(Some(OWNER)).(weak := 2, weaks := {0})
  }

  /** The only handle was dropped by another thread. */
  ghost function OwesOne(): Obj {
    WithAWeak().(sw := SharedWord(-1, false, true), strong := {}, phase := Carried(0))
  }

  ghost function Owing(): State {
    With(OwesOne(), map[0 := Op(DROPPER, LoadOwner(0))], map[DROPPER := 0])
  }

  ghost function Upgraded(): Obj {
    OwesOne().(sw := SharedWord(0, false, true), strong := {2})
  }

  lemma OwnerDowngrades(xs: seq<State>, ps: seq<Step>) returns (states: seq<State>, steps: seq<Step>)
    requires Arrives(xs, ps, With(NewObj(Some(OWNER)), map[], map[]))
    ensures Arrives(states, steps, With(WithAWeak(), map[], map[]))
  {
    var s, s' := With(NewObj(Some(OWNER)), map[], map[]), With(WithAWeak(), map[], map[]);
    var x := NewObj(Some(OWNER));
    assert x.weaks + {0} == {0};
    assert s' == Put(s, 0, x.(weak := x.weak + 1, weaks := x.weaks + {0}));
    Extend(xs, ps, s, s', StepDowngrade(OWNER, 0, 0, 0));
    states, steps := xs + [s'], ps + [StepDowngrade(OWNER, 0, 0, 0)];
  }

  lemma LastHandleDrops(xs: seq<State>, ps: seq<Step>) returns (states: seq<State>, steps: seq<Step>)
    requires Arrives(xs, ps, With(WithAWeak(), map[], map[]))
    ensures Arrives(states, steps, Owing())
  {
    var s, y := With(WithAWeak(), map[], map[]), WithAWeak().(claims := map[0 := 0]);
    var s' := With(y, map[0 := Op(DROPPER, DropShared(0, 0))], map[DROPPER := 0]);
    assert s' == Begin(Put(s, 0, y), DROPPER, 0, DropShared(0, 0));
    Extend(xs, ps, s, s', StepDrop(DROPPER, 0, 0, 0));
    states, steps := xs + [s'], ps + [StepDrop(DROPPER, 0, 0, 0)];
    assert y.strong - {0} == {} && y.claims - {0} == map[];
    assert SharedDropped(y, 0, 0) == OwesOne();
    assert Owing() == Go(Put(s', 0, OwesOne()), 0, LoadOwner(0));
    assert DropSharedStep(s', Owing(), 0);
    Extend(states, steps, s', Owing(), Access(0, 0));
    states, steps := states + [Owing()], steps + [Access(0, 0)];
  }

  lemma ThirdUpgrades(xs: seq<State>, ps: seq<Step>) returns (states: seq<State>, steps: seq<Step>)
    requires Arrives(xs, ps, Owing())
    ensures Arrives(states, steps, Owing().(objs := map[0 := Upgraded()]))
  {
    var s := Begin(Owing(), CLONER, 1, UpgradeShared(0, 0));
    var s' := Owing().(objs := map[0 := Upgraded()]);
    Extend(xs, ps, Owing(), s, StepUpgrade(CLONER, 1, 0, 0));
    states, steps := xs + [s], ps + [StepUpgrade(CLONER, 1, 0, 0)];
    assert OwesOne().strong + {2} == {2};
    assert s' == End(Put(s, 0, Upgraded()), 1);
    assert UpgradeSharedStep(s, s', 1, 2);
    Extend(states, steps, s, s', Access(1, 2));
    states, steps := states + [s'], steps + [Access(1, 2)];
  }

  ghost function Retiring(): State {
    Owing().(objs := map[0 := Upgraded().(claims := map[2 := 2])],
             ops := Owing().ops[2 := Op(OWNER, DropMerge(0, 2))], busy := Owing().busy[OWNER := 2])
  }

  lemma OwnerStartsDropping(xs: seq<State>, ps: seq<Step>) returns (states: seq<State>, steps: seq<Step>)
    requires Arrives(xs, ps, Owing().(objs := map[0 := Upgraded()]))
    ensures Arrives(states, steps, Retiring())
  {
    var s, y := Owing().(objs := map[0 := Upgraded()]), Upgraded().(claims := map[2 := 2]);
    assert s.ops[0].pc == LoadOwner(0);
    assert Retiring() == Begin(Put(s, 0, y), OWNER, 2, DropMerge(0, 2));
    Extend(xs, ps, s, Retiring(), StepDrop(OWNER, 2, 0, 2));
    states, steps := xs + [Retiring()], ps + [StepDrop(OWNER, 2, 0, 2)];
  }

  lemma OwnerRetires(xs: seq<State>, ps: seq<Step>) returns (states: seq<State>, steps: seq<Step>)
    requires Arrives(xs, ps, Retiring())
    ensures IsRun(states, steps)
    ensures var s := states[|steps|];
      0 in s.objs && s.objs[0] == MergedAway(Upgraded().(claims := map[2 := 2]), 2, 2)
      && 0 in s.ops && s.ops[0].pc == LoadOwner(0)
  {
    var s := Go(Put(Retiring(), 0, MergedAway(Retiring().objs[0], 2, 2)), 2, StoreUnowned(0, Condemn));
    assert DropMergeStep(Retiring(), s, 2);
    Extend(xs, ps, Retiring(), s, Access(2, 0));
    states, steps := xs + [s], ps + [Access(2, 0)];
  }

  /** The owner creates an object and downgrades, another thread drops the
      handle, a third upgrades from the shared count of -1, and the owner drops
      that handle: the object is condemned while an operation still carries it
      to the queue, which no polite run allows. */
  lemma UpgradeRetiresQueued() returns (states: seq<State>, steps: seq<Step>)
    ensures IsRun(states, steps)
    ensures var s := states[|steps|];
      && 0 in s.objs && 0 in s.ops && Carries(s.ops[0].pc, 0) && s.objs[0].phase == Carried(0)
      && IsExhausted(s.objs[0].sw) && s.objs[0].life.Doomed?
  {
    states, steps := OwnerCreates();
    states, steps := OwnerDowngrades(states, steps);
    states, steps := LastHandleDrops(states, steps);
    states, steps := ThirdUpgrades(states, steps);
    states, steps := OwnerStartsDropping(states, steps);
    states, steps := OwnerRetires(states, steps);
  }
}
