/** A world of values that hold handles to other objects: what it means for its
    words, handles and queues to agree, and the single changes that keep them so. */
module HandleWorld {
  import opened Words

  /** A handle is held by the program, or is a field of an object's value. */
  datatype Holder = Root | In(o: nat)

  datatype Handle = Handle(target: nat, holder: Holder)

  datatype Cell = Cell(bw: BiasedWord, sw: SharedWord, destroyed: bool)

  /** `open` are the owners whose queue can still be upgraded, `raised` those
      whose flag is `QueuedObjects`. */
  datatype World = World(
    cells: map<nat, Cell>, handles: map<nat, Handle>,
    queues: map<nat, seq<nat>>, open: set<nat>, raised: set<nat>)

  /** What is going on: an object taken off a queue, or about to go onto one,
      the objects whose destructors are on the stack, and the threads that are
      inside `collect_force`. */
  datatype Stack = Stack(carried: Option<nat>, running: set<nat>, looping: set<nat>)

  /** What other threads are going to do: some thread drops handle `h`, or they
      all wait until this thread has made its next step. */
  datatype Visit = Drops(thread: nat, h: nat) | Wait

  function Planned(others: seq<Visit>): set<nat> {
    set k | 0 <= k < |others| && others[k].Drops? :: others[k].h
  }

  function Visitors(others: seq<Visit>): set<nat> {
    set k | 0 <= k < |others| && others[k].Drops? :: others[k].thread
  }

  /** No handle is dropped twice. */
  ghost predicate AreDistinct(others: seq<Visit>) {
    forall j, k | 0 <= j < k < |others| && others[j].Drops? && others[k].Drops? :: others[j].h != others[k].h
  }

  function HandlesTo(w: World, o: nat): set<nat> {
    set h | h in w.handles && w.handles[h].target == o
  }

  /** The handles the value of `o` still holds. */
  function Contents(w: World, o: nat): set<nat> {
    set h | h in w.handles && w.handles[h].holder == In(o)
  }

  predicate AsksForMerge(c: Cell) {
    !c.sw.merged && c.sw.queued
  }

  /** The two words of a cell agree with the handles to it and its flags. */
  ghost predicate CellOk(w: World, t: Stack, o: nat) {
    o in w.cells ==>
      var c := w.cells[o];
      && Total(c.bw, c.sw) == |HandlesTo(w, o)|
      && (c.destroyed <==> IsExhausted(c.sw))
      && (c.sw.merged ==> c.bw == UNOWNED)
      && (!c.sw.merged ==>
            && c.bw.owner.Some? && 1 <= c.bw.count <= BIASED_MAX
            && (c.sw.queued <==> c.sw.count < 0))
      && (AsksForMerge(c) && Some(o) != t.carried ==>
            c.bw.owner.value in w.queues && o in w.queues[c.bw.owner.value])
      && (o in t.running ==> c.destroyed)
      && (Some(o) == t.carried ==> AsksForMerge(c))
  }

  ghost predicate HandleOk(w: World, t: Stack, h: nat) {
    h in w.handles ==>
      && w.handles[h].target in w.cells
      && (w.handles[h].holder.In? ==>
            var p := w.handles[h].holder.o;
            p in w.cells && (w.cells[p].destroyed ==> p in t.running))
  }

  ghost predicate QueueOk(w: World, t: Stack, a: nat) {
    a in w.queues ==>
      var q := w.queues[a];
      && (q != [] && a in w.open ==> a in w.raised || a in t.looping)
      && (forall o | o in q ::
            && o in w.cells && Some(o) != t.carried
            && AsksForMerge(w.cells[o]) && w.cells[o].bw.owner == Some(a))
      && (forall k, l | 0 <= k < l < |q| :: q[k] != q[l])
  }

  ghost predicate Ok(w: World, t: Stack) {
    && (forall o {:trigger CellOk(w, t, o)} :: CellOk(w, t, o))
    && (forall h {:trigger HandleOk(w, t, h)} :: HandleOk(w, t, h))
    && (forall a {:trigger QueueOk(w, t, a)} :: QueueOk(w, t, a))
    && (t.carried.Some? ==> t.carried.value in w.cells)
    && t.running <= w.cells.Keys
    && w.open <= w.queues.Keys
  }

  function Unmerged(w: World): set<nat> {
    set o | o in w.cells && !w.cells[o].sw.merged
  }

  /** Every drop consumes a handle, every merge an unmerged object, and every
      call of another thread one of the calls to come. */
  ghost function Work(w: World, others: seq<Visit>): nat {
    |w.handles| + |Unmerged(w)| + |others|
  }

  ghost predicate IsDestroyed(w: World, o: nat) {
    o in w.cells ==> w.cells[o].destroyed
  }

  /** From `v` to `w` only handles in `dropped` and fields of destroyed values
      are gone, no object came back to life or changed its owner otherwise than
      by a merge, and the threads outside `ran` only found their queues longer. */
  ghost predicate Kept(v: World, w: World, ran: set<nat>, dropped: set<nat>) {
    && w.handles.Keys <= v.handles.Keys
    && (forall h | h in w.handles :: w.handles[h] == v.handles[h])
    && (forall h | h in v.handles && h !in dropped && v.handles[h].holder == Root :: h in w.handles)
    && (forall h | h in v.handles && h !in dropped && v.handles[h].holder.In? ::
          h in w.handles || IsDestroyed(w, v.handles[h].holder.o))
    && w.cells.Keys == v.cells.Keys && w.queues.Keys == v.queues.Keys && w.open == v.open
    && (forall o | o in v.cells :: CellKept(v.cells[o], w.cells[o]))
    && (forall a | a in v.queues && a !in ran :: v.queues[a] <= w.queues[a])
    && (forall a | a in v.raised && a !in ran :: a in w.raised)
  }

  ghost predicate CellKept(c: Cell, d: Cell) {
    && (c.destroyed ==> d.destroyed)
    && (c.sw.merged ==> d.sw.merged)
    && (!d.sw.merged ==> d.bw.owner == c.bw.owner && (c.sw.queued ==> d.sw.queued))
  }

  lemma KeptTrans(u: World, v: World, w: World, ran: set<nat>, d: set<nat>, e: set<nat>)
    requires Kept(u, v, ran, d) && Kept(v, w, ran, e)
    ensures Kept(u, w, ran, d + e)
  {
    forall o | o in u.cells
      ensures CellKept(u.cells[o], w.cells[o])
    {
      assert CellKept(u.cells[o], v.cells[o]) && CellKept(v.cells[o], w.cells[o]);
    }
  }

  lemma StaysMerged(v: World, w: World, o: nat, ran: set<nat>, d: set<nat>)
    requires Kept(v, w, ran, d) && o in v.cells && v.cells[o].sw.merged
    ensures o in w.cells && w.cells[o].sw.merged
  {
    assert CellKept(v.cells[o], w.cells[o]);
  }

  /** What was queued for `self` has been merged. */
  ghost predicate IsCollected(v: World, w: World, self: nat) {
    self in v.queues && forall o | o in v.queues[self] :: o in w.cells && w.cells[o].sw.merged
  }

  lemma StaysCollected(u: World, v: World, w: World, self: nat, ran: set<nat>, d: set<nat>)
    requires IsCollected(u, v, self) && Kept(v, w, ran, d)
    ensures IsCollected(u, w, self)
  {
    forall o | o in u.queues[self]
      ensures o in w.cells && w.cells[o].sw.merged
    {
      StaysMerged(v, w, o, ran, d);
    }
  }

  /** A queue found empty later has had all its objects merged. */
  lemma QueueEmptied(v: World, t: Stack, w: World, t': Stack, self: nat, ran: set<nat>, d: set<nat>)
    requires Ok(v, t) && Ok(w, t') && Kept(v, w, ran, d) && t'.carried == None
    requires self in v.queues && w.queues[self] == []
    ensures IsCollected(v, w, self)
  {
    assert QueueOk(v, t, self);
    forall o | o in v.queues[self]
      ensures o in w.cells && w.cells[o].sw.merged
    {
      assert CellKept(v.cells[o], w.cells[o]);
      assert CellOk(w, t', o);
    }
  }

  lemma KeptMore(v: World, w: World, ran: set<nat>, d: set<nat>, ran': set<nat>, d': set<nat>)
    requires Kept(v, w, ran, d) && ran <= ran' && d <= d'
    ensures Kept(v, w, ran', d')
  {
  }

  /** The calls to come at a later point are among those at an earlier one. */
  ghost predicate Later(p: seq<Visit>, q: seq<Visit>) {
    |q| <= |p| && Planned(q) <= Planned(p) && Visitors(q) <= Visitors(p)
  }

  /** What a call of thread `self` that drops `own`, and the calls of others in
      between, do to the world. */
  ghost predicate Proceeds(v: World, p: seq<Visit>, w: World, q: seq<Visit>, self: nat, own: set<nat>) {
    Later(p, q) && Kept(v, w, Visitors(p) + {self}, Planned(p) + own)
  }

  lemma ProceedsTrans(u: World, p: seq<Visit>, v: World, q: seq<Visit>, w: World, r: seq<Visit>,
                      self: nat, d: set<nat>, e: set<nat>)
    requires Proceeds(u, p, v, q, self, d) && Proceeds(v, q, w, r, self, e)
    ensures Proceeds(u, p, w, r, self, d + e)
  {
    KeptMore(v, w, Visitors(q) + {self}, Planned(q) + e, Visitors(p) + {self}, Planned(p) + e);
    KeptTrans(u, v, w, Visitors(p) + {self}, Planned(p) + d, Planned(p) + e);
    assert Planned(p) + d + (Planned(p) + e) == Planned(p) + (d + e);
  }

  /** A step of this thread alone. */
  lemma Steps(v: World, w: World, p: seq<Visit>, self: nat, own: set<nat>)
    requires Kept(v, w, {self}, own)
    ensures Proceeds(v, p, w, p, self, own)
  {
    KeptMore(v, w, {self}, own, Visitors(p) + {self}, Planned(p) + own);
  }

  // Single changes of the world.

  function Lose(w: World, h: nat, o: nat, c: Cell): World {
    w.(handles := w.handles - {h}, cells := w.cells[o := c])
  }

  function Enqueue(w: World, a: nat, o: nat): World
    requires a in w.queues
  {
    w.(queues := w.queues[a := w.queues[a] + [o]], raised := w.raised + {a})
  }

  lemma {:induction false} FewerOrEqual(a: set<nat>, b: set<nat>)
    requires a <= b
    ensures |a| <= |b|
  {
    if a != {} {
      var x :| x in a;
      FewerOrEqual(a - {x}, b - {x});
    }
  }

  lemma LoseCounts(w: World, h: nat, o: nat, c: Cell)
    requires h in w.handles && w.handles[h].target == o
    ensures |HandlesTo(Lose(w, h, o, c), o)| == |HandlesTo(w, o)| - 1
    ensures forall p | p != o :: HandlesTo(Lose(w, h, o, c), p) == HandlesTo(w, p)
    ensures |Lose(w, h, o, c).handles| == |w.handles| - 1
    ensures o in w.cells && (w.cells[o].sw.merged ==> c.sw.merged) ==>
              |Unmerged(Lose(w, h, o, c))| <= |Unmerged(w)|
  {
    var w' := Lose(w, h, o, c);
    if o in w.cells && (w.cells[o].sw.merged ==> c.sw.merged) {
      assert Unmerged(w') <= Unmerged(w);
      FewerOrEqual(Unmerged(w'), Unmerged(w));
    }
    assert HandlesTo(w', o) == HandlesTo(w, o) - {h};
    assert h in HandlesTo(w, o);
    assert w'.handles.Keys == w.handles.Keys - {h};
    assert |w'.handles.Keys| == |w'.handles| && |w.handles.Keys| == |w.handles|;
  }

  /** Changing the cell of `o` (and perhaps losing a handle to it) concerns only `o`. */
  lemma ChangeKeeps(w: World, w': World, t: Stack, t': Stack, o: nat)
    requires Ok(w, t) && o in w.cells && o in w'.cells
    requires w'.cells == w.cells[o := w'.cells[o]]
    requires w'.queues == w.queues && w'.open == w.open && w'.raised == w.raised
    requires w'.handles.Keys <= w.handles.Keys
    requires forall h | h in w'.handles :: w'.handles[h] == w.handles[h]
    requires forall p | p != o :: HandlesTo(w', p) == HandlesTo(w, p)
    requires t.running <= t'.running <= t.running + {o} && t'.looping == t.looping
    requires t'.carried == t.carried || (Some(o) == t.carried && t'.carried == None)
             || (t.carried == None && t'.carried == Some(o))
    requires CellOk(w', t', o)
    requires w'.cells[o].destroyed ==> w.cells[o].destroyed || o in t'.running
    requires AsksForMerge(w.cells[o]) && t.carried != Some(o) ==>
               AsksForMerge(w'.cells[o]) && w'.cells[o].bw.owner == w.cells[o].bw.owner && t'.carried != Some(o)
    ensures Ok(w', t')
  {
    forall p ensures CellOk(w', t', p) { assert CellOk(w, t, p); }
    forall h ensures HandleOk(w', t', h) { assert HandleOk(w, t, h); }
    forall a ensures QueueOk(w', t', a) { assert QueueOk(w, t, a); }
  }

  /** Handing the carried object over to its live owner. */
  lemma EnqueueKeeps(w: World, t: Stack, o: nat)
    requires Ok(w, t) && t.carried == Some(o)
    requires w.cells[o].bw.owner.Some? && w.cells[o].bw.owner.value in w.queues
    ensures Ok(Enqueue(w, w.cells[o].bw.owner.value, o), t.(carried := None))
  {
    var a := w.cells[o].bw.owner.value;
    var w', t' := Enqueue(w, a, o), t.(carried := None);
    forall p ensures CellOk(w', t', p) {
      assert CellOk(w, t, p);
      assert HandlesTo(w', p) == HandlesTo(w, p);
    }
    forall h ensures HandleOk(w', t', h) { assert HandleOk(w, t, h); }
    forall b ensures QueueOk(w', t', b) {
      assert QueueOk(w, t, b);
      assert CellOk(w, t, o);
    }
  }

  /** Taking the first object of a queue. */
  lemma PopKeeps(w: World, w': World, t: Stack, a: nat)
    requires Ok(w, t) && t.carried == None && a in w.queues && w.queues[a] != []
    requires w' == w.(queues := w.queues[a := w.queues[a][1..]])
    ensures Ok(w', t.(carried := Some(w.queues[a][0])))
    ensures w.queues[a][0] in w.cells && w.cells[w.queues[a][0]].bw.owner == Some(a)
    ensures Kept(w, w', {a}, {}) && Unmerged(w') == Unmerged(w)
  {
    var o := w.queues[a][0];
    var t' := t.(carried := Some(o));
    assert QueueOk(w, t, a);
    forall p ensures CellOk(w', t', p) {
      assert CellOk(w, t, p);
      assert HandlesTo(w', p) == HandlesTo(w, p);
      if p != o && p in w.queues[a] { assert p in w.queues[a][1..]; }
    }
    forall h ensures HandleOk(w', t', h) { assert HandleOk(w, t, h); }
    forall b ensures QueueOk(w', t', b) {
      assert QueueOk(w, t, b);
      assert CellOk(w, t, o);
    }
  }

  /** A field becomes a handle of the running destructor. */
  lemma MoveKeeps(w: World, w': World, t: Stack, h: nat)
    requires Ok(w, t) && h in w.handles
    requires w' == w.(handles := w.handles[h := w.handles[h].(holder := Root)])
    ensures Ok(w', t) && |w'.handles| == |w.handles|
  {
    forall p ensures CellOk(w', t, p) {
      assert CellOk(w, t, p);
      assert HandlesTo(w', p) == HandlesTo(w, p);
    }
    forall g ensures HandleOk(w', t, g) { assert HandleOk(w, t, g) && HandleOk(w, t, h); }
    forall b ensures QueueOk(w', t, b) { assert QueueOk(w, t, b); }
    assert w'.handles.Keys == w.handles.Keys;
    assert |w'.handles.Keys| == |w'.handles| && |w.handles.Keys| == |w.handles|;
  }

  /** A destructor returns once its value holds nothing any more. */
  lemma ReturnKeeps(w: World, t: Stack, o: nat)
    requires Ok(w, t.(running := t.running + {o})) && Contents(w, o) == {} && o !in t.running
    ensures Ok(w, t)
  {
    var t0 := t.(running := t.running + {o});
    forall p ensures CellOk(w, t, p) { assert CellOk(w, t0, p); }
    forall h ensures HandleOk(w, t, h) {
      assert HandleOk(w, t0, h);
      assert h in w.handles && w.handles[h].holder == In(o) ==> h in Contents(w, o);
    }
    forall a ensures QueueOk(w, t, a) { assert QueueOk(w, t0, a); }
  }

  /** A collecting thread may lower its flag at any time. */
  lemma LowerKeeps(w: World, w': World, t: Stack, self: nat)
    requires Ok(w, t) && self in t.looping
    requires w' == w.(raised := w.raised - {self})
    ensures Ok(w', t) && Kept(w, w', {self}, {}) && Unmerged(w') == Unmerged(w)
  {
    forall p ensures CellOk(w', t, p) {
      assert CellOk(w, t, p);
      assert HandlesTo(w', p) == HandlesTo(w, p);
    }
    forall h ensures HandleOk(w', t, h) { assert HandleOk(w, t, h); }
    forall b ensures QueueOk(w', t, b) { assert QueueOk(w, t, b); }
  }

  /** A thread may enter its loop at any time, and leave it with an empty queue. */
  lemma LoopKeeps(w: World, t: Stack, t': Stack, self: nat)
    requires t' == t.(looping := t.looping + {self})
    ensures Ok(w, t) ==> Ok(w, t')
    ensures Ok(w, t') && self in w.queues && w.queues[self] == [] ==> Ok(w, t)
  {
    if Ok(w, t) {
      forall p ensures CellOk(w, t', p) { assert CellOk(w, t, p); }
      forall h ensures HandleOk(w, t', h) { assert HandleOk(w, t, h); }
      forall b ensures QueueOk(w, t', b) { assert QueueOk(w, t, b); }
    } else if Ok(w, t') && self in w.queues && w.queues[self] == [] {
      forall p ensures CellOk(w, t, p) { assert CellOk(w, t', p); }
      forall h ensures HandleOk(w, t, h) { assert HandleOk(w, t', h); }
      forall b ensures QueueOk(w, t, b) { assert QueueOk(w, t', b); }
    }
  }

  /** Dropping a field of a destroyed value is dropping no handle of the program's. */
  lemma FieldKept(v: World, v': World, w: World, ran: set<nat>, h: nat, d: set<nat>)
    requires h in v.handles && v.handles[h].holder.In? && v.handles[h].holder.o in v.cells
    requires v.cells[v.handles[h].holder.o].destroyed
    requires v' == v.(handles := v.handles[h := v.handles[h].(holder := Root)])
    requires Kept(v', w, ran, d + {h}) && h !in w.handles
    ensures Kept(v, w, ran, d)
  {
    assert CellKept(v'.cells[v.handles[h].holder.o], w.cells[v.handles[h].holder.o]);
  }

  /** Closing a queue leaves everything else as it is. */
  lemma CloseKeeps(w: World, w': World, t: Stack, self: nat)
    requires Ok(w, t) && w' == w.(open := w.open - {self})
    ensures Ok(w', t)
  {
    forall p ensures CellOk(w', t, p) {
      assert CellOk(w, t, p);
      assert HandlesTo(w', p) == HandlesTo(w, p);
    }
    forall h ensures HandleOk(w', t, h) { assert HandleOk(w, t, h); }
    forall b ensures QueueOk(w', t, b) { assert QueueOk(w, t, b); }
  }

  /** The words a drop leaves, and who has to act on them. */
  ghost predicate DropOutcome(c: Cell, bw: BiasedWord, sw: SharedWord, self: nat, active: bool) {
    if active && c.bw.owner == Some(self) then
      if c.bw.count > 1 then bw == c.bw.(count := c.bw.count - 1) && sw == c.sw
      else bw == UNOWNED && sw == c.sw.(merged := true)
    else bw == c.bw && sw == Decremented(c.sw)
  }

  lemma Dropped(w: World, t: Stack, h: nat, bw: BiasedWord, sw: SharedWord, self: nat, active: bool)
    requires Ok(w, t) && t.carried == None
    requires h in w.handles && w.handles[h].holder == Root && w.handles[h].target in w.cells
    requires DropOutcome(w.cells[w.handles[h].target], bw, sw, self, active)
    ensures var o := w.handles[h].target;
            var queue := sw.queued != w.cells[o].sw.queued;
            var destroy := !queue && IsExhausted(sw);
            var w' := Lose(w, h, o, Cell(bw, sw, destroy));
            && o !in t.running && !w.cells[o].destroyed
            && (queue ==> bw.owner.Some? && (active ==> bw.owner != Some(self)))
            && Ok(w', Stack(if queue then Some(o) else None,
                            if destroy then t.running + {o} else t.running, t.looping))
            && |w'.handles| == |w.handles| - 1 && |Unmerged(w')| <= |Unmerged(w)|
            && Kept(w, w', {self}, {h})
  {
    var o := w.handles[h].target;
    var queue := sw.queued != w.cells[o].sw.queued;
    var destroy := !queue && IsExhausted(sw);
    var w' := Lose(w, h, o, Cell(bw, sw, destroy));
    var t' := Stack(if queue then Some(o) else None, if destroy then t.running + {o} else t.running, t.looping);
    LoseCounts(w, h, o, Cell(bw, sw, destroy));
    assert CellOk(w, t, o);
    assert h in HandlesTo(w, o);
    assert CellOk(w', t', o);
    ChangeKeeps(w, w', t, t', o);
  }

  /** Merging the carried object, which is destroyed if nobody refers to it. */
  lemma MergeKeeps(w: World, w': World, t: Stack, o: nat, self: nat)
    requires t.carried == None && Ok(w, t.(carried := Some(o))) && o in w.cells
    requires var m := Merged(w.cells[o].sw, w.cells[o].bw.count);
      w' == w.(cells := w.cells[o := Cell(UNOWNED, m, m.count == 0)])
    ensures w'.cells[o].destroyed ==> o !in t.running && Ok(w', t.(running := t.running + {o}))
    ensures !w'.cells[o].destroyed ==> Ok(w', t)
    ensures |Unmerged(w')| == |Unmerged(w)| - 1 && Kept(w, w', {self}, {})
  {
    var t0 := t.(carried := Some(o));
    assert CellOk(w, t0, o);
    var t' := if w'.cells[o].destroyed then t.(running := t.running + {o}) else t;
    assert HandlesTo(w', o) == HandlesTo(w, o);
    assert forall p :: HandlesTo(w', p) == HandlesTo(w, p);
    assert CellOk(w', t', o);
    ChangeKeeps(w, w', t0, t', o);
    assert Unmerged(w') == Unmerged(w) - {o};
    assert o in Unmerged(w);
  }
  // ----- what the program does -----

  lemma RegisterKeeps(w: World, w': World, t: Stack, a: nat)
    requires Ok(w, t) && a !in w.queues
    requires w' == w.(queues := w.queues[a := []], open := w.open + {a}, raised := w.raised - {a})
    ensures Ok(w', t)
  {
    forall p ensures CellOk(w', t, p) {
      assert CellOk(w, t, p);
      assert HandlesTo(w', p) == HandlesTo(w, p);
    }
    forall h ensures HandleOk(w', t, h) { assert HandleOk(w, t, h); }
    forall b ensures QueueOk(w', t, b) { assert QueueOk(w, t, b); }
  }

  lemma CreateKeeps(w: World, w': World, t: Stack, o: nat, h: nat)
    requires Ok(w, t) && o !in w.cells && h !in w.handles && o in w'.cells
    requires w' == w.(cells := w.cells[o := w'.cells[o]], handles := w.handles[h := Handle(o, Root)])
    requires var c := w'.cells[o];
      && !c.destroyed && Total(c.bw, c.sw) == 1 && !c.sw.queued && 0 <= c.sw.count
      && (if c.sw.merged then c.bw == UNOWNED else c.bw.owner.Some? && c.bw.count == 1)
    ensures Ok(w', t) && HandlesTo(w', o) == {h}
  {
    forall g | g in w.handles ensures w.handles[g].target != o { assert HandleOk(w, t, g); }
    assert HandlesTo(w', o) == {h};
    forall p ensures CellOk(w', t, p) {
      assert CellOk(w, t, p);
      if p != o { assert HandlesTo(w', p) == HandlesTo(w, p); }
    }
    forall g ensures HandleOk(w', t, g) { assert HandleOk(w, t, g); }
    forall b ensures QueueOk(w', t, b) { assert QueueOk(w, t, b); }
  }

  /** The words a clone leaves. */
  ghost predicate Gained(c: Cell, d: Cell) {
    && d.destroyed == c.destroyed
    && ((d.bw == c.bw.(count := c.bw.count + 1) && d.sw == c.sw && c.bw.owner.Some? && c.bw.count < BIASED_MAX)
        || (d.bw == c.bw && d.sw == FetchAddOne(c.sw) && c.sw.count != -1 && c.sw.count <= OVERFLOW_THRESHOLD))
  }

  lemma CloneKeeps(w: World, w': World, t: Stack, h: nat, h': nat)
    requires Ok(w, t) && h in w.handles && h' !in w.handles
    requires var o := w.handles[h].target;
      && o in w.cells && o in w'.cells && Gained(w.cells[o], w'.cells[o])
      && w' == w.(cells := w.cells[o := w'.cells[o]], handles := w.handles[h' := Handle(o, Root)])
    ensures Ok(w', t)
  {
    var o := w.handles[h].target;
    assert HandlesTo(w', o) == HandlesTo(w, o) + {h'};
    assert h in HandlesTo(w, o);
    forall p ensures CellOk(w', t, p) {
      assert CellOk(w, t, p);
      if p != o { assert HandlesTo(w', p) == HandlesTo(w, p); }
    }
    forall g ensures HandleOk(w', t, g) { assert HandleOk(w, t, g); }
    forall b ensures QueueOk(w', t, b) { assert QueueOk(w, t, b) && CellOk(w, t, o); }
  }

  lemma StoreKeeps(w: World, w': World, t: Stack, h: nat, o: nat)
    requires Ok(w, t) && h in w.handles && o in w.cells && !w.cells[o].destroyed
    requires w' == w.(handles := w.handles[h := w.handles[h].(holder := In(o))])
    ensures Ok(w', t)
  {
    forall p ensures CellOk(w', t, p) {
      assert CellOk(w, t, p);
      assert HandlesTo(w', p) == HandlesTo(w, p);
    }
    forall g ensures HandleOk(w', t, g) { assert HandleOk(w, t, g) && HandleOk(w, t, h); }
    forall b ensures QueueOk(w', t, b) { assert QueueOk(w, t, b); }
  }

  // ----- what a drop amounts to -----

  /** The world after thread `self` has dropped handle `h`, with all that follows. */
  ghost predicate DropDone(v: World, w: World, self: nat, h: nat)
    requires h in v.handles && v.handles[h].target in v.cells
  {
    var o := v.handles[h].target;
    var c := v.cells[o];
    if self in v.open && c.bw.owner == Some(self) then
      if c.bw.count > 1 then
        // one biased reference less, and nothing else
        w == Without(v, h, o, c.(bw := BiasedWord(Some(self), c.bw.count - 1)))
      else
        // the halves are merged, and the value goes with the last handle
        && o in w.cells && w.cells[o].sw.merged
        && if HandlesTo(v, o) == {h} then w.cells[o].destroyed
           else w == Without(v, h, o, Cell(UNOWNED, SharedWord(c.sw.count, true, c.sw.queued), false))
    else if c.sw.merged then
      && o in w.cells
      && if HandlesTo(v, o) == {h} then w.cells[o].destroyed
         else w == Without(v, h, o, c.(sw := SharedWord(c.sw.count - 1, true, c.sw.queued)))
    else if c.sw.queued || c.sw.count > 0 then
      w == Without(v, h, o, c.(sw := SharedWord(c.sw.count - 1, false, c.sw.queued)))
    else
      // the first reference that the shared half owes: the owner is asked to merge
      && c.bw.owner.Some?
      && var a := c.bw.owner.value;
      && if a in v.open then
           && a in v.queues
           && w == Without(v, h, o, c.(sw := SharedWord(-1, false, true))).(
                     queues := v.queues[a := v.queues[a] + [o]], raised := v.raised + {a})
         else o in w.cells && w.cells[o].sw.merged
  }

  ghost function Without(v: World, h: nat, o: nat, c: Cell): World {
    v.(handles := v.handles - {h}, cells := v.cells[o := c])
  }

  lemma Alone(w: World, o: nat, h: nat)
    requires h in HandlesTo(w, o)
    ensures |HandlesTo(w, o)| == 1 <==> HandlesTo(w, o) == {h}
  {
    assert |HandlesTo(w, o) - {h}| == |HandlesTo(w, o)| - 1;
    if |HandlesTo(w, o)| == 1 { assert HandlesTo(w, o) - {h} == {}; }
  }

  lemma StaysDestroyed(v: World, w: World, o: nat, ran: set<nat>, d: set<nat>)
    requires Kept(v, w, ran, d) && o in v.cells && v.cells[o].destroyed
    ensures o in w.cells && w.cells[o].destroyed
  {
    assert CellKept(v.cells[o], w.cells[o]);
  }

  /** A handle that is the only one and does not get lost stays the only one. */
  lemma StaysAlone(v: World, w: World, o: nat, h: nat, ran: set<nat>, d: set<nat>)
    requires Kept(v, w, ran, d) && HandlesTo(v, o) == {h} && h in w.handles
    ensures HandlesTo(w, o) == {h}
  {
    assert h in HandlesTo(v, o);
    forall g | g in HandlesTo(w, o)
      ensures g == h
    {
      assert g in HandlesTo(v, o);
    }
  }

  /** Which of the cases of `DropDone` a drop is in, by the words it leaves. */
  lemma DropDecided(v: World, t: Stack, h: nat, bw: BiasedWord, sw: SharedWord, self: nat)
    requires Ok(v, t) && t.carried == None
    requires h in v.handles && v.handles[h].holder == Root && v.handles[h].target in v.cells
    requires DropOutcome(v.cells[v.handles[h].target], bw, sw, self, self in v.open)
    ensures var o := v.handles[h].target;
            var c := v.cells[o];
            var queue := sw.queued != c.sw.queued;
            var owns := self in v.open && c.bw.owner == Some(self);
            && (owns ==> !c.sw.merged && !queue)
            && (queue <==> !owns && !c.sw.merged && !c.sw.queued && c.sw.count <= 0)
            && (queue ==> sw == SharedWord(-1, false, true))
            && (!queue ==> (IsExhausted(sw) <==>
                              HandlesTo(v, o) == {h} && (c.sw.merged || (owns && c.bw.count == 1))))
  {
    var o := v.handles[h].target;
    assert CellOk(v, t, o);
    assert h in HandlesTo(v, o);
    Alone(v, o, h);
  }

  lemma Concluded(v: World, t: Stack, h: nat, bw: BiasedWord, sw: SharedWord, self: nat, x: World)
    requires Ok(v, t) && t.carried == None
    requires h in v.handles && v.handles[h].holder == Root && v.handles[h].target in v.cells
    requires DropOutcome(v.cells[v.handles[h].target], bw, sw, self, self in v.open)
    requires var o := v.handles[h].target;
             var queue := sw.queued != v.cells[o].sw.queued;
             var destroy := !queue && IsExhausted(sw);
             var w := Without(v, h, o, Cell(bw, sw, destroy));
             if queue then
               && bw.owner.Some?
               && var a := bw.owner.value;
               && if a in v.open then a in v.queues && x == w.(queues := v.queues[a := v.queues[a] + [o]], raised := v.raised + {a})
                  else o in x.cells && x.cells[o].sw.merged
             else if destroy then o in x.cells && x.cells[o].destroyed && x.cells[o].sw.merged
             else x == w
    ensures DropDone(v, x, self, h)
  {
    assert CellOk(v, t, v.handles[h].target);
    DropDecided(v, t, h, bw, sw, self);
  }

  /** `h` is the only handle, and its drop will be counted on a merged word or
      takes the owner's last reference. */
  ghost predicate IsLast(v: World, self: nat, h: nat)
    requires h in v.handles && v.handles[h].target in v.cells
  {
    var o := v.handles[h].target;
    && HandlesTo(v, o) == {h}
    && (v.cells[o].sw.merged || (self in v.open && v.cells[o].bw == BiasedWord(Some(self), 1)))
  }

  ghost predicate IsDestroyedIn(w: World, o: nat) {
    o in w.cells && w.cells[o].destroyed
  }

  lemma LastDestroys(v: World, t: Stack, w: World, self: nat, h: nat)
    requires Ok(v, t) && h in v.handles && v.handles[h].target in v.cells
    requires IsLast(v, self, h) && DropDone(v, w, self, h)
    ensures IsDestroyedIn(w, v.handles[h].target)
  {
    assert CellOk(v, t, v.handles[h].target);
  }

  /** Collecting does not change that. */
  lemma StaysLast(v: World, w: World, t: Stack, self: nat, h: nat, ran: set<nat>, d: set<nat>)
    requires t.carried == None && Ok(w, t) && Kept(v, w, ran, d)
    requires h in v.handles && v.handles[h].target in v.cells && h in w.handles && IsLast(v, self, h)
    requires self in w.queues && w.queues[self] == []
    ensures w.handles[h].target in w.cells && IsLast(w, self, h)
  {
    var o := v.handles[h].target;
    StaysAlone(v, w, o, h, ran, d);
    assert |HandlesTo(w, o)| == 1;
    assert CellKept(v.cells[o], w.cells[o]);
    assert CellOk(w, t, o);
  }

  /** A collection from `v` to `w`, then a drop from `w` to `x`. */
  lemma CollectedAndDropped(v: World, p: seq<Visit>, w: World, q: seq<Visit>, x: World, r: seq<Visit>,
                            t: Stack, self: nat, h: nat)
    requires t.carried == None && Ok(v, t) && Ok(w, t) && h in v.handles && h in w.handles
    requires self in w.queues && w.queues[self] == [] && IsCollected(v, w, self)
    requires Proceeds(v, p, w, q, self, {}) && Proceeds(w, q, x, r, self, {h})
    requires w.handles[h].target in w.cells && DropDone(w, x, self, h)
    ensures v.handles[h].target in v.cells && Proceeds(v, p, x, r, self, {h}) && IsCollected(v, x, self)
    ensures IsLast(v, self, h) ==> IsDestroyedIn(x, v.handles[h].target)
  {
    assert HandleOk(v, t, h);
    StaysCollected(v, w, x, self, Visitors(q) + {self}, Planned(q) + {h});
    if IsLast(v, self, h) {
      StaysLast(v, w, t, self, h, Visitors(p) + {self}, Planned(p) + {});
      LastDestroys(w, t, x, self, h);
    }
    ProceedsTrans(v, p, w, q, x, r, self, {}, {h});
  }
}
