/** Threads collecting in a heap whose values hold handles: a merge can run a
    destructor, which drops handles, which can merge or destroy further objects,
    hand objects to other owners or start a nested collection. In between, other
    threads drop handles of their own and push onto queues, the collector's
    included. Every such cascade comes to an end. */
module Cascade {
  import opened Words
  import opened HandleWorld

  class Heap {
    var cells: map<nat, Cell>
    var handles: map<nat, Handle>
    var queues: map<nat, seq<nat>>
    var open: set<nat>
    var raised: set<nat>
    /** The drops other threads are still to make, whenever they get the chance. */
    var others: seq<Visit>

    ghost function Now(): World
      reads this
    {
      World(cells, handles, queues, open, raised)
    }

    ghost function Load(): nat
      reads this
    {
      Work(Now(), others)
    }

    /** The others drop handles of the program, each of them once. */
    ghost predicate Valid(t: Stack)
      reads this
    {
      && Ok(Now(), t)
      && (forall h | h in Planned(others) && h in handles :: handles[h].holder == Root)
      && AreDistinct(others)
    }

    constructor (others: seq<Visit>)
      requires AreDistinct(others)
      ensures Valid(Stack(None, {}, {})) && Now() == World(map[], map[], map[], {}, {})
      ensures this.others == others
    {
      cells := map[];
      handles := map[];
      queues := map[];
      open := {};
      raised := {};
      this.others := others;
    }

    // ----- what the program does -----

    /** `init_thread`: a new owner with an empty queue. */
    method Register(a: nat, ghost t: Stack)
      requires Valid(t) && a !in queues
      modifies this`queues, this`open, this`raised
      ensures Valid(t) && open == old(open) + {a} && a !in raised
      ensures queues == old(queues)[a := []]
    {
      ghost var before := Now();
      queues := queues[a := []];
      open := open + {a};
      raised := raised - {a};
      RegisterKeeps(before, Now(), t, a);
    }

    /** A new object and the one handle to it; the creator owns it if it has a short id. */
    method Create(self: nat, o: nat, h: nat, ghost t: Stack)
      requires Valid(t) && o !in cells && h !in handles
      modifies this`cells, this`handles
      ensures Valid(t) && o in cells && HandlesTo(Now(), o) == {h}
      ensures cells == old(cells)[o := cells[o]] && handles == old(handles)[h := Handle(o, Root)]
      ensures cells[o].bw.owner == if self in open then Some(self) else None
    {
      ghost var before := Now();
      var c := if self in open then Cell(BiasedWord(Some(self), 1), SharedWord(0, false, false), false)
               else Cell(UNOWNED, SharedWord(1, true, false), false);
      cells := cells[o := c];
      handles := handles[h := Handle(o, Root)];
      CreateKeeps(before, Now(), t, o, h);
    }

    /** `Brc::clone`, on the biased side if the owner has room there. The count
        comes out right if a shared increment does not start from -1. */
    method Clone(self: nat, h: nat, h': nat, ghost t: Stack) returns (aborts: bool)
      requires Valid(t) && h in handles && h' !in handles
      modifies this`cells, this`handles
      ensures aborts ==> Now() == old(Now())
      ensures var o := old(handles)[h].target;
        && o in old(cells)
        && var c := old(cells)[o];
        && var owns := self in open && c.bw.owner == Some(self) && c.bw.count < BIASED_MAX;
        && (aborts <==> !owns && c.sw.count > OVERFLOW_THRESHOLD)
        && (owns ==> cells == old(cells)[o := c.(bw := BiasedWord(Some(self), c.bw.count + 1))])
        && (!owns && !aborts && c.sw.count != -1 ==>
              cells == old(cells)[o := c.(sw := SharedWord(c.sw.count + 1, c.sw.merged, c.sw.queued))])
      ensures var o := old(handles)[h].target;
        !aborts ==>
          && handles == old(handles)[h' := Handle(o, Root)]
          && o in old(cells) && o in cells && cells == old(cells)[o := cells[o]]
          && (cells[o].sw == old(cells)[o].sw || old(cells)[o].sw.count != -1 ==> Valid(t))
    {
      ghost var before := Now();
      assert HandleOk(before, t, h);
      var o := handles[h].target;
      var c := cells[o];
      if self in open && c.bw.owner == Some(self) && c.bw.count < BIASED_MAX {
        c := c.(bw := c.bw.(count := c.bw.count + 1));
      } else {
        if c.sw.count > OVERFLOW_THRESHOLD { return true; }
        c := c.(sw := FetchAddOne(c.sw));
      }
      cells := cells[o := c];
      handles := handles[h' := Handle(o, Root)];
      if c.sw == before.cells[o].sw || before.cells[o].sw.count != -1 {
        CloneKeeps(before, Now(), t, h, h');
      }
      return false;
    }

    /** The program moves a handle into a living value. */
    method Store(h: nat, o: nat, ghost t: Stack)
      requires Valid(t) && h in handles && h !in Planned(others)
      requires o in cells && !cells[o].destroyed
      modifies this`handles
      ensures Valid(t) && handles == old(handles)[h := old(handles)[h].(holder := In(o))]
    {
      ghost var before := Now();
      handles := handles[h := handles[h].(holder := In(o))];
      StoreKeeps(before, Now(), t, h, o);
    }

    // ----- the cascade -----

    /** The value's destructor: its fields are dropped one by one. */
    method RunDestructor(o: nat, self: nat, ghost t: Stack)
      requires t.carried == None && o !in t.running && Valid(t.(running := t.running + {o}))
      modifies this
      ensures Valid(t) && Load() <= old(Load())
      ensures Proceeds(old(Now()), old(others), Now(), others, self, {})
      decreases Load(), 10
    {
      ghost var t' := t.(running := t.running + {o});
      var mine := FieldsOf(o);
      while mine != {}
        invariant Valid(t') && Load() <= old(Load())
        invariant mine == Contents(Now(), o)
        invariant Proceeds(old(Now()), old(others), Now(), others, self, {})
        decreases Load()
      {
        var h :| h in mine;
        ghost var v, p := Now(), others;
        assert CellOk(Now(), t', o);
        DropField(h, self, t');
        ProceedsTrans(old(Now()), old(others), v, p, Now(), others, self, {}, {});
        Interfere(self, old(Now()), old(others), t');
        mine := FieldsOf(o);
      }
      ReturnKeeps(Now(), t, o);
    }

    function FieldsOf(o: nat): (r: set<nat>)
      reads this
      ensures r == Contents(Now(), o)
    {
      set h | h in handles && handles[h].holder == In(o)
    }

    /** Dropping one field: it leaves the value and is dropped like any handle. */
    method DropField(h: nat, self: nat, ghost t: Stack)
      requires t.carried == None && Valid(t) && h in handles && handles[h].holder.In?
      requires handles[h].holder.o in cells && cells[handles[h].holder.o].destroyed
      modifies this
      ensures Valid(t) && Load() < old(Load())
      ensures h !in handles && Proceeds(old(Now()), old(others), Now(), others, self, {})
      decreases Load(), 9
    {
      ghost var v, p := Now(), others;
      handles := handles[h := handles[h].(holder := Root)];
      ghost var v' := Now();
      MoveKeeps(v, v', t, h);
      assert Unmerged(v') == Unmerged(v);
      Drop(h, self, t);
      FieldKept(v, v', Now(), Visitors(p) + {self}, h, Planned(p) + {});
    }

    /** Whatever other threads do until they wait for this one: any number of
        drops, none included. `v` and `p` are the world and the drops to come
        when `self` started. */
    method Interfere(self: nat, ghost v: World, ghost p: seq<Visit>, ghost t: Stack)
      requires t.carried == None && Valid(t) && Proceeds(v, p, Now(), others, self, {})
      modifies this
      ensures Valid(t) && Proceeds(v, p, Now(), others, self, {})
      ensures if old(others) == [] then Now() == old(Now()) && others == [] else Load() < old(Load())
      ensures handles.Keys <= old(handles).Keys
      ensures old(others) != [] && old(others)[0].Drops? ==> old(others)[0].h !in handles
      decreases Load(), 1
    {
      if others == [] { return; }
      var waits := others[0].Wait?;
      Admit(self, v, p, t);
      if !waits { Interfere(self, v, p, t); }
    }

    /** The next of these drops, unless it is a wait. */
    method Admit(self: nat, ghost v: World, ghost p: seq<Visit>, ghost t: Stack)
      requires t.carried == None && Valid(t) && Proceeds(v, p, Now(), others, self, {}) && others != []
      modifies this
      ensures Valid(t) && Proceeds(v, p, Now(), others, self, {}) && Load() < old(Load())
      ensures old(others)[0].Drops? ==> old(others)[0].h !in handles
      ensures handles.Keys <= old(handles).Keys
      ensures old(others)[0].Wait? ==> Now() == old(Now())
      decreases Load(), 0
    {
      ghost var w, q := Now(), others;
      var visit := others[0];
      others := others[1..];
      Arrives(w, q, v, p, self);
      if visit.Drops? && visit.h in handles {
        Drop(visit.h, visit.thread, t);
        Left(v, p, w, q, Now(), others, self);
      }
    }

    /** `Drop for Brc`: collect first if the flag asks for it. */
    method Drop(h: nat, self: nat, ghost t: Stack)
      requires t.carried == None && Valid(t) && h in handles && handles[h].holder == Root
      requires h !in Planned(others)
      modifies this
      ensures Valid(t) && Load() < old(Load())
      ensures h !in handles && Proceeds(old(Now()), old(others), Now(), others, self, {h})
      ensures old(handles)[h].target in old(cells)
      ensures if self in old(open) && self in old(raised) then IsCollected(old(Now()), Now(), self)
              else DropDone(old(Now()), Now(), self, h)
      ensures IsLast(old(Now()), self, h) ==> IsDestroyedIn(Now(), old(handles)[h].target)
      decreases Load(), 8
    {
      if self in open && self in raised {
        CollectAndDrop(h, self, t);
      } else {
        ghost var v := Now();
        DropNoCollect(h, self, t);
        if IsLast(v, self, h) { LastDestroys(v, t, Now(), self, h); }
      }
    }

    method CollectAndDrop(h: nat, self: nat, ghost t: Stack)
      requires t.carried == None && Valid(t) && h in handles && handles[h].holder == Root
      requires h !in Planned(others) && self in open
      modifies this
      ensures Valid(t) && Load() < old(Load())
      ensures h !in handles && Proceeds(old(Now()), old(others), Now(), others, self, {h})
      ensures old(handles)[h].target in old(cells) && IsCollected(old(Now()), Now(), self)
      ensures IsLast(old(Now()), self, h) ==> IsDestroyedIn(Now(), old(handles)[h].target)
      decreases Load(), 7
    {
      ghost var v, p := Now(), others;
      CollectForce(self, t);
      ghost var w, q := Now(), others;
      DropNoCollect(h, self, t);
      CollectedAndDropped(v, p, w, q, Now(), others, t, self, h);
    }

    /** `collect_force`; a thread that is dying leaves everything to the queue's destructor. */
    method CollectForce(self: nat, ghost t: Stack)
      requires t.carried == None && Valid(t)
      modifies this
      ensures Valid(t) && Load() <= old(Load())
      ensures Proceeds(old(Now()), old(others), Now(), others, self, {})
      ensures self in old(open) ==> self in queues && queues[self] == [] && (old(others) == [] ==> self !in raised)
      ensures self in old(open) ==> IsCollected(old(Now()), Now(), self)
      ensures self !in old(open) ==> Now() == old(Now())
      decreases Load(), 6
    {
      Steps(Now(), Now(), others, self, {});
      if self !in open { return; }
      ghost var t' := t.(looping := t.looping + {self});
      LoopKeeps(Now(), t, t', self);
      var done := false;
      while !done
        invariant Valid(t') && Load() <= old(Load()) && self in open
        invariant Proceeds(old(Now()), old(others), Now(), others, self, {})
        invariant done ==> queues[self] == [] && (old(others) == [] ==> self !in raised)
        decreases Load(), !done
      {
        done := CollectRound(self, old(Now()), old(others), t');
      }
      LoopKeeps(Now(), t, t', self);
      QueueEmptied(old(Now()), t, Now(), t, self, Visitors(old(others)) + {self}, Planned(old(others)) + {});
    }

    /** One turn of the loop of `collect_force`; the queue is looked at again at its end. */
    method CollectRound(self: nat, ghost v: World, ghost p: seq<Visit>, ghost t: Stack) returns (done: bool)
      requires t.carried == None && Valid(t) && self in t.looping && self in open
      requires Proceeds(v, p, Now(), others, self, {})
      modifies this
      ensures Valid(t) && Proceeds(v, p, Now(), others, self, {}) && self in open
      ensures if done then Load() <= old(Load()) else Load() < old(Load())
      ensures done ==> queues[self] == [] && (p == [] ==> self !in raised)
      decreases Load(), 5
    {
      ghost var w, q := Now(), others;
      DoProcess(self, t);
      ProceedsTrans(v, p, w, q, Now(), others, self, {}, {});
      Interfere(self, v, p, t);
      done := LowerAndCheck(self, v, p, t);
    }

    method LowerAndCheck(self: nat, ghost v: World, ghost p: seq<Visit>, ghost t: Stack) returns (done: bool)
      requires t.carried == None && Valid(t) && self in t.looping && self in queues
      requires Proceeds(v, p, Now(), others, self, {})
      modifies this
      ensures Valid(t) && Proceeds(v, p, Now(), others, self, {})
      ensures self in queues && (done <==> queues[self] == [])
      ensures if old(others) == [] then others == [] && queues == old(queues) && self !in raised && Load() == old(Load())
              else Load() < old(Load())
      decreases Load(), 4
    {
      LowerFlag(self, v, p, t);
      Interfere(self, v, p, t);
      done := queues[self] == [];
    }

    /** The compare-exchange that resets the flag. */
    method LowerFlag(self: nat, ghost v: World, ghost p: seq<Visit>, ghost t: Stack)
      requires Valid(t) && self in t.looping && Proceeds(v, p, Now(), others, self, {})
      modifies this`raised
      ensures Valid(t) && Proceeds(v, p, Now(), others, self, {})
      ensures Load() == old(Load()) && raised == old(raised) - {self}
    {
      ghost var w := Now();
      raised := raised - {self};
      LowerKeeps(w, Now(), t, self);
      Steps(w, Now(), others, self, {});
      ProceedsTrans(v, p, w, others, Now(), others, self, {}, {});
    }

    /** `do_process`, for the collecting thread and for the queue's destructor alike. */
    method DoProcess(self: nat, ghost t: Stack)
      requires t.carried == None && Valid(t) && self in queues
      modifies this
      ensures Valid(t) && Load() <= old(Load())
      ensures Proceeds(old(Now()), old(others), Now(), others, self, {})
      ensures self in queues && queues[self] == []
      ensures IsCollected(old(Now()), Now(), self)
      decreases Load(), 4
    {
      Steps(Now(), Now(), others, self, {});
      while queues[self] != []
        invariant Valid(t) && Load() <= old(Load()) && self in queues
        invariant Proceeds(old(Now()), old(others), Now(), others, self, {})
        decreases Load()
      {
        PopAndMerge(self, old(Now()), old(others), t);
        Interfere(self, old(Now()), old(others), t);
      }
      QueueEmptied(old(Now()), t, Now(), t, self, Visitors(old(others)) + {self}, Planned(old(others)) + {});
    }

    method PopAndMerge(self: nat, ghost v: World, ghost p: seq<Visit>, ghost t: Stack)
      requires t.carried == None && Valid(t) && self in queues && queues[self] != []
      requires Proceeds(v, p, Now(), others, self, {})
      modifies this
      ensures Valid(t) && Load() < old(Load())
      ensures Proceeds(v, p, Now(), others, self, {})
      decreases Load(), 3
    {
      var o := Pop(self, v, p, t);
      ghost var w, q := Now(), others;
      ExplicitMerge(o, self, t);
      ProceedsTrans(v, p, w, q, Now(), others, self, {}, {});
    }

    method Pop(self: nat, ghost v: World, ghost p: seq<Visit>, ghost t: Stack) returns (o: nat)
      requires t.carried == None && Valid(t) && self in queues && queues[self] != []
      requires Proceeds(v, p, Now(), others, self, {})
      modifies this`queues
      ensures queues == old(queues)[self := old(queues)[self][1..]] && o == old(queues)[self][0]
      ensures Valid(t.(carried := Some(o))) && Load() == old(Load())
      ensures Proceeds(v, p, Now(), others, self, {})
    {
      ghost var w := Now();
      o := queues[self][0];
      queues := queues[self := queues[self][1..]];
      PopKeeps(w, Now(), t, self);
      Steps(w, Now(), others, self, {});
      ProceedsTrans(v, p, w, others, Now(), others, self, {}, {});
    }

    /** `explicit_merge`; the biased count is final by now. */
    method ExplicitMerge(o: nat, self: nat, ghost t: Stack)
      requires t.carried == None && Valid(t.(carried := Some(o)))
      modifies this
      ensures Valid(t) && Load() < old(Load())
      ensures Proceeds(old(Now()), old(others), Now(), others, self, {})
      ensures o in cells && cells[o].sw.merged
      decreases Load(), 2
    {
      ghost var v, p := Now(), others;
      var w := Merged(cells[o].sw, cells[o].bw.count);
      cells := cells[o := Cell(UNOWNED, w, w.count == 0)];
      ghost var merged := Now();
      MergeKeeps(v, merged, t, o, self);
      Steps(v, merged, p, self, {});
      if w.count == 0 {
        RunDestructor(o, self, t);
        ProceedsTrans(v, p, merged, p, Now(), others, self, {}, {});
        StaysMerged(merged, Now(), o, Visitors(p) + {self}, Planned(p) + {});
      }
    }

    /** `queue_object`: push if the owner still has a queue, else merge here. */
    method QueueObject(o: nat, owner: nat, self: nat, ghost t: Stack)
      requires t.carried == None && Valid(t.(carried := Some(o)))
      requires o in cells ==> cells[o].bw.owner == Some(owner)
      modifies this
      ensures Valid(t) && Load() <= old(Load())
      ensures Proceeds(old(Now()), old(others), Now(), others, self, {})
      ensures if owner in old(open) then
                && owner in old(queues)
                && Now() == old(Now()).(queues := old(queues)[owner := old(queues)[owner] + [o]], raised := old(raised) + {owner})
              else o in cells && cells[o].sw.merged
      decreases Load(), 3
    {
      if owner in open {
        ghost var v := Now();
        EnqueueKeeps(v, t.(carried := Some(o)), o);
        queues := queues[owner := queues[owner] + [o]];
        raised := raised + {owner};
        assert Unmerged(Now()) == Unmerged(v);
        Steps(v, Now(), others, self, {});
      } else {
        ExplicitMerge(o, self, t);
      }
    }

    /** `drop_no_collect`, on the side the owner id selects. */
    method DropNoCollect(h: nat, self: nat, ghost t: Stack)
      requires t.carried == None && Valid(t) && h in handles && handles[h].holder == Root
      modifies this
      ensures Valid(t) && Load() < old(Load())
      ensures h !in handles && Proceeds(old(Now()), old(others), Now(), others, self, {h})
      ensures old(handles)[h].target in old(cells) && DropDone(old(Now()), Now(), self, h)
      decreases Load(), 6
    {
      assert HandleOk(Now(), t, h);
      var o := handles[h].target;
      if self in open && cells[o].bw.owner == Some(self) {
        DropBiased(h, o, self, t);
      } else {
        DropShared(h, o, self, t);
      }
    }

    /** The owner's side: its last reference merges the halves. */
    method DropBiased(h: nat, o: nat, self: nat, ghost t: Stack)
      requires t.carried == None && Valid(t) && h in handles && handles[h] == Handle(o, Root)
      requires o in cells && self in open && cells[o].bw.owner == Some(self)
      modifies this
      ensures Valid(t) && Load() < old(Load())
      ensures h !in handles && Proceeds(old(Now()), old(others), Now(), others, self, {h})
      ensures DropDone(old(Now()), Now(), self, h)
      decreases Load(), 5
    {
      var bw, sw := cells[o].bw, cells[o].sw;
      if bw.count > 1 {
        bw := bw.(count := bw.count - 1);
      } else {
        sw := sw.(merged := true);
        bw := UNOWNED;
      }
      GiveUp(h, o, bw, sw, self, t);
    }

    /** Everybody else's side. */
    method DropShared(h: nat, o: nat, self: nat, ghost t: Stack)
      requires t.carried == None && Valid(t) && h in handles && handles[h] == Handle(o, Root)
      requires o in cells && !(self in open && cells[o].bw.owner == Some(self))
      modifies this
      ensures Valid(t) && Load() < old(Load())
      ensures h !in handles && Proceeds(old(Now()), old(others), Now(), others, self, {h})
      ensures DropDone(old(Now()), Now(), self, h)
      decreases Load(), 5
    {
      GiveUp(h, o, cells[o].bw, Decremented(cells[o].sw), self, t);
    }

    /** The words are stored, and what they ask for is done. */
    method GiveUp(h: nat, o: nat, bw: BiasedWord, sw: SharedWord, self: nat, ghost t: Stack)
      requires t.carried == None && Valid(t) && h in handles && handles[h] == Handle(o, Root)
      requires o in cells && DropOutcome(cells[o], bw, sw, self, self in open)
      modifies this
      ensures Valid(t) && Load() < old(Load())
      ensures h !in handles && Proceeds(old(Now()), old(others), Now(), others, self, {h})
      ensures DropDone(old(Now()), Now(), self, h)
      decreases Load(), 4
    {
      ghost var v, p := Now(), others;
      var queue, destroy := StoreWords(h, o, bw, sw, self, t);
      ghost var w := Now();
      if queue {
        QueueObject(o, bw.owner.value, self, t);
        ProceedsTrans(v, p, w, p, Now(), others, self, {h}, {});
      } else if destroy {
        DestroyValue(o, self, t);
        ProceedsTrans(v, p, w, p, Now(), others, self, {h}, {});
      }
      Concluded(v, t, h, bw, sw, self, Now());
    }

    /** The handle goes, and the words that count one less are stored. */
    method StoreWords(h: nat, o: nat, bw: BiasedWord, sw: SharedWord, self: nat, ghost t: Stack)
      returns (queue: bool, destroy: bool)
      requires t.carried == None && Valid(t) && h in handles && handles[h] == Handle(o, Root)
      requires o in cells && DropOutcome(cells[o], bw, sw, self, self in open)
      modifies this`handles, this`cells
      ensures queue <==> sw.queued != old(cells)[o].sw.queued
      ensures destroy <==> !queue && IsExhausted(sw)
      ensures Now() == Without(old(Now()), h, o, Cell(bw, sw, destroy)) && Load() < old(Load())
      ensures Valid(Stack(if queue then Some(o) else None, if destroy then t.running + {o} else t.running, t.looping))
      ensures o !in t.running && (queue ==> bw.owner.Some?) && (destroy ==> sw.merged)
      ensures Proceeds(old(Now()), old(others), Now(), others, self, {h})
    {
      ghost var v := Now();
      queue := sw.queued != cells[o].sw.queued;
      destroy := !queue && IsExhausted(sw);
      Dropped(v, t, h, bw, sw, self, self in open);
      handles := handles - {h};
      cells := cells[o := Cell(bw, sw, destroy)];
      Steps(v, Now(), others, self, {h});
    }

    /** The value is destroyed, and its object stays so. */
    method DestroyValue(o: nat, self: nat, ghost t: Stack)
      requires t.carried == None && o !in t.running && Valid(t.(running := t.running + {o}))
      requires o in cells && cells[o].destroyed && cells[o].sw.merged
      modifies this
      ensures Valid(t) && Load() <= old(Load())
      ensures Proceeds(old(Now()), old(others), Now(), others, self, {})
      ensures o in cells && cells[o].destroyed && cells[o].sw.merged
      decreases Load(), 11
    {
      ghost var w, p := Now(), others;
      RunDestructor(o, self, t);
      StaysDestroyed(w, Now(), o, Visitors(p) + {self}, Planned(p) + {});
      StaysMerged(w, Now(), o, Visitors(p) + {self}, Planned(p) + {});
    }

    /** The end of a thread: its id is given up first, its queue is closed, and
        the queue's destructor processes what is in it. Objects of this thread
        that ask for a merge meanwhile are merged at once. */
    method Die(self: nat, ghost t: Stack)
      requires t.carried == None && Valid(t) && self in open
      modifies this
      ensures Valid(t) && open == old(open) - {self} && self in queues && queues[self] == []
      ensures forall o | o in cells && cells[o].bw.owner == Some(self) :: !AsksForMerge(cells[o])
      ensures Proceeds(old(Now()).(open := open), old(others), Now(), others, self, {})
      ensures Load() <= old(Load())
    {
      ghost var v := Now();
      open := open - {self};
      CloseKeeps(v, Now(), t, self);
      assert Unmerged(Now()) == Unmerged(v);
      DoProcess(self, t);
      forall o | o in cells && cells[o].bw.owner == Some(self)
        ensures !AsksForMerge(cells[o])
      {
        assert CellOk(Now(), t, o);
      }
    }
  }

  /** One call of another thread has come up. */
  lemma Arrives(w: World, q: seq<Visit>, v: World, p: seq<Visit>, self: nat)
    requires q != [] && Proceeds(v, p, w, q, self, {})
    ensures Proceeds(v, p, w, q[1..], self, {})
    ensures Planned(q[1..]) <= Planned(q) && Visitors(q[1..]) <= Visitors(q)
    ensures q[0].Drops? ==> q[0].h in Planned(q) && q[0].thread in Visitors(q)
    ensures AreDistinct(q) ==> AreDistinct(q[1..]) && (q[0].Drops? ==> q[0].h !in Planned(q[1..]))
  {
  }

  /** It has returned. */
  lemma Left(v: World, p: seq<Visit>, w: World, q: seq<Visit>, x: World, r: seq<Visit>, self: nat)
    requires q != [] && q[0].Drops? && Proceeds(v, p, w, q, self, {})
    requires Proceeds(w, q[1..], x, r, q[0].thread, {q[0].h})
    ensures Proceeds(v, p, x, r, self, {})
  {
    Arrives(w, q, v, p, self);
    KeptMore(w, x, Visitors(q[1..]) + {q[0].thread}, Planned(q[1..]) + {q[0].h}, Visitors(q) + {self}, Planned(q) + {});
    ProceedsTrans(v, p, w, q, x, r, self, {}, {});
  }

  /** Once a thread has collected or died, an object nobody refers to is
      destroyed, or another owner has it in its queue, with the flag raised if
      that owner is alive. */
  lemma SettledAfterCollect(w: World, self: nat, o: nat)
    requires Ok(w, Stack(None, {}, {})) && self in w.queues && w.queues[self] == [] && o in w.cells
    ensures HandlesTo(w, o) == {} <==>
              || w.cells[o].destroyed
              || (!w.cells[o].sw.merged && w.cells[o].bw.count + w.cells[o].sw.count == 0)
    ensures HandlesTo(w, o) == {} && !w.cells[o].destroyed ==>
              exists a | a in w.queues && a != self ::
                o in w.queues[a] && w.cells[o].bw.owner == Some(a) && (a in w.open ==> a in w.raised)
    ensures w.cells[o].destroyed ==> Contents(w, o) == {}
    ensures AsksForMerge(w.cells[o]) ==> w.cells[o].bw.owner != Some(self)
  {
    var t := Stack(None, {}, {});
    assert CellOk(w, t, o);
    assert |HandlesTo(w, o)| == 0 <==> HandlesTo(w, o) == {};
    forall h | h in w.handles ensures w.cells[o].destroyed ==> w.handles[h].holder != In(o) {
      assert HandleOk(w, t, h);
    }
    if w.cells[o].bw.owner.Some? { assert QueueOk(w, t, w.cells[o].bw.owner.value); }
    forall a ensures QueueOk(w, t, a) {}
  }
}
