/** The table of threads, the short ids it hands out, and the thread-local
    status that says which of them a thread may use. */
module Registry {
  import opened Words
  import opened Packing
  import opened Header

  /** `Record` is the `SharedThreadInfo` of thread `owner`. */
  datatype Entry = Record(shortId: nat, owner: nat) | IdOverflow

  /** `UniqueThreadId::from_index`, then `ShortThreadId::try_from`. */
  function ShortIdFor(index: nat): Option<nat> {
    if index + 1 <= MAX_SHORT_ID then Some(index + 1) else None
  }

  function EntryFor(index: nat, owner: nat): Entry {
    match ShortIdFor(index)
    case Some(id) => Record(id, owner)
    case None => IdOverflow
  }

  /** `get_by_id`. */
  function Lookup(threads: seq<Entry>, id: nat): Option<Entry>
    requires IsShortId(id)
  {
    if id - 1 < |threads| && threads[id - 1].Record? then Some(threads[id - 1]) else None
  }

  /** The table after threads `names` have been pushed, in this order. */
  ghost predicate IsTable(threads: seq<Entry>, names: seq<nat>) {
    |threads| == |names| && forall k | 0 <= k < |names| :: threads[k] == EntryFor(k, names[k])
  }

  class ThreadTable {
    var threads: seq<Entry>
    var exhausted: bool
    ghost var names: seq<nat>

    ghost predicate Valid()
      reads this
    {
      IsTable(threads, names) && (exhausted <==> |threads| > MAX_SHORT_ID)
    }

    constructor ()
      ensures Valid() && threads == []
    {
      threads := [];
      exhausted := false;
      names := [];
    }

    /** `THREADS.push_with`: the slot's index decides the id. */
    method Push(name: nat) returns (index: nat)
      requires Valid()
      modifies this
      ensures Valid() && names == old(names) + [name]
      ensures index == |old(threads)| && threads == old(threads) + [EntryFor(index, name)]
    {
      index := |threads|;
      var entry := EntryFor(index, name);
      if entry == IdOverflow { exhausted := true; }
      threads := threads + [entry];
      names := names + [name];
    }
  }

  datatype LocalStatus = DeadOrDying | Uninit | Active

  datatype InitError = AlreadyDied | Overflowed | AlreadyActive

  datatype InitResult = Registered(shortId: nat) | Failed(error: InitError)

  datatype ExistingId = Id(shortId: nat) | Uninitialized | IsDead

  /** The thread-locals of one thread. */
  class LocalThread {
    const name: nat
    var status: LocalStatus
    var shortId: Option<nat>

    /** The id is there exactly while the thread is active. */
    ghost predicate Legal()
      reads this
    {
      (status == Active <==> shortId.Some?) && (shortId.Some? ==> IsShortId(shortId.value))
    }

    constructor (name: nat)
      ensures Legal() && status == Uninit && this.name == name
    {
      this.name := name;
      status := Uninit;
      shortId := None;
    }

    /** `existing_short_id`; the illegal shapes cannot occur. */
    method ExistingShortId() returns (r: ExistingId)
      requires Legal()
      ensures r == match status
        case Active => Id(shortId.value)
        case Uninit => Uninitialized
        case DeadOrDying => IsDead
    {
      if shortId.Some? { return Id(shortId.value); }
      r := if status == Uninit then Uninitialized else IsDead;
    }

    /** `init_thread`. Threads `others` register between the check for
        exhaustion and the push. A thread that has died is never registered again. */
    method InitThread(table: ThreadTable, others: seq<nat>) returns (r: InitResult)
      requires Legal() && table.Valid()
      modifies this, table
      ensures Legal() && table.Valid()
      ensures old(table.threads) <= table.threads
      ensures old(status) != Uninit ==>
                r.Failed? && status == old(status) && shortId == old(shortId) && table.threads == old(table.threads)
      ensures old(status) == DeadOrDying ==> r == Failed(AlreadyDied)
      ensures old(status) == Active ==> r == Failed(AlreadyActive)
      ensures r.Registered? ==>
                && old(status) == Uninit && status == Active && shortId == Some(r.shortId)
                && Lookup(table.threads, r.shortId) == Some(Record(r.shortId, name))
                && |old(table.threads)| < r.shortId <= MAX_SHORT_ID
      ensures r.Failed? ==> status == old(status) && shortId == old(shortId)
      ensures table.names == if old(status) == Uninit && !old(table.exhausted) then old(table.names) + others + [name]
                             else old(table.names)
      ensures old(status) == Uninit && r.Failed? ==>
                r.error == Overflowed && |table.threads| > MAX_SHORT_ID
      ensures old(status) == Uninit && |old(table.threads)| + |others| < MAX_SHORT_ID && !old(table.exhausted) ==>
                r == Registered(|old(table.threads)| + |others| + 1)
    {
      match status {
        case DeadOrDying => return Failed(AlreadyDied);
        case Active => return Failed(AlreadyActive);
        case Uninit =>
      }
      if table.exhausted { return Failed(Overflowed); }
      var k := 0;
      while k < |others|
        invariant 0 <= k <= |others|
        invariant table.Valid() && old(table.threads) <= table.threads
        invariant table.names == old(table.names) + others[..k]
        invariant status == Uninit && shortId == old(shortId)
      {
        var other := table.Push(others[k]);
        k := k + 1;
      }
      var index := table.Push(name);
      match table.threads[index] {
        case IdOverflow => return Failed(Overflowed);
        case Record(id, _) =>
          status := Active;
          shortId := Some(id);
          return Registered(id);
      }
    }

    /** The local half of `LocalThreadState::drop`. */
    method Depart()
      requires Legal() && status == Active
      modifies this
      ensures Legal() && status == DeadOrDying && shortId == None
    {
      status := DeadOrDying;
      shortId := None;
    }

    /** Thread-local storage that is initialized again after its destruction:
        the thread does not get a second id, and the table stays as it is. */
    method ReinitAfterDeath(table: ThreadTable, others: seq<nat>) returns (r: InitResult)
      requires Legal() && table.Valid() && status == Active
      modifies this, table
      ensures Legal() && table.Valid() && r == Failed(AlreadyDied)
      ensures status == DeadOrDying && shortId == None && table.threads == old(table.threads)
    {
      Depart();
      r := InitThread(table, others);
    }

    /** A new header, biased towards this thread if it has an id. */
    method CreateHeader(table: ThreadTable, others: seq<nat>) returns (header: RawBrcHeader)
      requires Legal() && table.Valid()
      modifies this, table
      ensures Legal() && table.Valid() && old(table.threads) <= table.threads
      ensures fresh(header) && header.Settled() && header.Count() == 1
      ensures header.Biased().owner == shortId && header.Shared().merged == shortId.None?
      ensures old(status) != Uninit ==> status == old(status) && shortId == old(shortId)
      ensures old(status) == Uninit && header.Shared().merged ==> |table.threads| > MAX_SHORT_ID
      ensures old(status) == Uninit && header.Biased().owner.Some? ==>
                Lookup(table.threads, header.Biased().owner.value)
                  == Some(Record(header.Biased().owner.value, name))
    {
      var existing := ExistingShortId();
      match existing {
        case Id(id) => header := new RawBrcHeader(Some(id));
        case IsDead => header := new RawBrcHeader(None);
        case Uninitialized =>
          var r := InitThread(table, others);
          if r.Registered? {
            header := new RawBrcHeader(Some(r.shortId));
          } else {
            header := new RawBrcHeader(None);
          }
      }
    }
  }

  // ----- what the table guarantees -----

  /** A short id belongs to one thread for ever: looking it up gives the record
      of the thread that was pushed at its index. */
  lemma LookupFindsOwner(threads: seq<Entry>, names: seq<nat>, id: nat)
    requires IsTable(threads, names) && IsShortId(id)
    ensures Lookup(threads, id) ==
            if id <= |names| then Some(Record(id, names[id - 1])) else None
  {
  }

  /** No two slots carry the same short id. */
  lemma IdsAreNotReused(threads: seq<Entry>, names: seq<nat>, j: nat, k: nat)
    requires IsTable(threads, names) && j < |threads| && k < |threads|
    requires threads[j].Record? && threads[k].Record? && threads[j].shortId == threads[k].shortId
    ensures j == k && j + 1 == threads[j].shortId <= MAX_SHORT_ID
  {
    assert threads[j] == EntryFor(j, names[j]) && threads[k] == EntryFor(k, names[k]);
  }

  /** What a header stores as its owner leads back to the record of the thread
      that created it, however many threads have registered since. */
  lemma OwnerLeadsBack(threads: seq<Entry>, later: seq<Entry>, id: nat, owner: nat, raw: nat)
    requires IsShortId(id) && Lookup(threads, id) == Some(Record(id, owner)) && threads <= later
    requires raw == BiasedToRaw(BiasedWord(Some(id), 1))
    ensures BiasedFromRaw(raw).owner == Some(id)
    ensures Lookup(later, BiasedFromRaw(raw).owner.value) == Some(Record(id, owner))
  {
    BiasedFromTo(BiasedWord(Some(id), 1));
    assert later[id - 1] == threads[id - 1];
  }
}
