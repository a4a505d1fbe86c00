/** The header as an object over its raw words. Each method is one call as one
    thread runs it; where the code retries a compare-exchange, `others` lists
    the words other threads leave behind before each attempt. The contracts say
    what a call does to the count, whatever the others did. */
module Header {
  import opened Words
  import opened Packing

  predicate IsShortId(id: nat) {
    1 <= id <= MAX_SHORT_ID
  }

  /** How a compare-exchange loop ended: with a value, or in an abort. */
  datatype Outcome<T> = Done(value: T) | Abort

  /** What remains to be done after a decrement. */
  datatype After = Nothing | Destroy | Enqueue

  // ----- compare-exchange loops -----

  /** The word attempt `n` of a loop finds, when others leave `others` before
      the write of each attempt. */
  function Found(first: nat, others: seq<nat>, n: nat): nat
    requires n <= |others|
  {
    if n == 0 then first else others[n - 1]
  }

  /** The attempts before `n` were in vain: the word was another by then. */
  ghost predicate Retried(first: nat, others: seq<nat>, n: nat) {
    n <= |others| && forall k | 0 <= k < n :: others[k] != Found(first, others, k)
  }

  /** Attempt `n` succeeds: the word is still the one it found. */
  ghost predicate Succeeds(first: nat, others: seq<nat>, n: nat) {
    Retried(first, others, n) && (n == |others| || others[n] == Found(first, others, n))
  }

  /** The word ends the loop of an upgrade, or of a merge. */
  predicate StopsUpgrade(w: SharedWord) {
    (w.merged && w.count == 0) || w.count == SHARED_MAX
  }

  predicate StopsMerge(w: SharedWord, biased: nat) {
    w.merged || w.count + biased > SHARED_MAX
  }

  /** The loop succeeds at one attempt and no other. */
  lemma SucceedsOnce(first: nat, others: seq<nat>, m: nat, n: nat)
    requires Succeeds(first, others, m) && Succeeds(first, others, n)
    ensures m == n
  {
  }

  class RawBrcHeader {
    var sharedWord: nat
    var biasedWord: nat

    predicate Valid()
      reads this
    {
      sharedWord < WORD && biasedWord < BIASED_WORD
    }

    function Shared(): SharedWord
      reads this
    {
      SharedFromRaw(SHARED_BITS, sharedWord)
    }

    function Biased(): BiasedWord
      reads this
    {
      BiasedFromRaw(biasedWord)
    }

    /** The number of references the header stands for. */
    function Count(): int
      reads this
    {
      Total(Biased(), Shared())
    }

    /** The words of a header in use: a biased count of at least one while
        unmerged, and no owner once merged. */
    ghost predicate Settled()
      reads this
    {
      && Valid()
      && if Shared().merged then Biased() == UNOWNED else Biased().owner.Some? && Biased().count >= 1
    }

    /** The owner increments its own half, unless that is full. */
    static predicate TakesBiased(thisId: Option<nat>, b: BiasedWord) {
      thisId.Some? && b.owner == thisId && b.count < BIASED_MAX
    }

    /** `init`: one reference, biased towards the thread if it has a short id. */
    constructor (thisId: Option<nat>)
      requires thisId.Some? ==> IsShortId(thisId.value)
      ensures Settled() && Count() == 1 && Biased().owner == thisId
      ensures Shared().merged == thisId.None? && !Shared().queued
      ensures if thisId.Some? then Biased().count == 1 && Shared().count == 0
              else Biased().count == 0 && Shared().count == 1
    {
      var w := if thisId.Some? then SharedWord(0, false, false) else SharedWord(1, true, false);
      var b := if thisId.Some? then BiasedWord(thisId, 1) else UNOWNED;
      Widths();
      SharedFromTo(SHARED_BITS, w);
      BiasedFromTo(b);
      sharedWord := SharedToRaw(SHARED_BITS, w);
      biasedWord := BiasedToRaw(b);
    }

    // ----- increments -----

    /** The owner's load, check and plain store. */
    method AttemptBiasedIncrement(thisId: Option<nat>) returns (ok: bool)
      requires Valid()
      modifies this`biasedWord
      ensures Valid()
      ensures ok <==> TakesBiased(thisId, old(Biased()))
      ensures if ok then Biased() == old(Biased()).(count := old(Biased()).count + 1)
              else biasedWord == old(biasedWord)
      ensures biasedWord != old(biasedWord) ==> thisId.Some? && old(Biased()).owner == thisId
      ensures thisId.Some? && old(Biased()).owner == thisId && old(Biased()).count < BIASED_MAX ==>
                ok && Biased().count == old(Biased()).count + 1
      ensures old(Biased()).count == BIASED_MAX ==> !ok
    {
      var b := BiasedFromRaw(biasedWord);
      BiasedToFrom(biasedWord);
      if b.count == BIASED_MAX { return false; }
      if thisId.None? { return false; }
      if b.owner != thisId { return false; }
      BiasedFromTo(b.(count := b.count + 1));
      biasedWord := BiasedToRaw(b.(count := b.count + 1));
      return true;
    }

    /** The raw `fetch_add(1)`, checked against the overflow threshold afterwards. */
    method IncrementStrongShared() returns (aborts: bool)
      requires Valid()
      modifies this`sharedWord
      ensures Valid()
      ensures Shared() == FetchAddOne(old(Shared()))
      ensures aborts <==> old(Shared()).count > OVERFLOW_THRESHOLD
    {
      var seen := SharedFromRaw(SHARED_BITS, sharedWord);
      FetchAddOneIsRaw(sharedWord);
      sharedWord := RawAddOne(SHARED_BITS, sharedWord);
      aborts := seen.count > OVERFLOW_THRESHOLD;
    }

    /** One more reference, exactly if it is added on the biased side or not to -1. */
    method IncrementStrong(thisId: Option<nat>) returns (aborts: bool)
      requires Settled()
      modifies this
      ensures Valid()
      ensures !aborts ==>
                (Settled() && Count() == old(Count()) + 1 <==>
                 TakesBiased(thisId, old(Biased())) || old(Shared()).count != -1)
      ensures biasedWord != old(biasedWord) ==> thisId.Some? && old(Biased()).owner == thisId
      ensures thisId.Some? && old(Biased()).owner == thisId && old(Biased()).count < BIASED_MAX ==>
                sharedWord == old(sharedWord) && Biased().count == old(Biased()).count + 1
      ensures thisId.None? || old(Biased()).owner != thisId || old(Biased()).count == BIASED_MAX ==>
                biasedWord == old(biasedWord)
      ensures Biased().owner == old(Biased()).owner
      ensures if TakesBiased(thisId, old(Biased())) then sharedWord == old(sharedWord) && !aborts
              else biasedWord == old(biasedWord) && (aborts <==> old(Shared()).count > OVERFLOW_THRESHOLD)
    {
      var ok := AttemptBiasedIncrement(thisId);
      if ok { return false; }
      aborts := IncrementStrongShared();
    }

    /** A compare-exchange loop on the shared word, `fetch_update` in effect:
        `update` computes the next word from the one found, or stops the loop. */
    method FetchUpdate(update: nat -> Option<nat>, others: seq<nat>)
      returns (ok: bool, seen: nat, ghost n: nat)
      modifies this`sharedWord
      ensures Retried(old(sharedWord), others, n) && seen == Found(old(sharedWord), others, n)
      ensures forall k | 0 <= k < n :: update(Found(old(sharedWord), others, k)).Some?
      ensures if ok then Succeeds(old(sharedWord), others, n) && update(seen) == Some(sharedWord)
              else update(seen) == None && sharedWord == seen
    {
      var j := 0;
      n := 0;
      seen := sharedWord;
      while true
        invariant j == n && Retried(old(sharedWord), others, n)
        invariant seen == sharedWord == Found(old(sharedWord), others, n)
        invariant forall k | 0 <= k < n :: update(Found(old(sharedWord), others, k)).Some?
        decreases |others| - j
      {
        var next := update(seen);
        if next == None { return false, seen, n; }
        if j < |others| {
          sharedWord, j := others[j], j + 1;
          if sharedWord != seen {
            seen, n := sharedWord, j;
            continue;
          }
        }
        sharedWord := next.value;
        return true, seen, n;
      }
    }

    /** The word found is one of those the loop was given. */
    static lemma FoundAmong(first: nat, others: seq<nat>, n: nat)
      requires n <= |others|
      requires first < WORD && forall k | 0 <= k < |others| :: others[k] < WORD
      ensures Found(first, others, n) in [first] + others && Found(first, others, n) < WORD
    {
      assert ([first] + others)[n] == Found(first, others, n);
    }

    /** The raw word of a shared word in range. */
    static function Encoded(w: SharedWord): (next: nat)
      requires SHARED_MIN <= w.count <= SHARED_MAX
      ensures next < WORD && SharedFromRaw(SHARED_BITS, next) == w
    {
      Widths();
      SharedFromTo(SHARED_BITS, w);
      SharedToRaw(SHARED_BITS, w)
    }

    /** The word an upgrade writes over `raw`, unless it refuses or aborts. */
    static function Upgraded(raw: nat): (next: Option<nat>)
    {
      var w := SharedFromRaw(SHARED_BITS, raw);
      if IsExhausted(w) || !(SHARED_MIN <= w.count < SHARED_MAX) then None
      else Some(Encoded(w.(count := w.count + 1)))
    }

    /** The word a shared decrement writes over `raw`, unless it aborts. */
    static function Lowered(raw: nat): (next: Option<nat>)
    {
      var w := SharedFromRaw(SHARED_BITS, raw);
      if !(SHARED_MIN < w.count <= SHARED_MAX) then None
      else Some(Encoded(SharedWord(w.count - 1, w.merged, if w.count - 1 < 0 then true else w.queued)))
    }

    /** The word an explicit merge writes over `raw`, unless it aborts. */
    static function MergedWith(biased: nat, raw: nat): (next: Option<nat>)
    {
      var w := SharedFromRaw(SHARED_BITS, raw);
      if w.merged || !(SHARED_MIN <= w.count + biased <= SHARED_MAX) then None
      else Some(Encoded(SharedWord(w.count + biased, true, w.queued)))
    }

    /** The retry loop of `increment_strong_unless_zero`. It replaces the word it
        finds by that word plus one reference, or leaves an exhausted word alone. */
    method UpdateUnlessZero(others: seq<nat>) returns (r: Outcome<bool>, seen: nat, ghost n: nat)
      requires Valid()
      requires forall k | 0 <= k < |others| :: others[k] < WORD
      modifies this`sharedWord
      ensures Valid() && seen in [old(sharedWord)] + others
      ensures Retried(old(sharedWord), others, n) && seen == Found(old(sharedWord), others, n)
      ensures forall k | 0 <= k < n :: !StopsUpgrade(SharedFromRaw(SHARED_BITS, Found(old(sharedWord), others, k)))
      ensures r == Done(true) ==> Succeeds(old(sharedWord), others, n)
      ensures var w := SharedFromRaw(SHARED_BITS, seen);
        match r
        case Done(true) => !IsExhausted(w) && Shared() == w.(count := w.count + 1)
        case Done(false) => IsExhausted(w) && sharedWord == seen
        case Abort => w.count == SHARED_MAX && sharedWord == seen
    {
      ghost var first := sharedWord;
      var ok;
      ok, seen, n := FetchUpdate(raw => Upgraded(raw), others);
      FoundAmong(first, others, n);
      Decoded(seen);
      forall k | 0 <= k < n
        ensures !StopsUpgrade(SharedFromRaw(SHARED_BITS, Found(first, others, k)))
      {
        assert Upgraded(Found(first, others, k)).Some?;
      }
      var w := SharedFromRaw(SHARED_BITS, seen);
      r := if ok then Done(true) else if IsExhausted(w) then Done(false) else Abort;
    }

    /** `increment_strong_unless_zero`: a success is one more reference to an
        object that is not exhausted. */
    method IncrementStrongUnlessZero(thisId: Option<nat>, others: seq<nat>)
      returns (r: Outcome<bool>, seen: nat, ghost n: nat)
      requires Settled()
      requires forall k | 0 <= k < |others| :: others[k] < WORD
      modifies this
      ensures Valid() && seen in [old(sharedWord)] + others
      ensures Retried(old(sharedWord), others, n) && seen == Found(old(sharedWord), others, n)
      ensures forall k | 0 <= k < n :: !StopsUpgrade(SharedFromRaw(SHARED_BITS, Found(old(sharedWord), others, k)))
      ensures r == Done(true) && biasedWord == old(biasedWord) ==> Succeeds(old(sharedWord), others, n)
      ensures biasedWord != old(biasedWord) ==> thisId.Some? && old(Biased()).owner == thisId
      ensures thisId.Some? && old(Biased()).owner == thisId && old(Biased()).count < BIASED_MAX ==>
                sharedWord == old(sharedWord) && Biased().count == old(Biased()).count + 1
      ensures thisId.None? || old(Biased()).owner != thisId || old(Biased()).count == BIASED_MAX ==>
                biasedWord == old(biasedWord)
      ensures var w := SharedFromRaw(SHARED_BITS, seen);
        match r
        case Done(true) =>
          && !IsExhausted(w) && Shared().merged == w.merged && Shared().queued == w.queued
          && Total(Biased(), Shared()) == Total(old(Biased()), w) + 1
          && Biased().owner == old(Biased()).owner
        case Done(false) => IsExhausted(w) && sharedWord == seen && biasedWord == old(biasedWord)
        case Abort => w.count == SHARED_MAX
      ensures if TakesBiased(thisId, old(Biased())) then r == Done(true) && sharedWord == old(sharedWord)
              else biasedWord == old(biasedWord)
    {
      var ok := AttemptBiasedIncrement(thisId);
      if ok { return Done(true), sharedWord, 0; }
      r, seen, n := UpdateUnlessZero(others);
    }

    // ----- decrements -----

    /** The owner's side of a drop. `None` sends the caller to the shared side. */
    method DecrementBiased(thisId: Option<nat>) returns (r: Option<After>)
      requires Settled()
      modifies this
      ensures Valid()
      ensures r.Some? <==> thisId.Some? && old(Biased()).owner == thisId
      ensures r == None ==> sharedWord == old(sharedWord) && biasedWord == old(biasedWord)
      ensures r.Some? && old(Shared()).count >= 0 ==> Settled()
      ensures r.Some? ==> if old(Biased()).count > 1 then sharedWord == old(sharedWord)
                          else Shared().merged && Biased() == UNOWNED
      ensures r.Some? ==> Count() == old(Count()) - 1 && Shared().queued == old(Shared()).queued
      ensures r.Some? ==> r.value != Enqueue && (r.value == Destroy <==> IsExhausted(Shared()))
    {
      var b := BiasedFromRaw(biasedWord);
      BiasedToFrom(biasedWord);
      if b.owner.None? || thisId.None? || thisId != b.owner { return None; }
      if b.count > 1 {
        BiasedFromTo(b.(count := b.count - 1));
        biasedWord := BiasedToRaw(b.(count := b.count - 1));
        return Some(Nothing);
      }
      var destroy := DecrementBiasedSlow();
      r := Some(if destroy then Destroy else Nothing);
    }

    /** The last biased reference goes: merge the halves and give up ownership. */
    method DecrementBiasedSlow() returns (shouldDrop: bool)
      requires Settled() && !Shared().merged && Biased().count == 1
      modifies this
      ensures Settled() && Shared() == old(Shared()).(merged := true) && Biased() == UNOWNED
      ensures Count() == old(Count()) - 1
      ensures shouldDrop <==> IsExhausted(Shared())
    {
      var seen := SharedFromRaw(SHARED_BITS, sharedWord);
      Widths();
      MergedBitOnly(SHARED_BITS, sharedWord);
      sharedWord := WithMergedBit(SHARED_BITS, sharedWord);
      BiasedFromTo(UNOWNED);
      biasedWord := BiasedToRaw(UNOWNED);
      shouldDrop := seen.count == 0;
    }

    /** The retry loop of `decrement_shared`, decided by the word it replaced:
        the first negative count enqueues, a merged count of zero destroys. */
    method DecrementShared(others: seq<nat>) returns (r: Outcome<After>, seen: nat, ghost n: nat)
      requires Valid()
      requires forall k | 0 <= k < |others| :: others[k] < WORD
      modifies this`sharedWord
      ensures Valid() && seen in [old(sharedWord)] + others
      ensures Retried(old(sharedWord), others, n) && seen == Found(old(sharedWord), others, n)
      ensures forall k | 0 <= k < n :: SharedFromRaw(SHARED_BITS, Found(old(sharedWord), others, k)).count != SHARED_MIN
      ensures r.Done? ==> Succeeds(old(sharedWord), others, n)
      ensures var w := SharedFromRaw(SHARED_BITS, seen);
        match r
        case Done(after) =>
          && Shared().count == w.count - 1 && Shared().merged == w.merged
          && (Shared().queued <==> w.queued || w.count - 1 < 0)
          && (after == Enqueue <==> !w.queued && Shared().queued)
          && (after == Destroy <==> Shared().merged && Shared().count == 0)
        case Abort => w.count == SHARED_MIN && sharedWord == seen
    {
      ghost var first := sharedWord;
      var ok;
      ok, seen, n := FetchUpdate(raw => Lowered(raw), others);
      FoundAmong(first, others, n);
      Decoded(seen);
      forall k | 0 <= k < n
        ensures SharedFromRaw(SHARED_BITS, Found(first, others, k)).count != SHARED_MIN
      {
        assert Lowered(Found(first, others, k)).Some?;
      }
      if !ok { return Abort, seen, n; }
      var w, w' := SharedFromRaw(SHARED_BITS, seen), SharedFromRaw(SHARED_BITS, sharedWord);
      if w.queued != w'.queued { return Done(Enqueue), seen, n; }
      return Done(if w'.merged && w'.count == 0 then Destroy else Nothing), seen, n;
    }

    /** `decrement_strong`: one reference less than in the words it replaced. */
    method DecrementStrong(thisId: Option<nat>, others: seq<nat>) returns (r: Outcome<After>, seen: nat, ghost n: nat)
      requires Settled()
      requires forall k | 0 <= k < |others| :: others[k] < WORD
      modifies this
      ensures Valid() && seen in [old(sharedWord)] + others
      ensures Retried(old(sharedWord), others, n) && seen == Found(old(sharedWord), others, n)
      ensures r.Done? && (thisId.None? || old(Biased()).owner != thisId) ==> Succeeds(old(sharedWord), others, n)
      ensures r.Done? ==> Count() == Total(old(Biased()), SharedFromRaw(SHARED_BITS, seen)) - 1
      ensures r.Done? ==> (r.value == Destroy <==> IsExhausted(Shared()))
      ensures r.Done? ==> (r.value == Enqueue <==> !SharedFromRaw(SHARED_BITS, seen).queued && Shared().queued)
      ensures thisId.Some? && old(Biased()).owner == thisId ==>
                if old(Biased()).count > 1 then sharedWord == old(sharedWord) && r == Done(Nothing)
                else seen == old(sharedWord) && Shared().merged && Biased() == UNOWNED
      ensures thisId.None? || old(Biased()).owner != thisId ==>
                biasedWord == old(biasedWord) && (r.Done? ==> Shared().merged == SharedFromRaw(SHARED_BITS, seen).merged)
      ensures r == Abort ==> SharedFromRaw(SHARED_BITS, seen).count == SHARED_MIN
    {
      seen, n := sharedWord, 0;
      var fast := DecrementBiased(thisId);
      if fast.Some? { return Done(fast.value), seen, n; }
      r, seen, n := DecrementShared(others);
    }

    // ----- merging -----

    /** `explicit_merge` up to the decision: the biased count moves into the
        shared word, and nobody owns the object any more. */
    method ExplicitMerge(tid: nat, others: seq<nat>) returns (r: Outcome<After>, seen: nat, ghost n: nat)
      requires Valid() && IsShortId(tid)
      requires forall k | 0 <= k < |others| :: others[k] < WORD
      modifies this
      ensures Valid() && seen in [old(sharedWord)] + others
      ensures Retried(old(sharedWord), others, n) && seen == Found(old(sharedWord), others, n)
      ensures forall k | 0 <= k < n ::
                !StopsMerge(SharedFromRaw(SHARED_BITS, Found(old(sharedWord), others, k)), old(Biased()).count)
      ensures r.Done? ==> Succeeds(old(sharedWord), others, n)
      ensures var w := SharedFromRaw(SHARED_BITS, seen);
        match r
        case Done(after) =>
          && old(Biased()).owner == Some(tid) && !w.merged
          && Settled() && Biased() == UNOWNED && Shared().merged && Shared().queued == w.queued
          && Shared().count == w.count + old(Biased()).count
          && Count() == Total(old(Biased()), w) >= 0
          && after != Enqueue && (after == Destroy <==> IsExhausted(Shared()))
        case Abort =>
          || old(Biased()).owner != Some(tid) || w.merged
          || w.count + old(Biased()).count > SHARED_MAX || w.count + old(Biased()).count < 0
    {
      var b := BiasedFromRaw(biasedWord);
      BiasedToFrom(biasedWord);
      ghost var first := sharedWord;
      seen, n := sharedWord, 0;
      if b.owner != Some(tid) { return Abort, seen, n; }
      var ok;
      ok, seen, n := FetchUpdate(raw => MergedWith(b.count, raw), others);
      FoundAmong(first, others, n);
      Decoded(seen);
      forall k | 0 <= k < n
        ensures !StopsMerge(SharedFromRaw(SHARED_BITS, Found(first, others, k)), b.count)
      {
        assert MergedWith(b.count, Found(first, others, k)).Some?;
      }
      if !ok { return Abort, seen, n; }
      BiasedFromTo(UNOWNED);
      biasedWord := BiasedToRaw(UNOWNED);
      var w := SharedFromRaw(SHARED_BITS, sharedWord);
      if w.count < 0 { return Abort, seen, n; }
      return Done(if w.count == 0 then Destroy else Nothing), seen, n;
    }

    // ----- reading -----

    /** `strong_count`. Other threads leave `later` in the biased word between
        the two loads. What it says is about the shared word as loaded and the
        biased word as it is then: exact on merged words and on the owner's
        thread, else a lower bound, and `Negative` only for a total below zero. */
    method StrongCount(thisId: Option<nat>, later: nat) returns (r: CountResult)
      requires Valid() && later < BIASED_WORD
      modifies this`biasedWord
      ensures Valid() && biasedWord == later
      ensures r.AtLeast? <==> !Shared().merged && Biased().owner != thisId
      ensures r.Exact? ==> r.n == Count()
      ensures r.AtLeast? ==>
                if Shared().count >= 0 then Count() == r.bound + Biased().count
                else r.bound == 0 && Count() < Biased().count
      ensures r == Negative ==> Count() < 0
      ensures r == CountFrom(thisId, Shared(), Biased())
    {
      var w := SharedFromRaw(SHARED_BITS, sharedWord);
      biasedWord := later;
      var b := BiasedFromRaw(biasedWord);
      if w.merged {
        return Measured(w.count);
      } else if b.owner == thisId {
        return Measured(b.count + w.count);
      } else {
        return AtLeast(if w.count < 0 then 0 else w.count);
      }
    }

    /** `is_definitely_not_unique`. It turns away the threads that could only
        learn a lower bound; it does not say that there is another reference. */
    method IsDefinitelyNotUnique(thisId: Option<nat>) returns (r: bool)
      ensures r <==> Biased().owner.Some? && Biased().owner != thisId
      ensures Settled() ==> (r <==> CountFrom(thisId, Shared(), Biased()).AtLeast?)
      ensures Settled() && !r && Count() >= 0 ==> CountFrom(thisId, Shared(), Biased()) == Exact(Count())
    {
      var b := BiasedFromRaw(biasedWord);
      r := b.owner.Some? && b.owner != thisId;
    }

    // ----- raw words -----

    static lemma Decoded(raw: nat)
      requires raw < WORD
      ensures SHARED_MIN <= SharedFromRaw(SHARED_BITS, raw).count <= SHARED_MAX
    {
      Widths();
      SharedToFrom(SHARED_BITS, raw);
    }
  }
}
