/** The header with its weak count, as an object. */
module WeakCount {
  import opened Words
  import opened Packing
  import opened Header

  /** How a downgrade ended; `StillLocked` means that it is still spinning when
      the other threads stop. */
  datatype Downgraded = Added | Overflow | StillLocked

  /** At each turn before `n` the count was locked, or changed before it could be
      replaced; it never was past the threshold. */
  ghost predicate Spun(first: nat, others: seq<nat>, n: nat) {
    && n <= |others|
    && forall k | 0 <= k < n ::
         var c := Found(first, others, k);
         c == WEAK_LOCKED || (c <= WEAK_OVERFLOW_THRESHOLD && others[k] != c)
  }

  class BrcHeader {
    const strong: RawBrcHeader
    var weakCount: nat
    var freed: bool
    /** The `Weak` handles, and whether the strong side still holds its reference. */
    ghost var weaks: set<nat>
    ghost var strongSide: bool

    /** The unlocked count stands for the references there are, and the memory
        is there as long as one is. */
    ghost predicate Balanced()
      reads this
    {
      && weakCount == |weaks| + (if strongSide then 1 else 0)
      && (freed <==> weaks == {} && !strongSide)
    }

    /** A new header carries the one weak reference all strong ones share. */
    constructor (thisId: Option<nat>)
      requires thisId.Some? ==> IsShortId(thisId.value)
      ensures fresh(strong) && strong.Settled() && strong.Count() == 1
      ensures Balanced() && weakCount == 1 && strongSide
    {
      strong := new RawBrcHeader(thisId);
      weakCount := 1;
      freed := false;
      weaks := {};
      strongSide := true;
    }

    /** `drop_weak`, by a `Weak` handle or for the strong side: the count stays
        right, and the memory goes with the last reference of either kind. */
    method DropWeak(ghost w: Option<nat>)
      requires Balanced() && (if w.Some? then w.value in weaks else strongSide)
      modifies this
      ensures Balanced()
      ensures weaks == old(weaks) - (if w.Some? then {w.value} else {})
      ensures strongSide == (old(strongSide) && w.Some?)
    {
      ghost var gone := if w.Some? then {w.value} else {};
      assert |weaks - gone| == |weaks| - |gone|;
      weakCount := weakCount - 1;
      weaks := weaks - gone;
      strongSide := strongSide && w.Some?;
      if weakCount == 0 { freed := true; }
    }

    /** `Weak::clone`: an unchecked 32-bit `fetch_add`, judged by the old count. */
    method CloneWeak(ghost w: nat) returns (aborts: bool)
      requires weakCount <= WEAK_LOCKED
      modifies this`weakCount, this`weaks
      ensures aborts <==> old(weakCount) > WEAK_OVERFLOW_THRESHOLD
      ensures weakCount == if old(weakCount) == WEAK_LOCKED then 0 else old(weakCount) + 1
      ensures !aborts ==> weakCount == old(weakCount) + 1 && weakCount != WEAK_LOCKED
      ensures weaks == old(weaks) + {w}
      ensures !aborts && w !in old(weaks) && !freed && old(Balanced()) ==> Balanced()
    {
      var seen := weakCount;
      weakCount := (weakCount + 1) % (WEAK_LOCKED + 1);
      weaks := weaks + {w};
      aborts := seen > WEAK_OVERFLOW_THRESHOLD;
    }

    /** `downgrade`: adds one to a count it saw unlocked; `others` are the
        counts other threads leave behind while it retries or spins. It replaces
        the count it finds at turn `n`, having met a locked or a changed one at
        every turn before. */
    method Downgrade(others: seq<nat>) returns (r: Downgraded, seen: nat, ghost n: nat)
      modifies this`weakCount
      ensures seen in [old(weakCount)] + others
      ensures Spun(old(weakCount), others, n) && seen == Found(old(weakCount), others, n)
      ensures match r
        case Added =>
          && seen <= WEAK_OVERFLOW_THRESHOLD && weakCount == seen + 1
          && (n == |others| || others[n] == seen)
        case Overflow => WEAK_OVERFLOW_THRESHOLD < seen && seen != WEAK_LOCKED && weakCount == seen
        case StillLocked => seen == WEAK_LOCKED && weakCount == seen && n == |others|
      ensures WEAK_LOCKED !in [old(weakCount)] + others ==> r != StillLocked
    {
      var j := 0;
      n := 0;
      seen := weakCount;
      while true
        invariant j == n && Spun(old(weakCount), others, n)
        invariant seen == weakCount == Found(old(weakCount), others, n)
        decreases |others| - j
      {
        if seen == WEAK_LOCKED {
          if j == |others| { return StillLocked, seen, n; }
          weakCount, j := others[j], j + 1;
          seen, n := weakCount, j;
          continue;
        }
        if seen > WEAK_OVERFLOW_THRESHOLD { return Overflow, seen, n; }
        if j < |others| {
          weakCount, j := others[j], j + 1;
          if weakCount != seen {
            seen, n := weakCount, j;
            continue;
          }
        }
        weakCount := seen + 1;
        return Added, seen, n;
      }
    }

    /** `is_unique` on an unlocked header. Other threads leave `shared` and
        `biased` in the two words before their loads, and `weak` in the weak
        count before the lock; the lock keeps them off it afterwards. A `true`
        answer means one reference in the words as loaded, and no `Weak`. The
        weak count comes back as it was, and past the owner check and the lock
        the answer is the exact one wherever the count can be known. */
    method IsUnique(thisId: Option<nat>, weak: nat, shared: nat, biased: nat) returns (r: bool)
      requires strong.Valid() && shared < WORD && biased < BIASED_WORD
      modifies this`weakCount, strong
      ensures weakCount == old(weakCount) || weakCount == weak
      ensures old(strong.Biased()).owner.Some? && old(strong.Biased()).owner != thisId ==>
                !r && weakCount == old(weakCount)
                && strong.sharedWord == old(strong.sharedWord) && strong.biasedWord == old(strong.biasedWord)
      ensures r ==> weakCount == weak == 1 && strong.Valid() && strong.Count() == 1
      ensures r ==> strong.sharedWord == shared && strong.biasedWord == biased
      ensures r ==> strong.Shared().merged || strong.Biased().owner == thisId
      ensures old(strong.Biased()).owner.None? || old(strong.Biased()).owner == thisId ==>
                weakCount == weak
                && (weak == 1 ==>
                      && strong.sharedWord == shared && strong.biasedWord == biased
                      && (strong.Shared().merged || strong.Biased().owner == thisId ==>
                            (r <==> strong.Count() == 1)))
    {
      var hopeless := strong.IsDefinitelyNotUnique(thisId);
      if hopeless { return false; }
      weakCount := weak;
      if weakCount != 1 { return false; }
      weakCount := WEAK_LOCKED;
      strong.sharedWord := shared;
      var count := strong.StrongCount(thisId, biased);
      weakCount := 1;
      r := count == Exact(1);
    }
  }
}
