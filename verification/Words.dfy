/** The two packed words of a header, as the values they decode to, and the
    effect of every atomic access on them. `Packing` relates them to raw bits. */
module Words {

  datatype Option<+T> = None | Some(value: T)

  /** The 20-bit biased count. */
  const BIASED_MAX: nat := 0xF_FFFF
  /** The signed 62-bit shared count of a 64-bit target. */
  const SHARED_BITS: nat := 62
  const SHARED_MAX: int := 0x1FFF_FFFF_FFFF_FFFF
  const SHARED_MIN: int := -0x2000_0000_0000_0000
  const OVERFLOW_THRESHOLD: int := SHARED_MAX / 2
  /** The 32-bit weak count. */
  const WEAK_LOCKED: nat := 0xFFFF_FFFF
  const WEAK_OVERFLOW_THRESHOLD: nat := WEAK_LOCKED / 2

  datatype BiasedWord = BiasedWord(owner: Option<nat>, count: nat)

  const UNOWNED: BiasedWord := BiasedWord(None, 0)

  datatype SharedWord = SharedWord(count: int, merged: bool, queued: bool)

  /** `fetch_add(1)` on the raw word. A count of -1 is all ones, so the carry
      leaves the count and runs into the flag bits. */
  function FetchAddOne(w: SharedWord): SharedWord {
    if w.count == -1 then
      SharedWord(0, !w.merged, if w.merged then !w.queued else w.queued)
    else if w.count == SHARED_MAX then
      w.(count := SHARED_MIN)
    else
      w.(count := w.count + 1)
  }

  /** The word a shared decrement writes: a negative count asks for a merge. */
  function Decremented(w: SharedWord): SharedWord {
    SharedWord(w.count - 1, w.merged, w.queued || w.count - 1 < 0)
  }

  /** The word an explicit merge writes after reading `biased`. */
  function Merged(w: SharedWord, biased: nat): SharedWord {
    SharedWord(w.count + biased, true, w.queued)
  }

  /** No strong reference is left and none can be recovered. */
  predicate IsExhausted(w: SharedWord) {
    w.merged && w.count == 0
  }

  /** The number of references the two words stand for. */
  function Total(b: BiasedWord, w: SharedWord): int {
    if w.merged then w.count else b.count + w.count
  }

  /** `Negative` is the failed internal check on the count: an abort with debug
      assertions, a meaningless number without. */
  datatype CountResult = Exact(n: nat) | AtLeast(bound: nat) | Negative

  function Measured(n: int): CountResult {
    if n < 0 then Negative else Exact(n)
  }

  /** What `strong_count` answers from the two words it loaded. */
  function CountFrom(me: Option<nat>, w: SharedWord, b: BiasedWord): CountResult {
    if w.merged then Measured(w.count)
    else if b.owner == me then Measured(b.count + w.count)
    else AtLeast(if w.count < 0 then 0 else w.count)
  }
}
