/** The raw bits of the two words. A word with disjoint bit fields is the sum of
    its fields, so `|` of fields is addition, masks are remainders and shifts
    are division. The shared word is treated for every count width. */
module Packing {
  import opened Words

  // ----- the shared word: n count bits, then the merged and the queued bit -----

  function Pow2(n: nat): (p: nat)
    ensures p >= 1
  {
    if n == 0 then 1 else 2 * Pow2(n - 1)
  }

  /** Counts of n bits reach from -Half(n) to Half(n) - 1. */
  function Half(n: nat): int
    requires n >= 1
  {
    Pow2(n - 1)
  }

  function Bit(b: bool): nat {
    if b then 1 else 0
  }

  /** The range of an n-bit two's complement count. */
  ghost predicate Fits(n: nat, w: SharedWord)
    requires n >= 1
  {
    -Half(n) <= w.count < Half(n)
  }

  function SharedToRaw(n: nat, w: SharedWord): nat
    requires n >= 1 && Fits(n, w)
  {
    w.count % Pow2(n) + Bit(w.merged) * Pow2(n) + Bit(w.queued) * (2 * Pow2(n))
  }

  function SharedFromRaw(n: nat, raw: nat): SharedWord
    requires n >= 1
  {
    var low := raw % Pow2(n);
    SharedWord(if low < Half(n) then low else low - Pow2(n),
               raw / Pow2(n) % 2 == 1,
               raw / (2 * Pow2(n)) % 2 == 1)
  }

  /** `fetch_or(MERGED_BIT)`. */
  function WithMergedBit(n: nat, raw: nat): nat {
    if raw / Pow2(n) % 2 == 1 then raw else raw + Pow2(n)
  }

  /** `fetch_add(1)`, wrapping at the width of the word. */
  function RawAddOne(n: nat, raw: nat): nat {
    (raw + 1) % (4 * Pow2(n))
  }

  /** A raw word, cut into its fields. */
  lemma Fields(p: nat, raw: nat, low: nat, m: bool, q: bool)
    requires p >= 1 && low < p && raw == low + Bit(m) * p + Bit(q) * (2 * p)
    ensures raw % p == low && raw / p == Bit(m) + 2 * Bit(q)
    ensures raw / (2 * p) == Bit(q)
    ensures raw < 4 * p
  {
    Quotient(raw, p, Bit(m) + 2 * Bit(q), low);
    Quotient(raw, 2 * p, Bit(q), low + Bit(m) * p);
  }

  lemma AtLeast(m: int, p: nat)
    requires m >= 1
    ensures m * p >= p
  {
    assert m * p == (m - 1) * p + p;
  }

  /** Quotient and remainder are unique. */
  lemma Quotient(x: int, p: nat, k: int, r: nat)
    requires p >= 1 && r < p && x == k * p + r
    ensures x / p == k && x % p == r
  {
    var d, e := x / p, x % p;
    assert d * p + e == k * p + r;
    assert (d - k) * p == r - e;
    assert (k - d) * p == e - r;
    if d > k { AtLeast(d - k, p); } else if d < k { AtLeast(k - d, p); }
  }

  /** What a word decodes to, by its fields. */
  lemma Decodes(n: nat, raw: nat, low: nat, m: bool, q: bool)
    requires n >= 1 && low < Pow2(n) && raw == low + Bit(m) * Pow2(n) + Bit(q) * (2 * Pow2(n))
    ensures SharedFromRaw(n, raw) == SharedWord(if low < Half(n) then low else low - Pow2(n), m, q)
    ensures raw < 4 * Pow2(n)
  {
    Fields(Pow2(n), raw, low, m, q);
  }

  /** Every raw word has fields. */
  lemma Cut(p: nat, raw: nat) returns (low: nat, m: bool, q: bool)
    requires p >= 1 && raw < 4 * p
    ensures low < p && raw == low + Bit(m) * p + Bit(q) * (2 * p)
  {
    q := raw >= 2 * p;
    var r := if q then raw - 2 * p else raw;
    m := r >= p;
    low := if m then r - p else r;
  }

  lemma CountResidue(n: nat, c: int)
    requires n >= 1 && -Half(n) <= c < Half(n)
    ensures c % Pow2(n) == if c >= 0 then c else c + Pow2(n)
  {
    var p := Pow2(n);
    if c >= 0 { Quotient(c, p, 0, c); } else { Quotient(c, p, -1, c + p); }
  }

  /** Decoding undoes encoding. */
  lemma SharedFromTo(n: nat, w: SharedWord)
    requires n >= 1 && Fits(n, w)
    ensures SharedToRaw(n, w) < 4 * Pow2(n)
    ensures SharedFromRaw(n, SharedToRaw(n, w)) == w
  {
    CountResidue(n, w.count);
    Fields(Pow2(n), SharedToRaw(n, w), w.count % Pow2(n), w.merged, w.queued);
  }

  /** Encoding undoes decoding, on every raw word. */
  lemma SharedToFrom(n: nat, raw: nat)
    requires n >= 1 && raw < 4 * Pow2(n)
    ensures Fits(n, SharedFromRaw(n, raw))
    ensures SharedToRaw(n, SharedFromRaw(n, raw)) == raw
  {
    var low, m, q := Cut(Pow2(n), raw);
    Fields(Pow2(n), raw, low, m, q);
    var w := SharedFromRaw(n, raw);
    CountResidue(n, w.count);
    assert w.count % Pow2(n) == low;
  }

  /** Setting the merged bit changes nothing else. */
  lemma MergedBitOnly(n: nat, raw: nat)
    requires n >= 1 && raw < 4 * Pow2(n)
    ensures WithMergedBit(n, raw) < 4 * Pow2(n)
    ensures SharedFromRaw(n, WithMergedBit(n, raw)) == SharedFromRaw(n, raw).(merged := true)
  {
    var low, m, q := Cut(Pow2(n), raw);
    Fields(Pow2(n), raw, low, m, q);
    Fields(Pow2(n), WithMergedBit(n, raw), low, true, q);
  }

  /** The typed effect of a raw increment: it carries out of -1 into the flags
      and turns the largest count into the smallest. */
  function AddOneAt(n: nat, w: SharedWord): SharedWord
    requires n >= 1
  {
    if w.count == -1 then SharedWord(0, !w.merged, if w.merged then !w.queued else w.queued)
    else if w.count == Half(n) - 1 then w.(count := -Half(n))
    else w.(count := w.count + 1)
  }

  lemma RawAddOneFields(p: nat, raw: nat, low: nat, m: bool, q: bool)
    requires p >= 1 && low < p && raw == low + Bit(m) * p + Bit(q) * (2 * p)
    ensures var next := (raw + 1) % (4 * p);
      next == if low + 1 < p then raw + 1
              else Bit(!m) * p + Bit(if m then !q else q) * (2 * p)
  {
    if low + 1 == p && m && q {
      Quotient(raw + 1, 4 * p, 1, 0);
    } else {
      Quotient(raw + 1, 4 * p, 0, raw + 1);
    }
  }

  lemma RawAddOneIs(n: nat, raw: nat)
    requires n >= 1 && raw < 4 * Pow2(n)
    ensures RawAddOne(n, raw) < 4 * Pow2(n)
    ensures SharedFromRaw(n, RawAddOne(n, raw)) == AddOneAt(n, SharedFromRaw(n, raw))
  {
    var low, m, q := Cut(Pow2(n), raw);
    Decodes(n, raw, low, m, q);
    RawAddOneFields(Pow2(n), raw, low, m, q);
    if low + 1 < Pow2(n) {
      Decodes(n, RawAddOne(n, raw), low + 1, m, q);
    } else {
      Decodes(n, RawAddOne(n, raw), 0, !m, if m then !q else q);
    }
  }

  lemma RawAddOneIffTyped(n: nat, raw: nat)
    requires n >= 1 && raw < 4 * Pow2(n)
    ensures var w := SharedFromRaw(n, raw);
      (SharedFromRaw(n, RawAddOne(n, raw)) == w.(count := w.count + 1)) <==>
        (w.count != -1 && w.count != Half(n) - 1)
  {
    RawAddOneIs(n, raw);
  }

  // ----- the 64-bit target -----

  lemma {:induction false} Pow2Add(a: nat, b: nat)
    ensures Pow2(a + b) == Pow2(a) * Pow2(b)
  {
    if a > 0 {
      Pow2Add(a - 1, b);
      assert 2 * (Pow2(a - 1) * Pow2(b)) == (2 * Pow2(a - 1)) * Pow2(b);
    }
  }

  const SHARED_HALF: nat := 0x2000_0000_0000_0000
  const WORD: nat := 0x1_0000_0000_0000_0000

  lemma Widths()
    ensures Pow2(SHARED_BITS - 1) == SHARED_HALF == SHARED_MAX + 1 == 0 - SHARED_MIN
    ensures 4 * Pow2(SHARED_BITS) == WORD
  {
    assert Pow2(4) == 16;
    assert Pow2(5) == 32;
    Pow2Add(4, 4);
    Pow2Add(8, 8);
    Pow2Add(16, 16);
    Pow2Add(16, 8);
    Pow2Add(24, 5);
    Pow2Add(32, 29);
  }

  /** The increment the protocol uses is the raw one. */
  lemma FetchAddOneIsRaw(raw: nat)
    requires raw < WORD
    ensures RawAddOne(SHARED_BITS, raw) < WORD
    ensures SharedFromRaw(SHARED_BITS, RawAddOne(SHARED_BITS, raw)) == FetchAddOne(SharedFromRaw(SHARED_BITS, raw))
  {
    Widths();
    RawAddOneIs(SHARED_BITS, raw);
  }

  // ----- the biased word: a 12-bit owner id (0 for none), then a 20-bit count -----

  const MAX_SHORT_ID: nat := 0xFFF
  const BIASED_WORD: nat := 0x1_0000_0000

  predicate FitsBiased(b: BiasedWord) {
    && (b.owner.Some? ==> 1 <= b.owner.value <= MAX_SHORT_ID)
    && b.count <= BIASED_MAX
  }

  function BiasedToRaw(b: BiasedWord): nat
    requires FitsBiased(b)
  {
    b.count * 0x1000 + (match b.owner case Some(id) => id case None => 0)
  }

  function BiasedFromRaw(raw: nat): BiasedWord {
    var id := raw % 0x1000;
    BiasedWord(if id == 0 then None else Some(id), raw / 0x1000 % 0x10_0000)
  }

  lemma BiasedFromTo(b: BiasedWord)
    requires FitsBiased(b)
    ensures BiasedToRaw(b) < BIASED_WORD && BiasedFromRaw(BiasedToRaw(b)) == b
  {
  }

  lemma BiasedToFrom(raw: nat)
    requires raw < BIASED_WORD
    ensures FitsBiased(BiasedFromRaw(raw)) && BiasedToRaw(BiasedFromRaw(raw)) == raw
  {
  }

  /** The fields sit where the masks and shifts expect them. */
  lemma BiasedLayout(b: BiasedWord)
    requires FitsBiased(b)
    ensures BiasedToRaw(b) / 0x1000 == b.count
    ensures if b.owner.Some? then BiasedToRaw(b) % 0x1000 == b.owner.value
            else BiasedToRaw(b) % 0x1000 == 0
    ensures b.count < BIASED_MAX ==> BiasedToRaw(b.(count := b.count + 1)) == BiasedToRaw(b) + 0x1000
    ensures BiasedToRaw(UNOWNED) == 0
  {
  }

  lemma SharedLayout(n: nat, w: SharedWord)
    requires n >= 1 && Fits(n, w)
    ensures var raw := SharedToRaw(n, w);
      && (w.queued <==> raw / (2 * Pow2(n)) == 1)
      && (w.merged <==> raw / Pow2(n) % 2 == 1)
      && (raw % Pow2(n) - w.count) % Pow2(n) == 0
  {
    CountResidue(n, w.count);
    Fields(Pow2(n), SharedToRaw(n, w), w.count % Pow2(n), w.merged, w.queued);
    if w.count >= 0 { Quotient(0, Pow2(n), 0, 0); } else { Quotient(Pow2(n), Pow2(n), 1, 0); }
  }
}
