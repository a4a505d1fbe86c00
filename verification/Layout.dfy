/** Where the header and the value sit in one allocation. */
module Layout {
  import opened Words
  import opened Packing

  const ISIZE_MAX: nat := 0x7FFF_FFFF_FFFF_FFFF
  const USIZE_MAX: nat := 0xFFFF_FFFF_FFFF_FFFF
  const MIN_VALUE_ALIGNMENT: nat := 2

  datatype MemLayout = MemLayout(size: nat, align: nat)

  datatype LayoutInfo = LayoutInfo(valueOffset: nat, full: MemLayout)

  ghost predicate IsPowerOfTwo(n: nat) {
    exists k: nat :: n == Power(k)
  }

  ghost function Power(k: nat): nat {
    if k == 0 then 1 else 2 * Power(k - 1)
  }

  /** What `core::alloc::Layout` guarantees of its values. */
  ghost predicate IsLayout(l: MemLayout) {
    l.align > 0 && IsPowerOfTwo(l.align) && l.size + l.align - 1 <= ISIZE_MAX
  }

  function Max(a: nat, b: nat): nat {
    if a < b then b else a
  }

  function RoundUp(n: nat, align: nat): nat
    requires align > 0
  {
    if n % align == 0 then n else n + (align - n % align)
  }

  /** `LayoutInfo::new`: the header's layout extended by the value's, whose
      alignment is at least two; `None` is the layout error. */
  function NewInfo(header: MemLayout, value: MemLayout): Option<LayoutInfo>
    requires header.align > 0
  {
    var align := Max(value.align, MIN_VALUE_ALIGNMENT);
    if value.size + align - 1 > ISIZE_MAX then None
    else
      var offset := RoundUp(header.size, align);
      var full := MemLayout(offset + value.size, Max(header.align, align));
      if full.size + full.align - 1 > ISIZE_MAX then None else Some(LayoutInfo(offset, full))
  }

  /** `header_offset` leads from a value back to its header. */
  function HeaderAddress(info: LayoutInfo, valueAddress: nat): int {
    valueAddress - info.valueOffset
  }

  lemma {:induction false} PowersDivide(j: nat, k: nat)
    requires j <= k
    ensures Power(j) > 0 && Power(k) % Power(j) == 0
    decreases k
  {
    if j == k {
      Positive(j);
    } else {
      PowersDivide(j, k - 1);
      TimesTwo(Power(k - 1), Power(j));
    }
  }

  lemma {:induction false} Positive(k: nat)
    ensures Power(k) > 0
    ensures k > 0 ==> Power(k) % 2 == 0
  {
    if k > 0 { Positive(k - 1); }
  }

  lemma TimesTwo(n: nat, d: nat)
    requires d > 0 && n % d == 0
    ensures 2 * n % d == 0
  {
    Sum(n, n, d);
  }

  lemma Sum(a: nat, b: nat, d: nat)
    requires d > 0 && a % d == 0 && b % d == 0
    ensures (a + b) % d == 0
  {
    var q, r := a / d, b / d;
    assert a == q * d && b == r * d;
    assert a + b == (q + r) * d;
    Multiple(q + r, d);
  }

  lemma Multiple(q: nat, d: nat)
    requires d > 0
    ensures q * d % d == 0
  {
    Quotient(q * d, d, q, 0);
  }

  lemma RoundUpAligns(n: nat, align: nat)
    requires align > 0
    ensures RoundUp(n, align) % align == 0
    ensures n <= RoundUp(n, align) < n + align
  {
    var q, r := n / align, n % align;
    assert n == q * align + r;
    if r != 0 {
      assert RoundUp(n, align) == (q + 1) * align;
      Multiple(q + 1, align);
    }
  }

  /** In every allocation the value lies behind the header and inside the
      block, is aligned, leads back to the block's start, and never sits at the
      address that marks a dangling `Weak`. */
  lemma ValueIsPlaced(header: MemLayout, value: MemLayout, base: nat)
    requires IsLayout(header) && IsLayout(value)
    requires NewInfo(header, value).Some?
    requires base % NewInfo(header, value).value.full.align == 0
    ensures var info := NewInfo(header, value).value;
      && header.size <= info.valueOffset
      && info.valueOffset + value.size == info.full.size <= ISIZE_MAX
      && base % header.align == 0
      && (base + info.valueOffset) % value.align == 0
      && HeaderAddress(info, base + info.valueOffset) == base
      && base + info.valueOffset != USIZE_MAX
  {
    var info := NewInfo(header, value).value;
    var align := Max(value.align, MIN_VALUE_ALIGNMENT);
    var h: nat :| header.align == Power(h);
    var v: nat :| value.align == Power(v);
    var m := Max(v, 1);
    AlignmentPower(v);
    assert align == Power(m);
    RoundUpAligns(header.size, align);
    var f := Max(h, m);
    FullAlignment(h, m);
    PowersDivide(m, f);
    PowersDivide(h, f);
    Divides(base, Power(f), Power(h));
    PowersDivide(v, m);
    PowersDivide(1, m);
    Divides(base, Power(f), Power(m));
    Sum(base, info.valueOffset, align);
    Divides(base + info.valueOffset, align, Power(v));
    Divides(base + info.valueOffset, align, Power(1));
  }

  /** The smallest place behind `size` bytes for something so aligned. */
  ghost predicate IsLeastOffset(size: nat, align: nat, offset: nat)
    requires align > 0
  {
    && size <= offset && offset % align == 0
    && forall o: nat | size <= o < offset :: o % align != 0
  }

  /** The smallest alignment that serves both. */
  ghost predicate IsLeastAlign(a: nat, b: nat, align: nat)
    requires a > 0 && b > 0
  {
    && align > 0 && align % a == 0 && align % b == 0
    && forall n: nat | 0 < n < align :: n % a != 0 || n % b != 0
  }

  lemma RoundUpIsLeast(n: nat, align: nat)
    requires align > 0
    ensures IsLeastOffset(n, align, RoundUp(n, align))
  {
    RoundUpAligns(n, align);
    forall o: nat | n <= o < RoundUp(n, align)
      ensures o % align != 0
    {
      if o % align == 0 { Between(n, o, align); }
    }
  }

  lemma Monotone(a: nat, b: nat, c: nat)
    requires a <= b
    ensures a * c <= b * c
  {
  }

  /** The next multiple after a non-multiple is not skipped. */
  lemma Between(n: nat, o: nat, align: nat)
    requires align > 0 && n <= o && o % align == 0
    ensures RoundUp(n, align) <= o
  {
    var q, r, p := n / align, n % align, o / align;
    assert n == q * align + r && o == p * align;
    if r != 0 {
      if p <= q { Monotone(p, q, align); } else { Monotone(q + 1, p, align); }
    }
  }

  lemma LargerIsLeast(h: nat, m: nat)
    ensures Power(h) > 0 && Power(m) > 0 && IsLeastAlign(Power(h), Power(m), Max(Power(h), Power(m)))
  {
    Positive(h);
    Positive(m);
    FullAlignment(h, m);
    PowersDivide(h, Max(h, m));
    PowersDivide(m, Max(h, m));
    forall n: nat | 0 < n < Max(Power(h), Power(m))
      ensures n % Power(h) != 0 || n % Power(m) != 0
    {
      if n % Power(h) == 0 { Smaller(Power(h), n); }
      if n % Power(m) == 0 { Smaller(Power(m), n); }
    }
  }

  /** The block is as small and as little aligned as it can be, and there is one
      whenever the padded value and the padded block fit in an `isize`. */
  lemma LayoutIsLeast(header: MemLayout, value: MemLayout, offset: nat, align: nat)
    requires IsLayout(header) && IsLayout(value)
    requires var valueAlign := if value.align < 2 then 2 else value.align;
      IsLeastOffset(header.size, valueAlign, offset) && IsLeastAlign(header.align, valueAlign, align)
    ensures NewInfo(header, value) ==
            if value.size + (if value.align < 2 then 2 else value.align) - 1 <= ISIZE_MAX
               && offset + value.size + align - 1 <= ISIZE_MAX
            then Some(LayoutInfo(offset, MemLayout(offset + value.size, align))) else None
  {
    var h: nat :| header.align == Power(h);
    var v: nat :| value.align == Power(v);
    var m := Max(v, 1);
    AlignmentPower(v);
    var valueAlign := if value.align < 2 then 2 else value.align;
    assert valueAlign == Power(m);
    LargerIsLeast(h, m);
    RoundUpIsLeast(header.size, valueAlign);
    OneLeastOffset(header.size, valueAlign, offset, RoundUp(header.size, valueAlign));
    OneLeastAlign(header.align, valueAlign, align, Max(header.align, valueAlign));
  }

  lemma OneLeastOffset(size: nat, align: nat, a: nat, b: nat)
    requires align > 0 && IsLeastOffset(size, align, a) && IsLeastOffset(size, align, b)
    ensures a == b
  {
  }

  lemma OneLeastAlign(c: nat, d: nat, a: nat, b: nat)
    requires c > 0 && d > 0 && IsLeastAlign(c, d, a) && IsLeastAlign(c, d, b)
    ensures a == b
  {
  }

  lemma AlignmentPower(v: nat)
    ensures Max(Power(v), MIN_VALUE_ALIGNMENT) == Power(Max(v, 1))
  {
    Positive(v);
  }

  lemma FullAlignment(h: nat, m: nat)
    ensures Max(Power(h), Power(m)) == Power(Max(h, m))
  {
    Positive(h);
    Positive(m);
    if h <= m { PowersDivide(h, m); Smaller(Power(h), Power(m)); }
    else { PowersDivide(m, h); Smaller(Power(m), Power(h)); }
  }

  lemma Smaller(d: nat, n: nat)
    requires d > 0 && n > 0 && n % d == 0
    ensures d <= n
  {
  }

  lemma Divides(n: nat, d: nat, e: nat)
    requires d > 0 && e > 0 && n % d == 0 && d % e == 0
    ensures n % e == 0
  {
    var q, r := n / d, d / e;
    assert n == q * d && d == r * e;
    assert q * (r * e) == (q * r) * e;
    Multiple(q * r, e);
  }
}
