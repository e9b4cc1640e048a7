/** Dependency counters kept as Redis bitmaps, and the masks they are compared with. */
module RedisBits {

  function Pow2(k: nat): (p: nat)
    ensures p > 0
  {
    if k == 0 then 1 else 2 * Pow2(k - 1)
  }

  /** The smallest multiple of 8 that is at least n. */
  function RoundUp8(n: nat): (m: nat)
    ensures m % 8 == 0 && n <= m < n + 8
  {
    (n + 7) / 8 * 8
  }

  /** What a reader makes of the string's bytes, most significant bit first. */
  function Number(bits: seq<bool>): nat {
    if bits == [] then 0
    else 2 * Number(bits[..|bits| - 1]) + (if bits[|bits| - 1] then 1 else 0)
  }

  // ---- Numbers and their bits ------------------------------------------------

  lemma {:induction false} NumberBound(bits: seq<bool>)
    ensures Number(bits) < Pow2(|bits|)
  {
    if bits != [] { NumberBound(bits[..|bits| - 1]); }
  }

  lemma {:induction false} Pow2Mono(j: nat, k: nat)
    requires j <= k
    ensures Pow2(j) <= Pow2(k)
  {
    if j < k { Pow2Mono(j, k - 1); }
  }

  /** A set bit at position i weighs 2^(length - 1 - i). */
  lemma {:induction false} NumberAtLeast(bits: seq<bool>, i: nat)
    requires i < |bits| && bits[i]
    ensures Number(bits) >= Pow2(|bits| - 1 - i)
  {
    var front := bits[..|bits| - 1];
    if i < |bits| - 1 {
      NumberAtLeast(front, i);
      assert Pow2(|bits| - 1 - i) == 2 * Pow2(|front| - 1 - i);
    }
  }

  lemma {:induction false} NumberInjective(a: seq<bool>, b: seq<bool>)
    requires |a| == |b| && Number(a) == Number(b)
    ensures a == b
  {
    if a != [] {
      var n := |a| - 1;
      NumberInjective(a[..n], b[..n]);
      assert a == a[..n] + [a[n]] && b == b[..n] + [b[n]];
    }
  }

  lemma {:induction false} ClearBitNumber(bits: seq<bool>, i: nat)
    requires i < |bits|
    ensures Number(bits) / Pow2(|bits| - 1 - i) % 2 == (if bits[i] then 1 else 0)
    ensures Number(bits[i := false]) == Number(bits) - (if bits[i] then Pow2(|bits| - 1 - i) else 0)
  {
    var n := |bits| - 1;
    var front := bits[..n];
    if i < n {
      ClearBitNumber(front, i);
      assert bits[i := false][..n] == front[i := false];
      var p, low := Pow2(n - 1 - i), if bits[n] then 1 else 0;
      assert Pow2(n - i) == 2 * p;
      HalveBoth(Number(front), low, p);
    } else {
      assert bits[i := false][..n] == front;
    }
  }

  lemma HalveBoth(a: nat, low: nat, p: nat)
    requires low < 2 && p > 0
    ensures (2 * a + low) / (2 * p) == a / p
  {
    var q, r := a / p, a % p;
    assert a == p * q + r;
    assert 2 * a + low == (2 * p) * q + (2 * r + low);
    Quotient(2 * a + low, 2 * p, q, 2 * r + low);
  }

  lemma Quotient(x: nat, p: nat, q: nat, r: nat)
    requires p > 0 && r < p && x == p * q + r
    ensures x / p == q
  {
    var q', r' := x / p, x % p;
    assert x == p * q' + r';
    if q' > q {
      AtLeastOnce(q' - q, p);
    } else if q > q' {
      AtLeastOnce(q - q', p);
    }
  }

  lemma AtLeastOnce(k: nat, p: nat)
    requires k >= 1
    ensures p * k >= p
  {
    assert p * k == p + p * (k - 1);
  }

  // ---- Masks -----------------------------------------------------------------

  /** n ones, except at the omitted positions, padded with zeros to whole bytes. */
  function MaskBits(n: nat, omit: set<nat>): (bits: seq<bool>)
    ensures |bits| == RoundUp8(n)
    ensures forall i :: 0 <= i < |bits| ==> (bits[i] <==> i < n && i !in omit)
  {
    seq(RoundUp8(n), i requires 0 <= i => i < n && i !in omit)
  }

  /** mask & ~(1 << k) */
  function ClearBit(mask: nat, k: nat): nat
    ensures ClearBit(mask, k) <= mask
  {
    if mask / Pow2(k) % 2 == 1 && mask >= Pow2(k) then mask - Pow2(k) else mask
  }

  ghost function Elements(s: seq<nat>): set<nat> { set x | x in s }

  lemma AppendBit(bits: seq<bool>, b: bool)
    ensures Number(bits + [b]) == 2 * Number(bits) + (if b then 1 else 0)
  {
    assert (bits + [b])[..|bits|] == bits;
  }

  function Ones(n: nat, zeros: nat): seq<bool> { seq(n + zeros, i requires 0 <= i => i < n) }

  lemma OnesGrow(n: nat, zeros: nat)
    ensures Number(Ones(0, 0)) == 0
    ensures Number(Ones(n + 1, 0)) == 2 * Number(Ones(n, 0)) + 1
    ensures Number(Ones(n, zeros + 1)) == 2 * Number(Ones(n, zeros))
    ensures Ones(n, RoundUp8(n) - n) == MaskBits(n, {})
  {
    AppendBit(Ones(n, 0), true);
    assert Ones(n + 1, 0) == Ones(n, 0) + [true];
    AppendBit(Ones(n, zeros), false);
    assert Ones(n, zeros + 1) == Ones(n, zeros) + [false];
  }

  lemma OmitOne(n: nat, omit: set<nat>, pos: nat)
    requires pos < RoundUp8(n)
    ensures ClearBit(Number(MaskBits(n, omit)), RoundUp8(n) - pos - 1) == Number(MaskBits(n, omit + {pos}))
  {
    var bits := MaskBits(n, omit);
    ClearBitNumber(bits, pos);
    if bits[pos] { NumberAtLeast(bits, pos); }
    assert MaskBits(n, omit + {pos}) == bits[pos := false];
  }

  /** The loops of the executor build exactly the mask: n ones, shifted to fill whole
      bytes, with the omitted positions (counted from the most significant end) cleared. */
  method CreateMask(n: nat, omit: seq<nat>) returns (mask: nat)
    requires forall pos :: pos in omit ==> pos < RoundUp8(n)
    ensures mask == Number(MaskBits(n, Elements(omit)))
  {
    hide RoundUp8, Number, ClearBit, Ones, MaskBits;
    var nextMultipleOf8 := RoundUp8(n);
    var diff := nextMultipleOf8 - n;
    OnesGrow(n, 0);
    mask := 0;
    for i := 0 to n
      invariant mask == Number(Ones(i, 0))
    {
      OnesGrow(i, 0);
      mask := 2 * mask + 1;
    }
    for i := 0 to diff
      invariant mask == Number(Ones(n, i))
    {
      OnesGrow(n, i);
      mask := 2 * mask;
    }
    assert Elements(omit[..0]) == {};
    for i := 0 to |omit|
      invariant mask == Number(MaskBits(n, Elements(omit[..i])))
    {
      var pos := omit[i];
      assert pos in omit;
      OmitOne(n, Elements(omit[..i]), pos);
      assert Elements(omit[..i + 1]) == Elements(omit[..i]) + {pos};
      mask := ClearBit(mask, nextMultipleOf8 - pos - 1);
    }
    assert omit[..|omit|] == omit;
  }

  // ---- The bitmap of a dependency counter ------------------------------------

  /** SETBIT key offset 1: the string grows, with zeros, just enough to hold the bit. */
  function SetBit(bits: seq<bool>, offset: nat): seq<bool> {
    var grown := if offset < |bits| then bits
                 else bits + seq(RoundUp8(offset + 1) - |bits|, _ => false);
    if offset < |grown| then grown[offset := true] else grown
  }

  /** The string holds exactly the offsets in `set_`, and is no longer than its highest
      set bit needs; an absent key is the empty string. */
  ghost predicate Represents(bits: seq<bool>, offsets: set<nat>) {
    && |bits| % 8 == 0
    && (forall i :: 0 <= i < |bits| ==> (bits[i] <==> i in offsets))
    && (forall o :: o in offsets ==> o < |bits|)
    && (|bits| > 0 ==> exists o :: o in offsets && |bits| - 8 <= o)
  }

  lemma SetBitRepresents(bits: seq<bool>, offsets: set<nat>, offset: nat)
    requires Represents(bits, offsets)
    ensures Represents(SetBit(bits, offset), offsets + {offset})
  {
    var bits' := SetBit(bits, offset);
    if offset < |bits| {
      var o :| o in offsets && |bits| - 8 <= o;
      assert o in offsets + {offset};
    } else {
      assert |bits| <= RoundUp8(offset + 1);
      assert offset in offsets + {offset} && |bits'| - 8 <= offset;
    }
  }

  ghost function Below(n: nat): (s: set<nat>)
    ensures forall i: nat :: i in s <==> i < n
  {
    if n == 0 then {} else Below(n - 1) + {n - 1}
  }

  /** The check after a SETBIT: the number read equals the full mask. */
  predicate CountCheck(bits: seq<bool>, n: nat) {
    bits != [] && Number(bits) == Number(MaskBits(n, {}))
  }

  /** The check without counting: the number read equals the mask without the own bit,
      or the full mask; an absent key is never ready. */
  predicate PeekCheck(bits: seq<bool>, n: nat, own: nat) {
    bits != [] && (Number(bits) == Number(MaskBits(n, {own})) || Number(bits) == Number(MaskBits(n, {})))
  }

  /** The comparison after a SETBIT and GET. */
  method EqualsFullMask(bits: seq<bool>, n: nat) returns (ready: bool)
    ensures ready <==> CountCheck(bits, n)
  {
    hide Number, MaskBits;
    var mask := CreateMask(n, []);
    assert Elements([]) == {};
    ready := bits != [] && Number(bits) == mask;
  }

  /** The two comparisons after a GET. */
  method EqualsMaskWithoutOwn(bits: seq<bool>, n: nat, own: nat) returns (ready: bool)
    requires own < n
    ensures ready <==> PeekCheck(bits, n, own)
  {
    hide Number, MaskBits;
    var mask := CreateMask(n, [own]);
    var maskNoOmit := CreateMask(n, []);
    assert Elements([own]) == {own} && Elements([]) == {};
    ready := bits != [] && (Number(bits) == mask || Number(bits) == maskNoOmit);
  }

  lemma NoLongerThanMask(bits: seq<bool>, offsets: set<nat>, n: nat)
    requires Represents(bits, offsets) && bits != [] && offsets <= Below(n)
    ensures |bits| <= RoundUp8(n) && (|bits| == RoundUp8(n) || |bits| + 8 <= RoundUp8(n))
  {
    hide RoundUp8, Below;
    var o :| o in offsets && |bits| - 8 <= o;
    assert o in Below(n);
    hide Represents;
    MultiplesOf8(|bits|, RoundUp8(n));
  }

  lemma MultiplesOf8(a: nat, b: nat)
    requires a % 8 == 0 && b % 8 == 0 && a < b + 8
    ensures a <= b
  {
  }

  /** A string that is shorter by a byte reads as a smaller number. */
  lemma ShorterIsSmaller(bits: seq<bool>, mask: seq<bool>, first: nat)
    requires |bits| + 8 <= |mask| && first <= 1 && mask[first]
    ensures Number(bits) < Number(mask)
  {
    hide Number, Pow2;
    NumberAtLeast(mask, first);
    NumberBound(bits);
    Pow2Mono(|bits|, |mask| - 1 - first);
  }

  /** A mask can only equal a string of its own length: shorter strings are too small. */
  lemma EqualMaskEqualBits(bits: seq<bool>, offsets: set<nat>, n: nat, omit: set<nat>)
    requires Represents(bits, offsets) && bits != [] && offsets <= Below(n)
    requires omit == {} || exists own :: omit == {own}
    ensures Number(bits) == Number(MaskBits(n, omit)) <==> bits == MaskBits(n, omit)
  {
    hide Number, Represents, Below;
    var mask := MaskBits(n, omit);
    NoLongerThanMask(bits, offsets, n);
    hide RoundUp8, MaskBits;
    if |bits| == |mask| {
      if Number(bits) == Number(mask) { NumberInjective(bits, mask); }
    } else {
      ShorterIsSmaller(bits, mask, if mask[0] then 0 else 1);
    }
  }

  /** The counting check is true exactly when all n bits are set. */
  lemma CountCheckExact(bits: seq<bool>, offsets: set<nat>, n: nat)
    requires Represents(bits, offsets) && offsets <= Below(n) && n > 0
    ensures CountCheck(bits, n) <==> offsets == Below(n)
  {
    if bits == [] {
      assert 0 in Below(n) && 0 !in offsets;
    } else {
      EqualMaskEqualBits(bits, offsets, n, {});
      MaskedMeansSet(bits, offsets, n, {});
    }
  }

  /** Equal to a mask, bit by bit, means: exactly the offsets of the mask, in a string
      that reaches the mask's last byte. */
  lemma MaskedMeansSet(bits: seq<bool>, offsets: set<nat>, n: nat, omit: set<nat>)
    requires Represents(bits, offsets) && offsets <= Below(n)
    ensures bits == MaskBits(n, omit) <==> offsets == Below(n) - omit && |bits| == RoundUp8(n)
    ensures offsets != {} && n - 1 in offsets ==> |bits| == RoundUp8(n)
  {
    if bits == MaskBits(n, omit) {
      forall i | i in Below(n) - omit ensures i in offsets { assert bits[i]; }
      forall i | i in offsets ensures i in Below(n) - omit { assert bits[i]; }
    }
    if |bits| > 0 {
      var o :| o in offsets && |bits| - 8 <= o;
      assert o in Below(n);
    }
  }

  /** The check without counting, for an edge whose own bit is not set: never true too
      early, and it misses the last dependency exactly when that dependency's bit is
      alone in the last byte. */
  lemma PeekCheckExact(bits: seq<bool>, offsets: set<nat>, n: nat, own: nat)
    requires Represents(bits, offsets) && offsets <= Below(n) && own < n && own !in offsets
    ensures PeekCheck(bits, n, own) <==> offsets == Below(n) - {own} && !(n % 8 == 1 && own == n - 1)
  {
    assert own in Below(n);
    CountCheckExact(bits, offsets, n);
    if bits == [] {
      if n > 1 {
        var other := if own == 0 then 1 else 0;
        assert other in Below(n) - {own} && other !in offsets;
      }
    } else {
      EqualMaskEqualBits(bits, offsets, n, {own});
      MaskedMeansSet(bits, offsets, n, {own});
      if offsets == Below(n) - {own} {
        if own != n - 1 {
          assert n - 1 in offsets;
        } else {
          assert n - 2 in Below(n) - {own} || n == 1;
          var o :| o in offsets && |bits| - 8 <= o;
        }
      }
    }
  }

  // ---- Dependencies and their offsets ----------------------------------------

  lemma {:induction false} BelowSize(n: nat)
    ensures |Below(n)| == n
  {
    if n > 0 { BelowSize(n - 1); }
  }

  ghost function Image<T(!new)>(f: map<T, nat>, s: set<T>): set<nat>
    requires s <= f.Keys
  {
    set x | x in s :: f[x]
  }

  ghost predicate Injective<T(!new)>(f: map<T, nat>) {
    forall x, y :: x in f && y in f && f[x] == f[y] ==> x == y
  }

  lemma {:induction false} ImageSize<T(!new)>(f: map<T, nat>, s: set<T>)
    requires s <= f.Keys && Injective(f)
    ensures |Image(f, s)| == |s|
    decreases |s|
  {
    if s != {} {
      var x :| x in s;
      ImageSize(f, s - {x});
      assert Image(f, s) == Image(f, s - {x}) + {f[x]};
      assert f[x] !in Image(f, s - {x});
    }
  }

  lemma SubsetOfSameSize<T(!new)>(a: set<T>, b: set<T>)
    requires a <= b && |a| == |b|
    ensures a == b
  {
    if x :| x in b && x !in a {
      assert a <= b - {x};
      SmallerSubset(a, b - {x});
    }
  }

  lemma {:induction false} SmallerSubset<T(!new)>(a: set<T>, b: set<T>)
    requires a <= b
    ensures |a| <= |b|
    decreases |a|
  {
    if a != {} {
      var x :| x in a;
      SmallerSubset(a - {x}, b - {x});
    }
  }

  /** Distinct offsets below |deps| use up all offsets below |deps|, so that sets of
      dependencies and sets of offsets say the same. */
  lemma OffsetsFaithful<T(!new)>(offset: map<T, nat>, done: set<T>, missing: set<T>)
    requires Injective(offset) && (forall d :: d in offset ==> offset[d] < |offset.Keys|)
    requires done <= offset.Keys && missing <= offset.Keys
    ensures Image(offset, done) <= Below(|offset.Keys|)
    ensures Image(offset, done) == Below(|offset.Keys|) - Image(offset, missing) <==> done == offset.Keys - missing
  {
    var n := |offset.Keys|;
    ImageSize(offset, offset.Keys);
    BelowSize(n);
    SubsetOfSameSize(Image(offset, offset.Keys), Below(n));
    if Image(offset, done) == Below(n) - Image(offset, missing) {
      forall d | d in offset.Keys ensures d in done <==> d !in missing {
        assert offset[d] in Below(n);
        assert d in done <==> offset[d] in Image(offset, done);
        assert d in missing <==> offset[d] in Image(offset, missing);
      }
    }
    if done == offset.Keys - missing {
      forall i | i in Below(n) ensures i in Image(offset, done) <==> i !in Image(offset, missing) {
        assert i in Image(offset, offset.Keys);
      }
    }
  }
}
