/** Address decomposition by shifts and masks, on 64-bit words written out bit by bit. */
module AddressMap {
  import opened ChiTypes

  const OFFSET_BITS: nat := 6
  const MAX_SET_BITS: nat := 24

  /** A machine word, least significant bit first. */
  type Word = w: seq<bool> | |w| == 64 witness seq(64, i => false)

  function Pow2(n: nat): (p: nat)
    ensures p >= 1
  {
    if n == 0 then 1 else 2 * Pow2(n - 1)
  }

  function Val(b: seq<bool>): nat {
    if b == [] then 0 else (if b[0] then 1 else 0) + 2 * Val(b[1..])
  }

  function ToBits(n: nat, width: nat): (b: seq<bool>)
    ensures |b| == width
  {
    if width == 0 then [] else [n % 2 == 1] + ToBits(n / 2, width - 1)
  }

  function Zeros(n: nat): seq<bool> { seq(n, i => false) }

  function Ones(n: nat): seq<bool> { seq(n, i => true) }

  function Shr(w: Word, s: nat): Word
    requires s <= 64
  {
    w[s..] + Zeros(s)
  }

  function Shl(w: Word, s: nat): Word
    requires s <= 64
  {
    Zeros(s) + w[..64 - s]
  }

  function And(a: Word, b: Word): Word { seq(64, i requires 0 <= i < 64 => a[i] && b[i]) }

  function Or(a: Word, b: Word): Word { seq(64, i requires 0 <= i < 64 => a[i] || b[i]) }

  /** The word whose `k` low bits are set: the value the source computes as (1 << k) - 1. */
  function LowMask(k: nat): Word { seq(64, i => i < k) }

  // ---------- bit strings and their values ----------

  lemma {:induction false} ValBound(b: seq<bool>)
    ensures Val(b) < Pow2(|b|)
  {
    if b != [] { ValBound(b[1..]); }
  }

  lemma {:induction false} ValToBits(n: nat, width: nat)
    requires n < Pow2(width)
    ensures Val(ToBits(n, width)) == n
  {
    if width > 0 {
      ValToBits(n / 2, width - 1);
      assert ToBits(n, width)[1..] == ToBits(n / 2, width - 1);
    }
  }

  lemma MulTwo(p: nat, v: nat)
    ensures (2 * p) * v == 2 * (p * v)
  {
  }

  lemma {:induction false} ValConcat(a: seq<bool>, b: seq<bool>)
    ensures Val(a + b) == Val(a) + Pow2(|a|) * Val(b)
  {
    if a == [] {
      assert a + b == b;
    } else {
      ValConcat(a[1..], b);
      assert (a + b)[1..] == a[1..] + b && (a + b)[0] == a[0];
      MulTwo(Pow2(|a| - 1), Val(b));
    }
  }

  lemma {:induction false} ValZeros(n: nat)
    ensures Val(Zeros(n)) == 0
  {
    if n > 0 {
      ValZeros(n - 1);
      assert Zeros(n)[1..] == Zeros(n - 1);
    }
  }

  lemma ValPadded(b: seq<bool>, n: nat)
    ensures Val(b + Zeros(n)) == Val(b)
  {
    ValConcat(b, Zeros(n));
    ValZeros(n);
  }

  lemma ValShifted(n: nat, b: seq<bool>)
    ensures Val(Zeros(n) + b) == Pow2(n) * Val(b)
  {
    ValConcat(Zeros(n), b);
    ValZeros(n);
  }

  lemma {:induction false} Pow2Add(m: nat, n: nat)
    ensures Pow2(m + n) == Pow2(m) * Pow2(n)
  {
    if m > 0 {
      Pow2Add(m - 1, n);
      MulTwo(Pow2(m - 1), Pow2(n));
    }
  }

  lemma MulStep(p: int, d: int)
    requires p >= 0
    ensures d >= 1 ==> p * d >= p
    ensures d <= -1 ==> p * d <= -p
  {
  }

  lemma Distribute(p: int, a: int, b: int)
    ensures p * (a + b) == p * a + p * b && p * (a - b) == p * a - p * b
  {
  }

  lemma EuclidUnique(p: nat, q: int, r: int, q': int, r': int)
    requires 0 <= r < p && 0 <= r' < p && p * q + r == p * q' + r'
    ensures q == q' && r == r'
  {
    Distribute(p, q, q');
    MulStep(p, q - q');
  }

  lemma DivModOf(lo: nat, hi: nat, p: nat)
    requires lo < p
    ensures (lo + p * hi) / p == hi && (lo + p * hi) % p == lo
  {
    var n := lo + p * hi;
    EuclidUnique(p, n / p, n % p, hi, lo);
  }

  /** Cutting a bit string at `s` is division and remainder by 2^s. */
  lemma ValSplit(b: seq<bool>, s: nat)
    requires s <= |b|
    ensures Val(b[..s]) == Val(b) % Pow2(s) && Val(b[s..]) == Val(b) / Pow2(s)
  {
    hide Val, Pow2;
    assert b == b[..s] + b[s..];
    ValConcat(b[..s], b[s..]);
    ValBound(b[..s]);
    DivModOf(Val(b[..s]), Val(b[s..]), Pow2(s));
  }

  // ---------- what the machine operations compute ----------

  lemma ShrIsDiv(w: Word, s: nat)
    requires s <= 64
    ensures Val(Shr(w, s)) == Val(w) / Pow2(s)
  {
    ValPadded(w[s..], s);
    ValSplit(w, s);
  }

  lemma MaskIsMod(w: Word, k: nat)
    requires k <= 64
    ensures Val(And(w, LowMask(k))) == Val(w) % Pow2(k)
  {
    assert And(w, LowMask(k)) == w[..k] + Zeros(64 - k);
    ValPadded(w[..k], 64 - k);
    ValSplit(w, k);
  }

  lemma LowMaskValue(k: nat)
    requires k <= 64
    ensures Val(LowMask(k)) == Pow2(k) - 1
  {
    assert LowMask(k) == Ones(k) + Zeros(64 - k);
    ValPadded(Ones(k), 64 - k);
    ValOnes(k);
  }

  lemma {:induction false} ValOnes(k: nat)
    ensures Val(Ones(k)) == Pow2(k) - 1
  {
    if k > 0 {
      ValOnes(k - 1);
      assert Ones(k)[1..] == Ones(k - 1);
    }
  }

  /** Or-ing words with no common bit is adding them. */
  lemma {:induction false} OrOfShifted(hi: seq<bool>, lo: seq<bool>, z: nat)
    requires |lo| + |hi| + z == 64
    ensures Or(Zeros(z + |lo|) + hi, Zeros(z) + lo + Zeros(|hi|)) == Zeros(z) + lo + hi
  {
    var a, b, c := Zeros(z + |lo|) + hi, Zeros(z) + lo + Zeros(|hi|), Zeros(z) + lo + hi;
    forall i | 0 <= i < 64
      ensures Or(a, b)[i] == c[i]
    {
      if i >= z + |lo| {
        assert a[i] == hi[i - z - |lo|] && !b[i] && c[i] == hi[i - z - |lo|];
      } else if i >= z {
        assert !a[i] && b[i] == lo[i - z] && c[i] == lo[i - z];
      }
    }
  }

  // ---------- the cache's three address functions ----------

  lemma Pow2Six()
    ensures Pow2(6) == 64
  {
    Pow2Add(3, 3);
  }

  lemma Pow2Eight()
    ensures Pow2(8) == 256
  {
    Pow2Add(2, 2);
    Pow2Add(4, 4);
  }

  lemma Pow2SixtyFour()
    ensures Pow2(64) == 0x1_0000_0000_0000_0000
  {
    hide Pow2;
    Pow2Eight();
    Pow2Add(8, 8);
    Pow2Add(16, 16);
    Pow2Add(32, 32);
  }

  lemma WordOf(addr: Addr)
    ensures Val(ToBits(addr, 64)) == addr
  {
    Pow2SixtyFour();
    ValToBits(addr, 64);
  }

  lemma {:induction false} ToBitsWide(n: nat, narrow: nat, wide: nat)
    requires narrow <= wide && n < Pow2(narrow)
    ensures ToBits(n, wide) == ToBits(n, narrow) + Zeros(wide - narrow)
  {
    if narrow > 0 {
      ToBitsWide(n / 2, narrow - 1, wide - 1);
    } else if wide > 0 {
      ToBitsWide(n, 0, wide - 1);
      assert Zeros(wide) == [false] + Zeros(wide - 1);
    }
  }

  /** Tag of an address: everything above the offset and the set index. */
  function GetTag(addr: Addr, setBits: nat): (tag: nat)
    requires setBits <= MAX_SET_BITS
    ensures tag == LineOf(addr) / Pow2(setBits)
  {
    TagValue(addr, setBits);
    Val(Shr(ToBits(addr, 64), OFFSET_BITS + setBits))
  }

  lemma TagTail(w: Word, setBits: nat)
    requires setBits <= MAX_SET_BITS
    ensures Val(w[OFFSET_BITS + setBits..]) == Val(w) / 64 / Pow2(setBits)
  {
    Pow2Six();
    ValSplit(w, OFFSET_BITS);
    ValSplit(w[OFFSET_BITS..], setBits);
    assert w[OFFSET_BITS..][setBits..] == w[OFFSET_BITS + setBits..];
  }

  lemma TagValue(addr: Addr, setBits: nat)
    requires setBits <= MAX_SET_BITS
    ensures Val(Shr(ToBits(addr, 64), OFFSET_BITS + setBits)) == LineOf(addr) / Pow2(setBits)
  {
    WordOf(addr);
    TagTail(ToBits(addr, 64), setBits);
    ValPadded(ToBits(addr, 64)[OFFSET_BITS + setBits..], OFFSET_BITS + setBits);
  }

  function GetSetIndex(addr: Addr, setBits: nat): (index: nat)
    requires setBits <= MAX_SET_BITS
    ensures index == LineOf(addr) % Pow2(setBits)
  {
    WordOf(addr); Pow2Six();
    ShrIsDiv(ToBits(addr, 64), OFFSET_BITS);
    MaskIsMod(Shr(ToBits(addr, 64), OFFSET_BITS), setBits);
    Val(And(Shr(ToBits(addr, 64), OFFSET_BITS), LowMask(setBits)))
  }

  /** The inverse direction: tag and index back to an address. */
  function MakeAddr(tag: nat, index: nat, setBits: nat): (addr: nat)
    requires setBits <= MAX_SET_BITS && tag < Pow2(58 - setBits) && index < Pow2(setBits)
    ensures addr == 64 * (index + Pow2(setBits) * tag)
  {
    MakeAddrValue(tag, index, setBits);
    Val(Or(Shl(ToBits(tag, 64), OFFSET_BITS + setBits), Shl(ToBits(index, 64), OFFSET_BITS)))
  }

  lemma ShlPadded(b: seq<bool>, s: nat)
    requires |b| + s <= 64
    ensures Shl(b + Zeros(64 - |b|), s) == Zeros(s) + b + Zeros(64 - |b| - s)
  {
  }

  lemma MakeAddrBits(hi: seq<bool>, lo: seq<bool>)
    requires |lo| + |hi| == 58
    ensures Or(Shl(hi + Zeros(64 - |hi|), 6 + |lo|), Shl(lo + Zeros(64 - |lo|), 6)) == Zeros(6) + (lo + hi)
  {
    ShlPadded(hi, 6 + |lo|);
    ShlPadded(lo, 6);
    assert Zeros(6 + |lo|) + hi + Zeros(0) == Zeros(6 + |lo|) + hi;
    OrOfShifted(hi, lo, 6);
    assert Zeros(6) + lo + hi == Zeros(6) + (lo + hi);
  }

  lemma MakeAddrValue(tag: nat, index: nat, setBits: nat)
    requires setBits <= MAX_SET_BITS && tag < Pow2(58 - setBits) && index < Pow2(setBits)
    ensures Val(Or(Shl(ToBits(tag, 64), OFFSET_BITS + setBits), Shl(ToBits(index, 64), OFFSET_BITS)))
         == 64 * (index + Pow2(setBits) * tag)
  {
    hide Or, Shl, Pow2;
    var hi, lo := ToBits(tag, 58 - setBits), ToBits(index, setBits);
    ToBitsWide(tag, 58 - setBits, 64);
    ToBitsWide(index, setBits, 64);
    MakeAddrBits(hi, lo);
    ValShifted(6, lo + hi);
    ValConcat(lo, hi);
    Pow2Six();
    ValToBits(tag, 58 - setBits);
    ValToBits(index, setBits);
  }

  /** The tag of a 64-bit address fits in the word above offset and index. */
  lemma TagBound(addr: Addr, setBits: nat)
    requires setBits <= MAX_SET_BITS
    ensures GetTag(addr, setBits) < Pow2(58 - setBits) && GetSetIndex(addr, setBits) < Pow2(setBits)
  {
    var w := ToBits(addr, 64);
    TagValue(addr, setBits);
    ValBound(w[OFFSET_BITS + setBits..]);
    ValPadded(w[OFFSET_BITS + setBits..], OFFSET_BITS + setBits);
  }

  /** Decomposing an address and putting it together again clears its six offset bits and nothing else. */
  lemma MakeAddrRoundTrip(addr: Addr, setBits: nat)
    requires setBits <= MAX_SET_BITS
    ensures GetTag(addr, setBits) < Pow2(58 - setBits) && GetSetIndex(addr, setBits) < Pow2(setBits)
    ensures MakeAddr(GetTag(addr, setBits), GetSetIndex(addr, setBits), setBits) == addr - addr % 64
  {
    TagBound(addr, setBits);
    Recompose(LineOf(addr), Pow2(setBits));
  }

  lemma Recompose(l: nat, p: nat)
    requires p > 0
    ensures l % p + p * (l / p) == l && 0 <= l % p < p
  {
  }

  /** Two addresses fall on the same (tag, set) exactly when they lie on the same 64-byte line. */
  lemma SameTagAndSetIffSameLine(a: Addr, b: Addr, setBits: nat)
    requires setBits <= MAX_SET_BITS
    ensures GetTag(a, setBits) == GetTag(b, setBits) && GetSetIndex(a, setBits) == GetSetIndex(b, setBits)
       <==> LineOf(a) == LineOf(b)
  {
    Recompose(LineOf(a), Pow2(setBits));
    Recompose(LineOf(b), Pow2(setBits));
  }

  function Log2(n: nat): nat { if n <= 1 then 0 else 1 + Log2(n / 2) }

  lemma {:induction false} Log2OfPow2(k: nat)
    ensures Log2(Pow2(k)) == k
  {
    if k > 0 { Log2OfPow2(k - 1); }
  }
}
