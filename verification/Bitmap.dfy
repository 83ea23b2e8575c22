/** Word-scanning bitmaps, `bitmap.c` and the loop macro of `bitmap.h`. */
module Bitmap {
  import opened Arithmetic
  import opened Outcomes

  const WORD_BITS := 64

  /** Bit `k` of a number. */
  predicate BitAt(r: nat, k: nat) {
    if k == 0 then r % 2 == 1 else BitAt(r / 2, k - 1)
  }

  /** `compiler_ctz`: the lowest bit that is set. */
  function Ctz(r: nat): (k: nat)
    requires r > 0
    ensures BitAt(r, k) && forall j | 0 <= j < k :: !BitAt(r, j)
  {
    if r % 2 == 1 then 0 else
      var k := Ctz(r / 2);
      assert forall j | 0 < j < k + 1 :: BitAt(r, j) == BitAt(r / 2, j - 1);
      k + 1
  }

  /** The number without its bits up to and including `i`, as masked by the loop macro. */
  function ClearUpTo(r: nat, i: nat): (s: nat)
    ensures s <= r
  {
    if i == 0 then 2 * (r / 2) else 2 * ClearUpTo(r / 2, i - 1)
  }

  lemma {:induction false} ClearedBits(r: nat, i: nat, k: nat)
    ensures BitAt(ClearUpTo(r, i), k) <==> k > i && BitAt(r, k)
  {
    if i > 0 && k > 0 { ClearedBits(r / 2, i - 1, k - 1); }
  }

  lemma {:induction false} ClearedIsSmaller(r: nat, i: nat)
    requires BitAt(r, i)
    ensures ClearUpTo(r, i) < r
  {
    if i > 0 { ClearedIsSmaller(r / 2, i - 1); }
  }

  lemma {:induction false} NoHighBits(r: nat, n: nat, k: nat)
    requires r < Pow2(n) && k >= n
    ensures !BitAt(r, k)
  {
    if n == 0 {
      ZeroHasNoBits(k);
    } else {
      NoHighBits(r / 2, n - 1, k - 1);
    }
  }

  lemma {:induction false} ZeroHasNoBits(k: nat)
    ensures !BitAt(0, k)
  {
    if k > 0 { ZeroHasNoBits(k - 1); }
  }

  predicate IsWord(r: nat) {
    r < TWO_64
  }

  predicate IsBitmap(words: seq<nat>, n: nat) {
    n > 0 && n <= |words| * WORD_BITS && forall i | 0 <= i < |words| :: IsWord(words[i])
  }

  /** `bitmap_isset`. */
  predicate IsSet(words: seq<nat>, bit: nat)
    requires bit < |words| * WORD_BITS
  {
    BitAt(words[bit / WORD_BITS], bit % WORD_BITS)
  }

  // ------------------------------------------------------- setting and clearing

  /** The number with bit `k` set or cleared. */
  function WithBit(r: nat, k: nat, value: bool): (s: nat) {
    if k == 0 then 2 * (r / 2) + (if value then 1 else 0) else 2 * WithBit(r / 2, k - 1, value) + r % 2
  }

  lemma {:induction false} WithBitBits(r: nat, k: nat, value: bool, j: nat)
    ensures BitAt(WithBit(r, k, value), j) <==> if j == k then value else BitAt(r, j)
  {
    if k > 0 && j > 0 { WithBitBits(r / 2, k - 1, value, j - 1); }
  }

  lemma {:induction false} WithBitFits(r: nat, k: nat, value: bool, n: nat)
    requires r < Pow2(n) && k < n
    ensures WithBit(r, k, value) < Pow2(n)
  {
    if k > 0 { WithBitFits(r / 2, k - 1, value, n - 1); }
  }

  /** `bitmap_set` and `bitmap_clear`. */
  function Assign(words: seq<nat>, bit: nat, value: bool): (r: seq<nat>)
    requires bit < |words| * WORD_BITS
  {
    words[bit / WORD_BITS := WithBit(words[bit / WORD_BITS], bit % WORD_BITS, value)]
  }

  /** Afterwards that bit has the value and every other bit is as before. */
  lemma AssignBits(words: seq<nat>, n: nat, bit: nat, value: bool)
    requires IsBitmap(words, n) && bit < |words| * WORD_BITS
    ensures IsBitmap(Assign(words, bit, value), n) && |Assign(words, bit, value)| == |words|
    ensures forall b: nat | b < |words| * WORD_BITS ::
              IsSet(Assign(words, bit, value), b) <==> if b == bit then value else IsSet(words, b)
  {
    var w := bit / WORD_BITS;
    Powers();
    WithBitFits(words[w], bit % WORD_BITS, value, 64);
    forall b: nat | b < |words| * WORD_BITS
      ensures IsSet(Assign(words, bit, value), b) <==> if b == bit then value else IsSet(words, b)
    {
      WithBitBits(words[w], bit % WORD_BITS, value, b % WORD_BITS);
    }
  }

  // ---------------------------------------------------------------- scanning

  /** All bits of the list are set, and they are all the set bits below `limit`, in order. */
  ghost predicate Lists(words: seq<nat>, n: nat, list: seq<nat>, limit: nat)
    requires IsBitmap(words, n)
  {
    (forall i, j | 0 <= i < j < |list| :: list[i] < list[j]) &&
    (forall b: nat :: b in list <==> b < n && b < limit && IsSet(words, b))
  }

  /** Moving the limit over bits that are clear, or out of range, changes nothing. */
  lemma ListsOn(words: seq<nat>, n: nat, list: seq<nat>, limit: nat, further: nat)
    requires IsBitmap(words, n) && Lists(words, n, list, limit) && limit <= further
    requires forall b: nat | limit <= b < further && b < n :: !IsSet(words, b)
    ensures Lists(words, n, list, further)
  {
  }

  lemma ListsNext(words: seq<nat>, n: nat, list: seq<nat>, bit: nat)
    requires IsBitmap(words, n) && Lists(words, n, list, bit) && bit < n && IsSet(words, bit)
    ensures Lists(words, n, list + [bit], bit + 1)
  {
    forall i | 0 <= i < |list| ensures list[i] < bit { assert list[i] in list; }
    forall b: nat ensures b in list + [bit] <==> b < n && b < bit + 1 && IsSet(words, b) {
      if b == bit { assert (list + [bit])[|list|] == bit; }
    }
  }

  /** What is left in the scan register: the set bits of the current word from `limit` on. */
  ghost predicate Register(words: seq<nat>, w: nat, r: nat, limit: nat)
    requires 0 < w <= |words|
  {
    (w - 1) * WORD_BITS <= limit <= w * WORD_BITS &&
    forall k: nat :: BitAt(r, k) <==> (w - 1) * WORD_BITS + k >= limit && k < WORD_BITS && BitAt(words[w - 1], k)
  }

  lemma WordBits(words: seq<nat>, n: nat, w: nat)
    requires IsBitmap(words, n) && w < |words|
    ensures Register(words, w + 1, words[w], w * WORD_BITS)
  {
    Powers();
    forall k: nat | k >= WORD_BITS ensures !BitAt(words[w], k) { NoHighBits(words[w], 64, k); }
  }

  /** Bit `k` of word `i` is bit `64 i + k` of the bitmap. */
  lemma BitPlace(words: seq<nat>, i: nat, k: nat)
    requires i < |words| && k < WORD_BITS
    ensures i * WORD_BITS + k < |words| * WORD_BITS && IsSet(words, i * WORD_BITS + k) == BitAt(words[i], k)
  {
    assert (i * WORD_BITS + k) / WORD_BITS == i && (i * WORD_BITS + k) % WORD_BITS == k;
  }

  /** A bit of the current word from `limit` on is set if and only if it is in the register. */
  lemma InRegister(words: seq<nat>, n: nat, w: nat, r: nat, limit: nat, b: nat)
    requires IsBitmap(words, n) && 0 < w <= |words| && Register(words, w, r, limit) && limit <= b < w * WORD_BITS
    ensures IsSet(words, b) == BitAt(r, b - (w - 1) * WORD_BITS)
  {
    BitPlace(words, w - 1, b - (w - 1) * WORD_BITS);
  }

  /** The lowest bit of the register is the next set bit of the bitmap. */
  lemma RegisterLowest(words: seq<nat>, n: nat, w: nat, r: nat, limit: nat)
    requires IsBitmap(words, n) && 0 < w <= |words| && r > 0 && Register(words, w, r, limit)
    ensures var bit := (w - 1) * WORD_BITS + Ctz(r);
            limit <= bit < w * WORD_BITS && IsSet(words, bit) && forall b: nat | limit <= b < bit :: !IsSet(words, b)
  {
    var k := Ctz(r);
    var bit := (w - 1) * WORD_BITS + k;
    assert BitAt(r, k);
    InRegister(words, n, w, r, limit, bit);
    forall b: nat | limit <= b < bit ensures !IsSet(words, b) {
      BelowLowest(words, n, w, r, limit, b);
    }
  }

  lemma BelowLowest(words: seq<nat>, n: nat, w: nat, r: nat, limit: nat, b: nat)
    requires IsBitmap(words, n) && 0 < w <= |words| && r > 0 && Register(words, w, r, limit)
    requires limit <= b < (w - 1) * WORD_BITS + Ctz(r)
    ensures !IsSet(words, b)
  {
    InRegister(words, n, w, r, limit, b);
  }

  lemma RegisterCleared(words: seq<nat>, w: nat, r: nat, limit: nat, k: nat)
    requires 0 < w <= |words| && Register(words, w, r, limit) && k < WORD_BITS && limit <= (w - 1) * WORD_BITS + k
    ensures Register(words, w, ClearUpTo(r, k), (w - 1) * WORD_BITS + k + 1)
  {
    forall j: nat
      ensures BitAt(ClearUpTo(r, k), j) <==> (w - 1) * WORD_BITS + j >= (w - 1) * WORD_BITS + k + 1 && j < WORD_BITS &&
                                             BitAt(words[w - 1], j)
    {
      ClearedBits(r, k, j);
    }
  }

  lemma RegisterEmpty(words: seq<nat>, n: nat, w: nat, limit: nat)
    requires IsBitmap(words, n) && 0 < w <= |words| && Register(words, w, 0, limit)
    ensures forall b: nat | limit <= b < w * WORD_BITS :: !IsSet(words, b)
  {
    forall b: nat | limit <= b < w * WORD_BITS ensures !IsSet(words, b) {
      InRegister(words, n, w, 0, limit, b);
      ZeroHasNoBits(b - (w - 1) * WORD_BITS);
    }
  }

  /** The loop macro over set bits: it meets exactly the set bits below `n`, each
      once, lowest first. */
  method ForEachSet(words: seq<nat>, n: nat) returns (list: seq<nat>)
    requires IsBitmap(words, n)
    ensures Lists(words, n, list, n)
  {
    list := [];
    var w, r := 0, 0;
    ghost var limit: nat := 0;
    while r != 0 || w * WORD_BITS < n
      invariant w <= |words| && limit <= w * WORD_BITS && Lists(words, n, list, limit)
      invariant r != 0 ==> w > 0 && Register(words, w, r, limit)
      invariant r == 0 ==> limit == w * WORD_BITS || limit >= n
      decreases |words| - w, r
    {
      if r == 0 {
        WordBits(words, n, w);
        r := words[w];
        w := w + 1;
      }
      if r != 0 {
        var k := Ctz(r);
        RegisterLowest(words, n, w, r, limit);
        RegisterCleared(words, w, r, limit, k);
        ClearedIsSmaller(r, k);
        r := ClearUpTo(r, k);
        var bit := k + (w - 1) * WORD_BITS;
        ListsOn(words, n, list, limit, bit);
        limit := bit;
        if bit >= n {
          r := 0;
        } else {
          ListsNext(words, n, list, bit);
          list := list + [bit];
          limit := bit + 1;
        }
      }
      if r == 0 && limit < n {
        RegisterEmpty(words, n, w, limit);
        ListsOn(words, n, list, limit, w * WORD_BITS);
        limit := w * WORD_BITS;
      }
    }
  }

  /** `bitmap_ffs`: the lowest set bit below `n`, if there is one. */
  method FindFirstSet(words: seq<nat>, n: nat) returns (bit: Option<nat>)
    requires IsBitmap(words, n)
    ensures bit.Some? ==> bit.value < n && IsSet(words, bit.value) && forall b | 0 <= b < bit.value :: !IsSet(words, b)
    ensures bit.None? ==> forall b | 0 <= b < n :: !IsSet(words, b)
  {
    var w := 0;
    while w * WORD_BITS < n
      invariant w <= |words| && forall b | 0 <= b < w * WORD_BITS && b < n :: !IsSet(words, b)
      decreases |words| - w
    {
      var r := words[w];
      WordBits(words, n, w);
      w := w + 1;
      if r != 0 {
        RegisterLowest(words, n, w, r, (w - 1) * WORD_BITS);
        var first := Ctz(r) + (w - 1) * WORD_BITS;
        if first < n {
          return Some(first);
        }
      } else {
        RegisterEmpty(words, n, w, (w - 1) * WORD_BITS);
      }
    }
    return None;
  }

  /** `bitmap_empty`: whole words first, then what counts of the last one. */
  method IsEmpty(words: seq<nat>, n: nat) returns (empty: bool)
    requires IsBitmap(words, n)
    ensures empty <==> forall b | 0 <= b < n :: !IsSet(words, b)
  {
    empty := true;
    var i := 0;
    while i < n / WORD_BITS
      invariant 0 <= i <= n / WORD_BITS && forall b | 0 <= b < i * WORD_BITS :: !IsSet(words, b)
    {
      WordBits(words, n, i);
      if words[i] != 0 {
        RegisterLowest(words, n, i + 1, words[i], i * WORD_BITS);
        assert IsSet(words, i * WORD_BITS + Ctz(words[i]));
        return false;
      }
      RegisterEmpty(words, n, i + 1, i * WORD_BITS);
      i := i + 1;
    }
    if i + 1 == (n + WORD_BITS - 1) / WORD_BITS {
      LowBits(words, n, i);
      empty := words[i] % Pow2(n % WORD_BITS) == 0;
    }
  }

  /** A word is zero below bit `m` if and only if none of those bits is set. */
  lemma {:induction false} LowPart(r: nat, m: nat)
    ensures r % Pow2(m) == 0 <==> forall k | 0 <= k < m :: !BitAt(r, k)
  {
    if m > 0 {
      LowPart(r / 2, m - 1);
      HalfRest(r, Pow2(m - 1));
      if r % Pow2(m) == 0 {
        forall k | 0 <= k < m ensures !BitAt(r, k) {
          if k > 0 { assert !BitAt(r / 2, k - 1); }
        }
      } else if r % 2 == 1 {
        SomeBit(r, m, 0);
      } else {
        var k: nat :| k < m - 1 && BitAt(r / 2, k);
        SomeBit(r, m, k + 1);
      }
    }
  }

  lemma SomeBit(r: nat, m: nat, k: nat)
    requires k < m && BitAt(r, k)
    ensures !forall j | 0 <= j < m :: !BitAt(r, j)
  {
  }

  lemma HalfRest(r: nat, p: nat)
    requires p > 0
    ensures r % (2 * p) == 2 * ((r / 2) % p) + r % 2
  {
    var q := (r / 2) / p;
    assert r / 2 == q * p + (r / 2) % p;
    assert r == q * (2 * p) + (2 * ((r / 2) % p) + r % 2);
    DivisionIsUnique(r, 2 * p, q, 2 * ((r / 2) % p) + r % 2);
  }

  lemma LowBits(words: seq<nat>, n: nat, i: nat)
    requires IsBitmap(words, n) && i == n / WORD_BITS && i < |words|
    ensures words[i] % Pow2(n % WORD_BITS) == 0 <==> forall b | i * WORD_BITS <= b < n :: !IsSet(words, b)
  {
    var m := n % WORD_BITS;
    LowPart(words[i], m);
    if words[i] % Pow2(m) == 0 {
      forall b | i * WORD_BITS <= b < n ensures !IsSet(words, b) {
        assert !BitAt(words[i], b - i * WORD_BITS);
        BitPlace(words, i, b - i * WORD_BITS);
      }
    } else {
      var k: nat :| k < m && BitAt(words[i], k);
      BitPlace(words, i, k);
      assert IsSet(words, i * WORD_BITS + k);
    }
  }
}
