/** The capability ID codec of `cspace_twolevel.c`: a 16-bit slot index times a
    random multiplier, exclusive-or a random base; decoding multiplies by a fixed
    point inverse of the multiplier. Products wrap at 64 bits as in the source. */
module CapCodec {
  import opened Arithmetic
  import opened Outcomes

  /** `id_rand_base`, `id_mult` and `id_inv`. */
  datatype Encoder = Encoder(base: nat, mult: nat, inv: nat)

  /** What `cspace_init_id_encoder` establishes. */
  predicate Valid(e: Encoder) {
    e.base < TWO_64 && e.base / TWO_32 < 0xffff_ff00 &&
    0 < e.mult < TWO_16 && e.inv == TWO_32 / e.mult + 1
  }

  // ------------------------------------------------------------- exclusive or

  function Xor(a: nat, b: nat): (r: nat) {
    if a == 0 && b == 0 then 0
    else 2 * Xor(a / 2, b / 2) + (if a % 2 == b % 2 then 0 else 1)
  }

  lemma {:induction false} XorTwice(a: nat, b: nat)
    ensures Xor(Xor(a, b), b) == a
    decreases a + b
  {
    if !(a == 0 && b == 0) {
      XorTwice(a / 2, b / 2);
      assert Xor(a, b) / 2 == Xor(a / 2, b / 2);
    }
  }

  lemma {:induction false} XorZero(b: nat)
    ensures Xor(0, b) == b
  {
    if b > 0 { XorZero(b / 2); }
  }

  lemma HalfDivides(n: nat, p: nat)
    requires p > 0
    ensures (n / 2) / p == n / (2 * p)
  {
    var q := n / (2 * p);
    var r := n % (2 * p);
    assert n == q * (2 * p) + r;
    assert n / 2 == q * p + r / 2;
    assert 0 <= r / 2 < p;
    DivisionIsUnique(n / 2, p, q, r / 2);
  }

  lemma MultipleHasNoRest(v: nat, p: nat)
    requires p > 0
    ensures (v * p) % p == 0 && (v * p) / p == v
  {
    DivisionIsUnique(v * p, p, v, 0);
  }

  /** Exclusive or below bit `k` leaves the bits from `k` on alone. */
  lemma {:induction false} XorHighPart(a: nat, b: nat, k: nat)
    requires a < Pow2(k)
    ensures Xor(a, b) / Pow2(k) == b / Pow2(k)
  {
    if k == 0 {
      XorZero(b);
    } else {
      XorHighPart(a / 2, b / 2, k - 1);
      HalfDivides(b, Pow2(k - 1));
      HalfDivides(Xor(a, b), Pow2(k - 1));
      assert Xor(a, b) / 2 == Xor(a / 2, b / 2);
    }
  }

  lemma {:induction false} XorBelow(a: nat, b: nat, k: nat)
    requires a < Pow2(k) && b < Pow2(k)
    ensures Xor(a, b) < Pow2(k)
  {
    if k > 0 { XorBelow(a / 2, b / 2, k - 1); }
  }

  // -------------------------------------------------------------------- codec

  function Encode(e: Encoder, v: nat): (id: nat) {
    Xor((v * e.mult) % TWO_64, e.base)
  }

  function Decode(e: Encoder, id: nat): (r: Option<nat>) {
    var r := Xor(id, e.base);
    var v := (r * e.inv) % TWO_64 / TWO_32;
    if r < TWO_32 && v < TWO_16 then Some(v) else None
  }

  lemma ProductBound(a: nat, b: nat, x: nat, y: nat)
    requires a <= x && b <= y
    ensures a * b <= x * y
  {
    assert a * b <= a * y;
    assert a * y <= x * y;
  }

  /** A product that decoding accepts never leaves 64 bits. */
  lemma NoOverflow(e: Encoder, r: nat)
    requires Valid(e) && r < TWO_32
    ensures r * e.inv < TWO_64
  {
    assert e.inv <= TWO_32 + 1 by {
      ProductBound(1, TWO_32 / e.mult, e.mult, TWO_32 / e.mult);
      assert TWO_32 / e.mult <= e.mult * (TWO_32 / e.mult) <= TWO_32;
    }
    ProductBound(r, e.inv, TWO_32 - 1, TWO_32 + 1);
  }

  /** With `rest` the distance from 2^32 to the next multiple of `m`, the inverse
      overshoots `k * 2^32` by `k * rest`, which stays below 2^32. */
  lemma Overshoot(m: nat, k: nat, q: nat, rest: nat)
    requires m * q + m == TWO_32 + rest
    ensures (k * m) * (q + 1) == k * TWO_32 + k * rest
  {
    calc {
      (k * m) * (q + 1);
      k * (m * (q + 1));
      k * (m * q + m);
      k * (TWO_32 + rest);
    }
  }

  /** Multiplying a multiple `k * mult` below 2^32 by the inverse recovers `k`. */
  lemma InverseRecovers(e: Encoder, k: nat)
    requires Valid(e) && k * e.mult < TWO_32
    ensures (k * e.mult) * e.inv % TWO_64 / TWO_32 == k
  {
    var p := (k * e.mult) * e.inv;
    var rest := e.mult - TWO_32 % e.mult;
    Overshoot(e.mult, k, TWO_32 / e.mult, rest);
    ProductBound(k, rest, k, e.mult);
    assert p < TWO_64 by { NoOverflow(e, k * e.mult); }
    assert p / TWO_32 == k by { DivisionIsUnique(p, TWO_32, k, k * rest); }
  }

  lemma EncodeOfProduct(e: Encoder, v: nat, r: nat)
    requires v * e.mult == r < TWO_32
    ensures Encode(e, v) == Xor(r, e.base)
  {
    SmallRemainder(r);
  }

  lemma SmallRemainder(r: nat)
    requires r < TWO_64
    ensures r % TWO_64 == r
  {
  }

  lemma EncodedProduct(e: Encoder, v: nat)
    requires Valid(e) && v < TWO_16
    ensures v * e.mult < TWO_32 && Xor(Encode(e, v), e.base) == v * e.mult
  {
    ProductBound(v, e.mult, TWO_16 - 1, TWO_16 - 1);
    var r := v * e.mult;
    EncodeOfProduct(e, v, r);
    XorTwice(r, e.base);
  }

  lemma DecodeEncode(e: Encoder, v: nat)
    requires Valid(e) && v < TWO_16
    ensures Decode(e, Encode(e, v)) == Some(v)
  {
    EncodedProduct(e, v);
    InverseRecovers(e, v);
  }

  lemma EncodeIsInjective(e: Encoder, v: nat, w: nat)
    requires Valid(e) && v < TWO_16 && w < TWO_16 && Encode(e, v) == Encode(e, w)
    ensures v == w
  {
    DecodeEncode(e, v);
    DecodeEncode(e, w);
  }

  /** IDs are 64-bit and stay out of 0xffffffff.xxxxxxxx. */
  lemma ReservedSpaceUnused(e: Encoder, v: nat)
    requires Valid(e) && v < TWO_16
    ensures Encode(e, v) < TWO_64 && Encode(e, v) / TWO_32 == e.base / TWO_32 != 0xffff_ffff
  {
    EncodedProduct(e, v);
    var r := v * e.mult;
    EncodeOfProduct(e, v, r);
    Powers();
    XorHighPart(r, e.base, 32);
    XorBelow(r, e.base, 64);
  }

  /** A multiple of the multiplier below 2^32 is decoded to its factor, and the factor encodes to it. */
  lemma MultipleRoundTrip(e: Encoder, id: nat)
    requires Valid(e) && Xor(id, e.base) % e.mult == 0 && Xor(id, e.base) < TWO_32
    ensures Encode(e, Xor(id, e.base) / e.mult) == id
    ensures Decode(e, id).Some? ==> Decode(e, id).value == Xor(id, e.base) / e.mult
  {
    var r := Xor(id, e.base);
    FactorRecovers(e, r);
    EncodeOfProduct(e, r / e.mult, r);
    assert Xor(r, e.base) == id by { XorTwice(id, e.base); }
  }

  lemma FactorRecovers(e: Encoder, r: nat)
    requires Valid(e) && r % e.mult == 0 && r < TWO_32
    ensures (r / e.mult) * e.mult == r && r * e.inv % TWO_64 / TWO_32 == r / e.mult
  {
    var k := r / e.mult;
    assert k * e.mult == r;
    InverseRecovers(e, k);
  }

  /** Decoding also accepts IDs nobody was given: an accepted ID is the one that
      was handed out for its value exactly when the base-free ID is a multiple of
      the multiplier. */
  lemma EncodeDecodeIff(e: Encoder, id: nat)
    requires Valid(e) && Decode(e, id).Some?
    ensures Encode(e, Decode(e, id).value) == id <==> Xor(id, e.base) % e.mult == 0
  {
    var v := Decode(e, id).value;
    EncodedProduct(e, v);
    MultipleHasNoRest(v, e.mult);
    if Xor(id, e.base) % e.mult == 0 {
      MultipleRoundTrip(e, id);
    }
  }

  /** The IDs in use are exactly the base-free multiples below 2^16 times the multiplier. */
  lemma ImageOfEncode(e: Encoder, id: nat)
    requires Valid(e)
    ensures (exists v | 0 <= v < TWO_16 :: Encode(e, v) == id) <==>
            Xor(id, e.base) % e.mult == 0 && Xor(id, e.base) / e.mult < TWO_16
  {
    var r := Xor(id, e.base);
    if r % e.mult == 0 && r / e.mult < TWO_16 {
      SmallQuotient(r, e.mult);
      MultipleRoundTrip(e, id);
    }
    forall v | 0 <= v < TWO_16 && Encode(e, v) == id ensures r % e.mult == 0 && r / e.mult < TWO_16 {
      EncodedIsMultiple(e, v);
    }
  }

  lemma EncodedIsMultiple(e: Encoder, v: nat)
    requires Valid(e) && v < TWO_16
    ensures var r := Xor(Encode(e, v), e.base); r % e.mult == 0 && r / e.mult == v
  {
    EncodedProduct(e, v);
    MultipleHasNoRest(v, e.mult);
  }

  lemma SmallQuotient(r: nat, m: nat)
    requires 0 < m < TWO_16 && r % m == 0 && r / m < TWO_16
    ensures r < TWO_32
  {
    assert r == (r / m) * m;
    ProductBound(r / m, m, TWO_16 - 1, TWO_16 - 1);
  }

  /** With multiplier 2, the ID next to that of value 0 decodes to value 0 as well. */
  lemma AliasExample()
    ensures var e := Encoder(0, 2, 0x8000_0001);
            Valid(e) && Decode(e, 1) == Some(0) && Encode(e, 0) == 0
  {
    XorZero(0);
    assert Xor(1, 0) == 1;
  }

  // ------------------------------------------------------------------ indices

  /** `cspace_indices_to_cap_id`: bits 7..0 and 15..8 of the value. */
  function IndicesToId(e: Encoder, upper: nat, lower: nat): (id: nat) {
    Encode(e, upper % 256 * 256 + lower % 256)
  }

  /** `cspace_cap_id_to_indices` for a cspace of `tables` tables with `slots` slots each. */
  function IdToIndices(e: Encoder, tables: nat, slots: nat, id: nat): (r: Option<(nat, nat)>) {
    match Decode(e, id)
    case None => None
    case Some(v) => if v / 256 < tables && v % 256 < slots then Some((v / 256, v % 256)) else None
  }

  lemma ValueOfIndices(upper: nat, lower: nat)
    requires upper < 256 && lower < 256
    ensures var v := upper % 256 * 256 + lower % 256; v < TWO_16 && v / 256 == upper && v % 256 == lower
  {
  }

  /** A slot's ID leads back to the slot. */
  lemma IndicesRoundTrip(e: Encoder, tables: nat, slots: nat, upper: nat, lower: nat)
    requires Valid(e) && upper < tables <= 256 && lower < slots <= 256
    ensures IdToIndices(e, tables, slots, IndicesToId(e, upper, lower)) == Some((upper, lower))
  {
    ValueOfIndices(upper, lower);
    DecodeEncode(e, upper % 256 * 256 + lower % 256);
  }

  // ----------------------------------------------------------- initialisation

  function Digit(r: nat, k: nat): (d: nat) {
    if k == 0 then r % TWO_16 else Digit(r / TWO_16, k - 1)
  }

  /** The lowest nonzero 16-bit digit, from digit `k` on; 0x5555 when all are zero. */
  function FirstDigit(r: nat, k: nat): (d: nat)
    decreases 4 - k
  {
    if k >= 4 then 0x5555 else if Digit(r, k) != 0 then Digit(r, k) else FirstDigit(r, k + 1)
  }

  /** `cspace_init_id_encoder`'s search for a multiplier; shifting 0x5555 in from
      the top bounds it to four rounds. The or is a sum, as no bits overlap. */
  method PickMultiplier(draw: nat) returns (mult: nat)
    requires draw < TWO_64
    ensures 0 < mult < TWO_16 && mult == FirstDigit(draw, 0)
  {
    var r: nat := draw;
    ghost var k := 0;
    while r % TWO_16 == 0
      invariant r < TWO_64 && 0 <= k <= 4
      invariant forall i | 0 <= i < 4 :: Digit(r, i) == if i + k < 4 then Digit(draw, i + k) else 0x5555
      invariant FirstDigit(draw, k) == FirstDigit(draw, 0)
      decreases 4 - k
    {
      assert Digit(r, 0) == 0;
      ghost var before := r;
      r := 0x5555 * TWO_48 + r / TWO_16;
      ShiftedDigits(before, r);
      k := k + 1;
    }
    assert Digit(r, 0) != 0;
    mult := r % TWO_16;
  }

  lemma ShiftedDigits(r: nat, s: nat)
    requires r < TWO_64 && s == 0x5555 * TWO_48 + r / TWO_16
    ensures s < TWO_64 && Digit(s, 0) == Digit(r, 1) && Digit(s, 1) == Digit(r, 2) && Digit(s, 2) == Digit(r, 3)
    ensures Digit(s, 3) == 0x5555
  {
    var a := r / TWO_16;
    var b := a / TWO_16;
    var c := b / TWO_16;
    DivisionIsUnique(s, TWO_16, 0x5555 * TWO_32 + b, a % TWO_16);
    DivisionIsUnique(0x5555 * TWO_32 + b, TWO_16, 0x5555 * TWO_16 + c, b % TWO_16);
    DivisionIsUnique(0x5555 * TWO_16 + c, TWO_16, 0x5555, c);
    assert Digit(r, 1) == Digit(a, 0);
    assert Digit(r, 2) == Digit(a, 1) == Digit(b, 0);
    assert Digit(r, 3) == Digit(a, 2) == Digit(b, 1) == Digit(c, 0);
    assert Digit(s, 1) == Digit(s / TWO_16, 0);
    assert Digit(s, 2) == Digit(s / TWO_16, 1) == Digit(0x5555 * TWO_16 + c, 0);
    assert Digit(s, 3) == Digit(s / TWO_16, 2) == Digit(0x5555 * TWO_16 + c, 1) == Digit(0x5555, 0);
  }

  /** Draw `i` is the first whose upper half leaves the reserved IDs alone. */
  predicate FirstAllowed(draws: seq<nat>, i: nat) {
    i < |draws| && draws[i] / TWO_32 < 0xffff_ff00 && forall j | 0 <= j < i :: draws[j] / TWO_32 >= 0xffff_ff00
  }

  /** The whole initialisation over a stream of random draws: the first allowed one is
      the base, and the next one gives the multiplier. Running out of entropy is an error. */
  method InitIdEncoder(draws: seq<nat>) returns (r: Option<Encoder>)
    requires forall i | 0 <= i < |draws| :: draws[i] < TWO_64
    ensures r.Some? ==> Valid(r.value)
    ensures r.Some? <==> exists i | 0 <= i < |draws| - 1 :: draws[i] / TWO_32 < 0xffff_ff00
    ensures r.Some? ==> forall i: nat | FirstAllowed(draws, i) ::
              i + 1 < |draws| && r.value.base == draws[i] && r.value.mult == FirstDigit(draws[i + 1], 0)
  {
    var i := 0;
    while i < |draws| && draws[i] / TWO_32 >= 0xffff_ff00
      invariant 0 <= i <= |draws|
      invariant forall j | 0 <= j < i :: draws[j] / TWO_32 >= 0xffff_ff00
    {
      i := i + 1;
    }
    if i + 1 >= |draws| {
      return None;
    }
    var mult := PickMultiplier(draws[i + 1]);
    return Some(Encoder(draws[i], mult, TWO_32 / mult + 1));
  }
}
