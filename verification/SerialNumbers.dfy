/** The wrapping comparison of 32-bit counters, `misc.c`. */
module SerialNumbers {
  import opened Arithmetic

  /** A counter as it is stored: the low 32 bits. */
  function Stored(n: int): (c: nat)
    ensures c < TWO_32
  {
    n % TWO_32
  }

  /** `util_is_before`: the unsigned difference has its top bit set. */
  predicate IsBefore(a: nat, b: nat)
    requires a < TWO_32 && b < TWO_32
  {
    (a - b) % TWO_32 >= TWO_31
  }

  lemma StoredDifference(a: int, b: int)
    ensures (Stored(a) - Stored(b)) % TWO_32 == (a - b) % TWO_32
  {
  }

  /** On stored counters the comparison agrees with the order of the true counters
      if and only if these are less than 2^31 apart, or exactly 2^31 with the first behind. */
  lemma AgreesIff(a: int, b: int)
    requires -TWO_32 < a - b < TWO_32
    ensures IsBefore(Stored(a), Stored(b)) == (a < b) <==> -TWO_31 <= a - b < TWO_31
  {
    StoredDifference(a, b);
  }

  /** However far the second counter is ahead, the comparison is right just when the
      distance is from 1 to 2^31 modulo 2^32. */
  lemma AheadIff(a: int, b: int)
    requires a < b + TWO_31
    ensures IsBefore(Stored(a), Stored(b)) == (a < b) <==> b <= a || (b - a - 1) % TWO_32 < TWO_31
  {
    StoredDifference(a, b);
    if a < b {
      Complement(b - a - 1);
    }
  }

  lemma Complement(d: int)
    ensures (-1 - d) % TWO_32 == TWO_32 - 1 - d % TWO_32
  {
    var q, r := d / TWO_32, d % TWO_32;
    assert -1 - d == (-q - 1) * TWO_32 + (TWO_32 - 1 - r);
  }

  /** Less than 2^31 apart, at most one of two counters is before the other. */
  lemma Antisymmetric(a: int, b: int)
    requires -TWO_31 < a - b < TWO_31
    ensures !(IsBefore(Stored(a), Stored(b)) && IsBefore(Stored(b), Stored(a)))
    ensures a != b ==> IsBefore(Stored(a), Stored(b)) || IsBefore(Stored(b), Stored(a))
  {
    AgreesIff(a, b);
    AgreesIff(b, a);
  }

  /** Across wrap-around the comparison is transitive while all counters stay within 2^31. */
  lemma Transitive(a: int, b: int, c: int)
    requires -TWO_31 <= a - b < TWO_31 && -TWO_31 <= b - c < TWO_31 && -TWO_31 <= a - c < TWO_31
    requires IsBefore(Stored(a), Stored(b)) && IsBefore(Stored(b), Stored(c))
    ensures IsBefore(Stored(a), Stored(c))
  {
    AgreesIff(a, b);
    AgreesIff(b, c);
    AgreesIff(a, c);
  }
}
