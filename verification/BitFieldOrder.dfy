/** The order of bits in a member with declared ranges. Ranges are declared from the
    highest bits of the member down, and each is to keep its own order. The code
    splits ranges at unit boundaries before it reverses the list, which turns the
    pieces of a range around as well. */
module BitFieldOrder {
  import opened Outcomes
  import opened BitFields
  import opened BitFieldMaps

  /** A span that crosses a boundary is cut there. */
  lemma SplitCuts(bit: int, width: int, unit: int) returns (cut: int)
    requires unit > 0 && width > 0 && !InUnit(bit, width, unit)
    ensures 0 < cut < width && Split(bit, width, unit) == [Span(bit, cut)] + Split(bit + cut, width - cut, unit)
  {
    SplitPointFacts(bit, width, unit);
    cut := SplitPoint(bit, unit) - bit;
    assert bit + cut == SplitPoint(bit, unit);
  }

  /** Splitting loses no bits. */
  lemma {:induction false} SplitWidth(bit: int, width: int, unit: int)
    requires unit > 0 && width > 0
    ensures Positive(Split(bit, width, unit)) && Width(Split(bit, width, unit)) == width
    decreases width
  {
    if InUnit(bit, width, unit) {
      StrungOne(Span(bit, width), 0);
    } else {
      var cut := SplitCuts(bit, width, unit);
      SplitWidth(bit + cut, width - cut, unit);
      PieceAndRest(Span(bit, cut), Split(bit + cut, width - cut, unit));
    }
  }

  lemma PieceAndRest(piece: Span, rest: seq<Span>)
    requires piece.width > 0 && Positive(rest)
    ensures Positive([piece] + rest) && Width([piece] + rest) == piece.width + Width(rest)
  {
    StrungOne(piece, 0);
    WidthConcat([piece], rest);
  }

  lemma BothPositive(a: seq<Span>, b: seq<Span>)
    requires Positive(a) && Positive(b)
    ensures Positive(a + b) && Width(a + b) == Width(a) + Width(b)
  {
    WidthConcat(a, b);
  }

  /** The highest piece of a range that crosses a boundary comes first. */
  lemma {:induction false} FirstBit(bit: int, width: int, unit: int)
    requires unit > 0 && width > 0
    ensures var first := Strung(Split(bit, width, unit), 0);
            first.Some? && bit <= first.value && (first.value == bit <==> InUnit(bit, width, unit))
    decreases width
  {
    if InUnit(bit, width, unit) {
      StrungOne(Span(bit, width), 0);
    } else {
      var cut := SplitCuts(bit, width, unit);
      FirstBit(bit + cut, width - cut, unit);
      SplitWidth(bit + cut, width - cut, unit);
      StrungConcat([Span(bit, cut)], Split(bit + cut, width - cut, unit), 0);
    }
  }

  /** The logical bits of range `i` start above those of the ranges declared after it. */
  function Offset(ranges: seq<Span>, i: nat): (k: int)
    requires i < |ranges|
  {
    Width(ranges[i + 1..])
  }

  // ------------------------------------------------ any way of cutting ranges up

  /** The pieces of all ranges, in declaration order. */
  function Flat(ranges: seq<Span>, cut: Span -> seq<Span>): (pieces: seq<Span>) {
    if ranges == [] then [] else Flat(ranges[..|ranges| - 1], cut) + cut(ranges[|ranges| - 1])
  }

  /** No range loses bits. */
  ghost predicate Complete(ranges: seq<Span>, cut: Span -> seq<Span>) {
    forall i | 0 <= i < |ranges| :: Positive(cut(ranges[i])) && Width(cut(ranges[i])) == ranges[i].width
  }

  lemma {:induction false} FlatConcat(a: seq<Span>, b: seq<Span>, cut: Span -> seq<Span>)
    ensures Flat(a + b, cut) == Flat(a, cut) + Flat(b, cut)
    decreases |b|
  {
    if b == [] {
      assert a + b == a;
    } else {
      var n := |b| - 1;
      assert (a + b)[..|a + b| - 1] == a + b[..n] && (a + b)[|a + b| - 1] == b[n];
      FlatConcat(a, b[..n], cut);
    }
  }

  lemma {:induction false} FlatWidth(ranges: seq<Span>, cut: Span -> seq<Span>)
    requires Complete(ranges, cut)
    ensures Positive(Flat(ranges, cut)) && Width(Flat(ranges, cut)) == Width(ranges)
  {
    if ranges != [] {
      var n := |ranges| - 1;
      FlatWidth(ranges[..n], cut);
      BothPositive(Flat(ranges[..n], cut), cut(ranges[n]));
    }
  }

  lemma Middle(a: seq<Span>, b: seq<Span>, c: seq<Span>, k: int)
    requires Positive(a) && Positive(b) && Positive(c) && 0 <= k < Width(b)
    ensures Strung(a + b + c, Width(c) + k) == Strung(b, k)
  {
    BothPositive(a, b);
    StrungRange(c, 0);
    StrungConcat(a + b, c, Width(c) + k);
    StrungConcat(a, b, k);
  }

  lemma FlatAround(ranges: seq<Span>, i: nat, cut: Span -> seq<Span>)
    requires i < |ranges|
    ensures Flat(ranges, cut) == Flat(ranges[..i], cut) + cut(ranges[i]) + Flat(ranges[i + 1..], cut)
  {
    var upTo := ranges[..i + 1];
    assert ranges == upTo + ranges[i + 1..];
    FlatConcat(upTo, ranges[i + 1..], cut);
    assert upTo[..|upTo| - 1] == ranges[..i] && upTo[|upTo| - 1] == ranges[i];
    assert Flat(upTo, cut) == Flat(ranges[..i], cut) + cut(ranges[i]);
  }

  /** The bits of range `i` are those of its own pieces, strung together. */
  lemma FlatWithin(ranges: seq<Span>, i: nat, cut: Span -> seq<Span>, k: int)
    requires Complete(ranges, cut) && i < |ranges| && 0 <= k < ranges[i].width
    ensures Strung(Flat(ranges, cut), Offset(ranges, i) + k) == Strung(cut(ranges[i]), k)
  {
    FlatAround(ranges, i, cut);
    FlatWidth(ranges[..i], cut);
    FlatWidth(ranges[i + 1..], cut);
    var a, b, c := Flat(ranges[..i], cut), cut(ranges[i]), Flat(ranges[i + 1..], cut);
    MiddleAt(a, b, c, Offset(ranges, i), k);
  }

  lemma MiddleAt(a: seq<Span>, b: seq<Span>, c: seq<Span>, offset: int, k: int)
    requires Positive(a) && Positive(b) && Positive(c) && 0 <= k < Width(b) && offset == Width(c)
    ensures Strung(a + b + c, offset + k) == Strung(b, k)
  {
    Middle(a, b, c, k);
  }

  // ------------------------------------------------------ cutting at unit boundaries

  /** The pieces of one range between unit boundaries. */
  function Cutter(unit: int): (cut: Span -> seq<Span>)
    requires unit > 0
  {
    (r: Span) => if r.width > 0 then Split(r.bit, r.width, unit) else []
  }

  lemma {:induction false} SplitAllIsFlat(ranges: seq<Span>, unit: int)
    requires unit > 0 && Positive(ranges)
    ensures SplitAll(ranges, unit) == Flat(ranges, Cutter(unit))
  {
    if ranges != [] {
      var n := |ranges| - 1;
      SplitAllIsFlat(ranges[..n], unit);
      assert Cutter(unit)(ranges[n]) == Split(ranges[n].bit, ranges[n].width, unit);
    }
  }

  lemma SplitIsComplete(ranges: seq<Span>, unit: int)
    requires unit > 0 && Positive(ranges)
    ensures Complete(ranges, Cutter(unit))
  {
    forall i | 0 <= i < |ranges|
      ensures Positive(Cutter(unit)(ranges[i])) && Width(Cutter(unit)(ranges[i])) == ranges[i].width
    {
      SplitWidth(ranges[i].bit, ranges[i].width, unit);
    }
  }

  /** Where bit `k` of range `i` is put. */
  function BitOf(ranges: seq<Span>, i: nat, unit: int, k: int): (p: Option<int>)
    requires unit > 0 && Positive(ranges) && i < |ranges|
  {
    Strung(SplitAll(ranges, unit), Offset(ranges, i) + k)
  }

  /** Within the logical bits of range `i` the placement is that of the range's own
      pieces, strung together from the last one on. */
  lemma WithinRange(ranges: seq<Span>, i: nat, unit: int, k: int)
    requires unit > 0 && Positive(ranges) && i < |ranges| && 0 <= k < ranges[i].width
    ensures BitOf(ranges, i, unit, k) == Strung(Split(ranges[i].bit, ranges[i].width, unit), k)
  {
    SplitAllIsFlat(ranges, unit);
    SplitIsComplete(ranges, unit);
    FlatWithin(ranges, i, Cutter(unit), k);
  }

  /** Range `i` keeps its order: its bits are consecutive from its first one on. */
  ghost predicate KeepsOrder(ranges: seq<Span>, i: nat, unit: int)
    requires unit > 0 && Positive(ranges) && i < |ranges|
  {
    forall k: int | 0 <= k < ranges[i].width :: BitOf(ranges, i, unit, k) == Some(ranges[i].bit + k)
  }

  /** A declared range keeps its bit order if and only if it crosses no unit boundary. */
  lemma OrderIff(ranges: seq<Span>, i: nat, unit: int)
    requires unit > 0 && Positive(ranges) && i < |ranges|
    ensures KeepsOrder(ranges, i, unit) <==> InUnit(ranges[i].bit, ranges[i].width, unit)
  {
    var bit, width := ranges[i].bit, ranges[i].width;
    FirstBit(bit, width, unit);
    WithinRange(ranges, i, unit, 0);
    if InUnit(bit, width, unit) {
      forall k: int | 0 <= k < width ensures BitOf(ranges, i, unit, k) == Some(bit + k) {
        WithinRange(ranges, i, unit, k);
        StrungOne(Span(bit, width), k);
      }
    } else {
      assert BitOf(ranges, i, unit, 0) != Some(bit + 0);
    }
  }

  /** The whole member is as declared if and only if no range crosses a boundary. */
  lemma {:induction false} DeclaredIff(ranges: seq<Span>, unit: int)
    requires unit > 0 && Positive(ranges)
    ensures (forall k: int :: Strung(SplitAll(ranges, unit), k) == Strung(ranges, k)) <==>
            forall i | 0 <= i < |ranges| :: InUnit(ranges[i].bit, ranges[i].width, unit)
  {
    if forall i | 0 <= i < |ranges| :: InUnit(ranges[i].bit, ranges[i].width, unit) {
      SplitsNothing(ranges, unit);
    } else {
      var i :| 0 <= i < |ranges| && !InUnit(ranges[i].bit, ranges[i].width, unit);
      WithinRange(ranges, i, unit, 0);
      FirstBit(ranges[i].bit, ranges[i].width, unit);
      DeclaredStart(ranges, i);
      assert Strung(SplitAll(ranges, unit), Offset(ranges, i)) != Strung(ranges, Offset(ranges, i));
    }
  }

  lemma {:induction false} SplitsNothing(ranges: seq<Span>, unit: int)
    requires unit > 0 && Positive(ranges)
    requires forall i | 0 <= i < |ranges| :: InUnit(ranges[i].bit, ranges[i].width, unit)
    ensures SplitAll(ranges, unit) == ranges
  {
    if ranges != [] {
      var n := |ranges| - 1;
      SplitsNothing(ranges[..n], unit);
      assert ranges == ranges[..n] + [ranges[n]];
    }
  }

  lemma {:induction false} DeclaredStart(ranges: seq<Span>, i: nat)
    requires Positive(ranges) && i < |ranges|
    ensures Strung(ranges, Offset(ranges, i)) == Some(ranges[i].bit)
  {
    assert ranges == ranges[..i + 1] + ranges[i + 1..];
    StrungConcat(ranges[..i + 1], ranges[i + 1..], Offset(ranges, i));
    assert ranges[..i + 1][..i] == ranges[..i];
  }

  /** Four bits from bit 6 on, in units of 8: logical bits 0 and 1 are the physical
      bits 8 and 9, and only then come 6 and 7. */
  lemma CrossingExample()
    ensures var pieces := SplitAll([Span(6, 4)], 8);
            Strung(pieces, 0) == Some(8) && Strung(pieces, 1) == Some(9) &&
            Strung(pieces, 2) == Some(6) && Strung(pieces, 3) == Some(7)
    ensures !KeepsOrder([Span(6, 4)], 0, 8)
  {
    var pieces := SplitAll([Span(6, 4)], 8);
    assert [Span(6, 4)][..0] == [];
    assert pieces == [Span(6, 2), Span(8, 2)];
    assert pieces[..1] == [Span(6, 2)];
    StrungOne(Span(6, 2), 0);
    StrungOne(Span(6, 2), 1);
    OrderIff([Span(6, 4)], 0, 8);
  }
}
