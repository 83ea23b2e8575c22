/** Logical to physical bits of a member: the split of declared ranges at unit
    boundaries, explicit and automatic placement, and compaction of the map. */
module BitFieldMaps {
  import opened Arithmetic
  import opened Outcomes
  import opened BitFields

  /** `length` logical bits from `field` on are the physical bits from `mapped` on. */
  datatype FieldMap = FieldMap(field: int, mapped: int, length: int)

  // ------------------------------------------------------------------ splitting

  /** Nonempty and within one unit. */
  predicate InUnit(bit: int, width: int, unit: int)
    requires unit > 0
  {
    width > 0 && bit / unit == (bit + width - 1) / unit
  }

  /** The first bit of the next unit. */
  function SplitPoint(bit: int, unit: int): (p: int)
    requires unit > 0
  {
    (bit / unit + 1) * unit
  }

  lemma SplitPointFacts(bit: int, width: int, unit: int)
    requires unit > 0 && width > 0
    ensures bit < SplitPoint(bit, unit) <= bit + unit
    ensures InUnit(bit, SplitPoint(bit, unit) - bit, unit)
    ensures !InUnit(bit, width, unit) ==> SplitPoint(bit, unit) < bit + width
  {
    var q := bit / unit;
    assert bit == q * unit + bit % unit;
    assert SplitPoint(bit, unit) == q * unit + unit;
    SameUnit(SplitPoint(bit, unit) - 1, q, unit);
    if bit + width <= SplitPoint(bit, unit) { SameUnit(bit + width - 1, q, unit); }
  }

  lemma SameUnit(b: int, q: int, unit: int)
    requires unit > 0 && q * unit <= b < q * unit + unit
    ensures b / unit == q
  {
    var d := b / unit - q;
    assert b == unit * (b / unit) + b % unit;
    assert unit * d == b - b % unit - q * unit;
    MultipleIsFar(unit, d);
  }

  /** The pieces of a span between unit boundaries, lowest first. */
  function Split(bit: int, width: int, unit: int): (r: seq<Span>)
    requires unit > 0 && width > 0
    decreases width
  {
    if InUnit(bit, width, unit) then [Span(bit, width)]
    else
      var p := SplitPoint(bit, unit);
      assert bit < p < bit + width by { SplitPointFacts(bit, width, unit); }
      [Span(bit, p - bit)] + Split(p, width - (p - bit), unit)
  }

  predicate AllInUnit(list: seq<Span>, unit: int)
    requires unit > 0
  {
    forall i | 0 <= i < |list| :: InUnit(list[i].bit, list[i].width, unit)
  }

  /** Splitting covers exactly the declared bits, each once, and no piece crosses a unit. */
  lemma {:induction false} SplitIsExact(bit: int, width: int, unit: int, b: int)
    requires unit > 0 && width > 0
    ensures SpanCover(Split(bit, width, unit), b) == SpanCover([Span(bit, width)], b)
    ensures AllInUnit(Split(bit, width, unit), unit)
    decreases width
  {
    OneSpan(Span(bit, width), b);
    if !InUnit(bit, width, unit) {
      SplitPointFacts(bit, width, unit);
      var p := SplitPoint(bit, unit);
      SplitIsExact(p, width - (p - bit), unit, b);
      OneSpan(Span(p, width - (p - bit)), b);
      OneSpan(Span(bit, p - bit), b);
      SpanCoverConcat([Span(bit, p - bit)], Split(p, width - (p - bit), unit), b);
    }
  }

  /** All declared ranges split, in declaration order. */
  function SplitAll(ranges: seq<Span>, unit: int): (r: seq<Span>)
    requires unit > 0 && forall i | 0 <= i < |ranges| :: ranges[i].width > 0
  {
    if ranges == [] then []
    else SplitAll(ranges[..|ranges| - 1], unit) + Split(ranges[|ranges| - 1].bit, ranges[|ranges| - 1].width, unit)
  }

  lemma {:induction false} SplitAllIsExact(ranges: seq<Span>, unit: int, b: int)
    requires unit > 0 && forall i | 0 <= i < |ranges| :: ranges[i].width > 0
    ensures SpanCover(SplitAll(ranges, unit), b) == SpanCover(ranges, b)
    ensures AllInUnit(SplitAll(ranges, unit), unit)
  {
    if ranges != [] {
      var n := |ranges| - 1;
      SplitAllIsExact(ranges[..n], unit, b);
      SplitIsExact(ranges[n].bit, ranges[n].width, unit, b);
      SpanCoverConcat(SplitAll(ranges[..n], unit), Split(ranges[n].bit, ranges[n].width, unit), b);
      assert ranges == ranges[..n] + [ranges[n]];
      SpanCoverConcat(ranges[..n], [ranges[n]], b);
    }
  }

  /** The loop that splits one range. */
  method SplitRange(range: Span, unit: int) returns (r: seq<Span>)
    requires unit > 0 && range.width > 0
    ensures r == Split(range.bit, range.width, unit)
  {
    r := [];
    var bit, width := range.bit, range.width;
    while bit / unit != (bit + width - 1) / unit
      invariant width > 0 && r + Split(bit, width, unit) == Split(range.bit, range.width, unit)
      decreases width
    {
      SplitPointFacts(bit, width, unit);
      var point := (bit / unit + 1) * unit;
      r := r + [Span(bit, point - bit)];
      width := width - (point - bit);
      bit := point;
    }
    r := r + [Span(bit, width)];
  }

  // --------------------------------------------------------------------- maps

  /** The physical place of logical bit `k`. */
  function Physical(maps: seq<FieldMap>, k: int): (p: Option<int>) {
    if maps == [] then None
    else if maps[0].field <= k < maps[0].field + maps[0].length then Some(maps[0].mapped + (k - maps[0].field))
    else Physical(maps[1..], k)
  }

  /** The logical bits of the maps follow each other without a gap, from `from` on. */
  predicate Chained(maps: seq<FieldMap>, from: int) {
    maps == [] || (maps[0].field == from && maps[0].length >= 0 && Chained(maps[1..], from + maps[0].length))
  }

  function Bits(maps: seq<FieldMap>): (n: int) {
    if maps == [] then 0 else maps[0].length + Bits(maps[1..])
  }

  /** How many maps hold the physical bit `b`. */
  function MapCover(maps: seq<FieldMap>, b: int): (n: nat) {
    if maps == [] then 0
    else (if maps[0].mapped <= b < maps[0].mapped + maps[0].length then 1 else 0) + MapCover(maps[1..], b)
  }

  predicate MapsInUnit(maps: seq<FieldMap>, unit: int)
    requires unit > 0
  {
    forall i | 0 <= i < |maps| :: InUnit(maps[i].mapped, maps[i].length, unit)
  }

  lemma {:induction false} PhysicalRange(maps: seq<FieldMap>, from: int, k: int)
    requires Chained(maps, from)
    ensures Bits(maps) >= 0 && (Physical(maps, k).Some? <==> from <= k < from + Bits(maps))
  {
    if maps != [] { PhysicalRange(maps[1..], from + maps[0].length, k); }
  }

  lemma {:induction false} PhysicalIsMapped(maps: seq<FieldMap>, k: int)
    requires Physical(maps, k).Some?
    ensures MapCover(maps, Physical(maps, k).value) > 0
  {
    if !(maps[0].field <= k < maps[0].field + maps[0].length) { PhysicalIsMapped(maps[1..], k); }
  }

  /** If no physical bit is mapped twice, no two logical bits share one. */
  lemma {:induction false} PhysicalIsInjective(maps: seq<FieldMap>, from: int, k: int, l: int)
    requires Chained(maps, from) && (forall b: int :: MapCover(maps, b) <= 1)
    requires Physical(maps, k).Some? && Physical(maps, l).Some? && k != l
    ensures Physical(maps, k) != Physical(maps, l)
  {
    var m := maps[0];
    var rest := maps[1..];
    var inK, inL := m.field <= k < m.field + m.length, m.field <= l < m.field + m.length;
    if !inK && !inL {
      forall b: int ensures MapCover(rest, b) <= 1 { assert MapCover(maps, b) <= 1; }
      PhysicalIsInjective(rest, from + m.length, k, l);
    } else if inK && !inL {
      PhysicalIsMapped(rest, l);
      assert MapCover(maps, Physical(maps, k).value) <= 1;
    } else if inL && !inK {
      PhysicalIsMapped(rest, k);
      assert MapCover(maps, Physical(maps, l).value) <= 1;
    }
  }

  // ------------------------------------------------------------------ compaction

  /** Two neighbouring maps that one map can replace. */
  predicate Mergeable(a: FieldMap, b: FieldMap, unit: int)
    requires unit > 0
  {
    a.mapped / unit == b.mapped / unit && a.mapped + a.length == b.mapped
  }

  function Merge(maps: seq<FieldMap>, i: nat): (r: seq<FieldMap>)
    requires i + 1 < |maps|
  {
    maps[..i] + [FieldMap(maps[i].field, maps[i].mapped, maps[i].length + maps[i + 1].length)] + maps[i + 2..]
  }

  lemma {:induction false} ChainedAt(maps: seq<FieldMap>, from: int, i: nat)
    requires Chained(maps, from) && i + 1 < |maps|
    ensures maps[i].field + maps[i].length == maps[i + 1].field && maps[i].length >= 0 && maps[i + 1].length >= 0
  {
    if i > 0 { ChainedAt(maps[1..], from + maps[0].length, i - 1); }
  }

  /** Merging two maps that continue each other physically changes no bit. */
  lemma {:induction false} MergeKeeps(maps: seq<FieldMap>, from: int, i: nat, k: int)
    requires Chained(maps, from) && i + 1 < |maps| && maps[i].mapped + maps[i].length == maps[i + 1].mapped
    ensures var r := Merge(maps, i);
            Chained(r, from) && Bits(r) == Bits(maps) && Physical(r, k) == Physical(maps, k) &&
            MapCover(r, k) == MapCover(maps, k)
  {
    var r := Merge(maps, i);
    ChainedAt(maps, from, i);
    if i == 0 {
      assert r[1..] == maps[2..] && maps[1..][1..] == maps[2..];
      assert maps[1..][0] == maps[1];
      MergeHead(maps, from, k);
    } else {
      assert r[0] == maps[0] && r[1..] == Merge(maps[1..], i - 1);
      MergeKeeps(maps[1..], from + maps[0].length, i - 1, k);
    }
  }

  lemma MergeHead(maps: seq<FieldMap>, from: int, k: int)
    requires |maps| >= 2 && Chained(maps, from) && maps[0].mapped + maps[0].length == maps[1].mapped
    ensures var r := [FieldMap(maps[0].field, maps[0].mapped, maps[0].length + maps[1].length)] + maps[2..];
            Chained(r, from) && Bits(r) == Bits(maps) && Physical(r, k) == Physical(maps, k) &&
            MapCover(r, k) == MapCover(maps, k)
  {
    var r := [FieldMap(maps[0].field, maps[0].mapped, maps[0].length + maps[1].length)] + maps[2..];
    var t := maps[1..];
    assert r[1..] == maps[2..] && t[0] == maps[1] && t[1..] == maps[2..];
  }

  lemma MergeInUnit(maps: seq<FieldMap>, i: nat, unit: int)
    requires unit > 0 && i + 1 < |maps| && MapsInUnit(maps, unit) && Mergeable(maps[i], maps[i + 1], unit)
    ensures MapsInUnit(Merge(maps, i), unit)
  {
    var r := Merge(maps, i);
    forall j | 0 <= j < |r| ensures InUnit(r[j].mapped, r[j].length, unit) {
      if j > i { assert r[j] == maps[j + 1]; }
    }
  }

  /** The same bits are mapped to the same places. */
  ghost predicate SameBits(a: seq<FieldMap>, b: seq<FieldMap>) {
    Bits(a) == Bits(b) && forall k: int :: Physical(a, k) == Physical(b, k) && MapCover(a, k) == MapCover(b, k)
  }

  lemma MergeKeepsAll(maps: seq<FieldMap>, from: int, i: nat)
    requires Chained(maps, from) && i + 1 < |maps| && maps[i].mapped + maps[i].length == maps[i + 1].mapped
    ensures Chained(Merge(maps, i), from) && SameBits(Merge(maps, i), maps)
  {
    MergeKeeps(maps, from, i, 0);
    forall k: int
      ensures Physical(Merge(maps, i), k) == Physical(maps, k) && MapCover(Merge(maps, i), k) == MapCover(maps, k)
    {
      MergeKeeps(maps, from, i, k);
    }
  }

  /** `BitFieldMemberMapping.update`: no logical bit moves, no map crosses a unit,
      the assertion on neighbours holds, and nothing is left to merge. */
  method Compact(maps: seq<FieldMap>, from: int, unit: int) returns (r: seq<FieldMap>)
    requires unit > 0 && Chained(maps, from) && MapsInUnit(maps, unit)
    ensures Chained(r, from) && MapsInUnit(r, unit) && SameBits(r, maps)
    ensures forall i | 0 <= i < |r| - 1 :: !Mergeable(r[i], r[i + 1], unit)
  {
    r := maps;
    var i := 0;
    while i + 1 < |r|
      invariant 0 <= i && (i < |r| || i == 0) && Chained(r, from) && SameBits(r, maps) && MapsInUnit(r, unit)
      invariant forall j | 0 <= j < i :: !Mergeable(r[j], r[j + 1], unit)
      decreases 2 * |r| - i
    {
      ChainedAt(r, from, i);
      assert r[i].field + r[i].length == r[i + 1].field;
      if r[i].mapped / unit == r[i + 1].mapped / unit && r[i].mapped + r[i].length == r[i + 1].mapped {
        MergeInUnit(r, i, unit);
        MergeKeepsAll(r, from, i);
        r := Merge(r, i);
      } else {
        i := i + 1;
      }
    }
  }

  // ------------------------------------------------------------------ placement

  lemma {:induction false} MapsAppend(maps: seq<FieldMap>, from: int, m: FieldMap, b: int)
    requires Chained(maps, from) && m.field == from + Bits(maps) && m.length >= 0
    ensures Chained(maps + [m], from) && Bits(maps + [m]) == Bits(maps) + m.length
    ensures MapCover(maps + [m], b) == MapCover(maps, b) + (if m.mapped <= b < m.mapped + m.length then 1 else 0)
  {
    if maps == [] {
      assert maps + [m] == [m] && [m][1..] == [];
    } else {
      assert (maps + [m])[0] == maps[0] && (maps + [m])[1..] == maps[1..] + [m];
      MapsAppend(maps[1..], from + maps[0].length, m, b);
    }
  }

  /** A map behind the others holds the logical bits that they do not. */
  lemma {:induction false} PhysicalAppend(maps: seq<FieldMap>, m: FieldMap, k: int)
    ensures Physical(maps + [m], k) == if Physical(maps, k).Some? then Physical(maps, k) else Physical([m], k)
  {
    if maps == [] {
      assert maps + [m] == [m];
    } else {
      assert (maps + [m])[0] == maps[0] && (maps + [m])[1..] == maps[1..] + [m];
      PhysicalAppend(maps[1..], m, k);
    }
  }

  /** How many bits the spans have together. */
  function Width(spans: seq<Span>): (n: int) {
    if spans == [] then 0 else Width(spans[..|spans| - 1]) + spans[|spans| - 1].width
  }

  /** Where the `k`-th bit is when the spans are strung together, the last one lowest,
      and each keeps its order. */
  function Strung(spans: seq<Span>, k: int): (p: Option<int>) {
    if spans == [] then None
    else
      var n := |spans| - 1;
      if 0 <= k < spans[n].width then Some(spans[n].bit + k) else Strung(spans[..n], k - spans[n].width)
  }

  predicate Positive(spans: seq<Span>) {
    forall i | 0 <= i < |spans| :: spans[i].width > 0
  }

  lemma {:induction false} StrungRange(spans: seq<Span>, k: int)
    requires Positive(spans)
    ensures Width(spans) >= 0 && (Strung(spans, k).Some? <==> 0 <= k < Width(spans))
  {
    if spans != [] {
      var n := |spans| - 1;
      StrungRange(spans[..n], k - spans[n].width);
    }
  }

  lemma {:induction false} WidthConcat(a: seq<Span>, b: seq<Span>)
    ensures Width(a + b) == Width(a) + Width(b)
    decreases |b|
  {
    if b == [] {
      assert a + b == a;
    } else {
      var n := |b| - 1;
      assert (a + b)[..|a + b| - 1] == a + b[..n];
      WidthConcat(a, b[..n]);
    }
  }

  lemma {:induction false} StrungConcat(a: seq<Span>, b: seq<Span>, k: int)
    requires Positive(a) && Positive(b)
    ensures Strung(a + b, k) == if k < Width(b) then Strung(b, k) else Strung(a, k - Width(b))
    decreases |b|
  {
    StrungRange(a, k - Width(b));
    StrungRange(b, k);
    if b == [] {
      assert a + b == a;
      StrungRange(a, k);
    } else {
      var n := |b| - 1;
      assert (a + b)[..|a + b| - 1] == a + b[..n] && (a + b)[|a + b| - 1] == b[n];
      StrungConcat(a, b[..n], k - b[n].width);
      StrungRange(b[..n], k - b[n].width);
    }
  }

  method SplitRanges(ranges: seq<Span>, unit: int) returns (pieces: seq<Span>)
    requires unit > 0 && forall i | 0 <= i < |ranges| :: ranges[i].width > 0
    ensures pieces == SplitAll(ranges, unit)
  {
    pieces := [];
    var i := 0;
    while i < |ranges|
      invariant 0 <= i <= |ranges| && pieces == SplitAll(ranges[..i], unit)
    {
      var more := SplitRange(ranges[i], unit);
      pieces := pieces + more;
      assert ranges[..i + 1][..i] == ranges[..i];
      i := i + 1;
    }
    assert ranges[..i] == ranges;
  }

  /** The free bits are those that were free before, without the spans taken. */
  ghost predicate Took(before: seq<Range>, after: seq<Range>, spans: seq<Span>) {
    forall b: int :: Cover(after, b) + SpanCover(spans, b) == Cover(before, b)
  }

  /** The maps lead to the bits of the spans, and each map stays within a unit. */
  ghost predicate MapsOnto(maps: seq<FieldMap>, from: int, spans: seq<Span>, unit: int)
    requires unit > 0
  {
    Chained(maps, from) && MapsInUnit(maps, unit) && forall b: int :: MapCover(maps, b) == SpanCover(spans, b)
  }

  lemma MapsOntoNext(maps: seq<FieldMap>, from: int, spans: seq<Span>, unit: int, piece: Span)
    requires unit > 0 && MapsOnto(maps, from, spans, unit) && InUnit(piece.bit, piece.width, unit)
    ensures MapsOnto(maps + [FieldMap(from + Bits(maps), piece.bit, piece.width)], from, [piece] + spans, unit)
    ensures Bits(maps + [FieldMap(from + Bits(maps), piece.bit, piece.width)]) == Bits(maps) + piece.width
  {
    var m := FieldMap(from + Bits(maps), piece.bit, piece.width);
    MapsAppend(maps, from, m, 0);
    forall b: int ensures MapCover(maps + [m], b) == SpanCover([piece] + spans, b) {
      MapsAppend(maps, from, m, b);
      SpanCoverConcat([piece], spans, b);
      OneSpan(piece, b);
    }
  }

  /** The maps string the spans together from `from` on, the last one lowest. */
  ghost predicate Strings(maps: seq<FieldMap>, from: int, spans: seq<Span>) {
    Bits(maps) == Width(spans) && forall k: int :: Physical(maps, k) == Strung(spans, k - from)
  }

  lemma StringsNext(maps: seq<FieldMap>, from: int, spans: seq<Span>, piece: Span)
    requires Chained(maps, from) && Strings(maps, from, spans) && Positive(spans) && piece.width > 0
    ensures Strings(maps + [FieldMap(from + Bits(maps), piece.bit, piece.width)], from, [piece] + spans)
  {
    var m := FieldMap(from + Bits(maps), piece.bit, piece.width);
    MapsAppend(maps, from, m, 0);
    forall k: int ensures Physical(maps + [m], k) == Strung([piece] + spans, k - from) {
      PhysicalAppend(maps, m, k);
      PhysicalRange(maps, from, k);
      StrungConcat([piece], spans, k - from);
      StrungOne(piece, k - from - Width(spans));
    }
    WidthConcat([piece], spans);
    StrungOne(piece, 0);
  }

  lemma StrungOne(piece: Span, k: int)
    ensures Width([piece]) == piece.width
    ensures Strung([piece], k) == if 0 <= k < piece.width then Some(piece.bit + k) else None
  {
    assert [piece][..0] == [];
  }

  lemma TookNext(before: seq<Range>, mid: seq<Range>, after: seq<Range>, spans: seq<Span>, piece: Span)
    requires Took(before, mid, spans) && Took(mid, after, [piece])
    ensures Took(before, after, [piece] + spans)
  {
    forall b: int ensures Cover(after, b) + SpanCover([piece] + spans, b) == Cover(before, b) {
      SpanCoverConcat([piece], spans, b);
    }
  }

  /** Declared ranges are disjoint and free: every bit they hold is free once. */
  ghost predicate Fits(free: seq<Range>, spans: seq<Span>) {
    forall b: int :: SpanCover(spans, b) <= Cover(free, b)
  }

  /** A piece that cannot be placed shows that the ranges did not fit. */
  lemma PieceMissing(before: seq<Range>, mid: seq<Range>, pieces: seq<Span>, i: nat)
    requires i < |pieces| && Took(before, mid, pieces[i + 1..]) && pieces[i].width > 0
    requires !AllFree(mid, pieces[i].bit, pieces[i].width)
    ensures !Fits(before, pieces)
  {
    var b :| pieces[i].bit <= b < pieces[i].bit + pieces[i].width && !(Cover(mid, b) > 0);
    assert pieces == pieces[..i] + ([pieces[i]] + pieces[i + 1..]);
    SpanCoverConcat(pieces[..i], [pieces[i]] + pieces[i + 1..], b);
    SpanCoverConcat([pieces[i]], pieces[i + 1..], b);
    OneSpan(pieces[i], b);
    assert Cover(mid, b) + SpanCover(pieces[i + 1..], b) == Cover(before, b);
  }

  /** Explicit placement, `BitFieldSpecifier.update_ranges` for a member that is not
      ignored. It succeeds if and only if the declared ranges are disjoint and free,
      takes exactly their bits, and maps the member onto them one to one, in the order
      of their pieces, the last one lowest; `BitFieldOrder` says what becomes of the
      order of each range. */
  method PlaceRanges(c: RangeCollector, ranges: seq<Span>, shift: int, unit: int) returns (r: Option<seq<FieldMap>>)
    requires c.Valid() && unit > 0 && forall i | 0 <= i < |ranges| :: ranges[i].width > 0
    modifies c
    ensures c.Valid()
    ensures r.Some? <==> Fits(old(c.free), ranges)
    ensures r.Some? ==> Took(old(c.free), c.free, ranges) && MapsOnto(r.value, shift, ranges, unit)
    ensures r.Some? ==> forall b: int :: MapCover(r.value, b) <= 1
    ensures r.Some? ==> Strings(r.value, shift, SplitAll(ranges, unit))
  {
    var pieces := SplitRanges(ranges, unit);
    SplitAllCovers(ranges, unit);
    SameFit(c.free, pieces, ranges);
    ghost var used := c.used;
    var maps := InsertPieces(c, pieces, shift, unit);
    if maps.None? {
      return None;
    }
    var compact := Compact(maps.value, shift, unit);
    WholeFits(c.length, old(c.free), used, c.free, pieces, ranges);
    return Some(compact);
  }

  /** Insert the pieces, last one first, and append a map for each. */
  method InsertPieces(c: RangeCollector, pieces: seq<Span>, shift: int, unit: int) returns (r: Option<seq<FieldMap>>)
    requires c.Valid() && unit > 0 && AllInUnit(pieces, unit)
    modifies c
    ensures c.Valid()
    ensures r.Some? ==> Took(old(c.free), c.free, pieces) && MapsOnto(r.value, shift, pieces, unit)
    ensures r.Some? ==> Strings(r.value, shift, pieces)
    ensures r.None? ==> !Fits(old(c.free), pieces)
  {
    var maps: seq<FieldMap>, field := [], shift;
    var i := |pieces|;
    assert pieces[i..] == [];
    while i > 0
      invariant 0 <= i <= |pieces| && c.Valid()
      invariant Took(old(c.free), c.free, pieces[i..]) && MapsOnto(maps, shift, pieces[i..], unit) &&
                field == shift + Bits(maps)
      invariant Strings(maps, shift, pieces[i..])
    {
      i := i - 1;
      ghost var mid := c.free;
      var ok := c.InsertRange(pieces[i], false);
      if !ok {
        assert pieces[i].bit < 0 ==> Cover(mid, pieces[i].bit) == 0;
        PieceMissing(old(c.free), mid, pieces, i);
        return None;
      }
      TookNext(old(c.free), mid, c.free, pieces[i + 1..], pieces[i]);
      MapsOntoNext(maps, shift, pieces[i + 1..], unit, pieces[i]);
      StringsNext(maps, shift, pieces[i + 1..], pieces[i]);
      assert pieces[i..] == [pieces[i]] + pieces[i + 1..];
      maps := maps + [FieldMap(field, pieces[i].bit, pieces[i].width)];
      field := field + pieces[i].width;
    }
    assert pieces[0..] == pieces;
    return Some(maps);
  }

  ghost predicate SameCover(a: seq<Span>, b: seq<Span>) {
    forall p: int :: SpanCover(a, p) == SpanCover(b, p)
  }

  lemma SplitAllCovers(ranges: seq<Span>, unit: int)
    requires unit > 0 && forall i | 0 <= i < |ranges| :: ranges[i].width > 0
    ensures SameCover(SplitAll(ranges, unit), ranges) && AllInUnit(SplitAll(ranges, unit), unit)
  {
    forall p: int ensures SpanCover(SplitAll(ranges, unit), p) == SpanCover(ranges, p) {
      SplitAllIsExact(ranges, unit, p);
    }
    SplitAllIsExact(ranges, unit, 0);
  }

  lemma SameFit(free: seq<Range>, pieces: seq<Span>, ranges: seq<Span>)
    requires SameCover(pieces, ranges)
    ensures Fits(free, pieces) <==> Fits(free, ranges)
  {
    if Fits(free, pieces) {
      forall b: int ensures SpanCover(ranges, b) <= Cover(free, b) { assert SpanCover(pieces, b) <= Cover(free, b); }
    }
    if Fits(free, ranges) {
      forall b: int ensures SpanCover(pieces, b) <= Cover(free, b) { assert SpanCover(ranges, b) <= Cover(free, b); }
    }
  }

  lemma WholeFits(length: int, before: seq<Range>, used: seq<Range>, after: seq<Range>, pieces: seq<Span>,
                  ranges: seq<Span>)
    requires Partition(length, before, used) && Took(before, after, pieces) && SameCover(pieces, ranges)
    ensures Took(before, after, ranges) && Fits(before, ranges) && forall b: int :: SpanCover(pieces, b) <= 1
  {
    forall b: int
      ensures Cover(after, b) + SpanCover(ranges, b) == Cover(before, b) && SpanCover(ranges, b) <= Cover(before, b) &&
              SpanCover(pieces, b) <= 1
    {
      assert Cover(after, b) + SpanCover(pieces, b) == Cover(before, b) && SpanCover(pieces, b) == SpanCover(ranges, b);
      assert Cover(before, b) + Cover(used, b) <= 1;
    }
  }

  // -------------------------------------------------------- automatic placement

  /** Maps that shift every logical bit by the same distance. */
  predicate Shifts(maps: seq<FieldMap>, distance: int) {
    forall i | 0 <= i < |maps| :: maps[i].mapped - maps[i].field == distance
  }

  lemma {:induction false} ShiftedPhysical(maps: seq<FieldMap>, from: int, distance: int, k: int)
    requires Chained(maps, from) && Shifts(maps, distance)
    ensures Physical(maps, k) == if from <= k < from + Bits(maps) then Some(k + distance) else None
  {
    PhysicalRange(maps, from, k);
    if maps != [] { ShiftedPhysical(maps[1..], from + maps[0].length, distance, k); }
  }

  /** Automatic placement: the lowest free span, mapped in order and without
      permutation, in pieces that stay within a unit. */
  method PlaceAuto(c: RangeCollector, width: nat, shift: int, unit: int) returns (r: Option<(Span, seq<FieldMap>)>)
    requires c.Valid() && unit > 0
    modifies c
    ensures c.Valid()
    ensures r.None? && width > 0 ==> forall p: int :: !AllFree(old(c.free), p, width)
    ensures r.Some? && width > 0 ==> IsLowest(old(c.free), r.value.0) && MapsInUnit(r.value.1, unit) &&
                                     Took(old(c.free), c.free, [r.value.0])
    ensures r.Some? ==> r.value.0.width == width && Chained(r.value.1, shift) && Bits(r.value.1) == width
    ensures r.Some? ==>
              forall k: int ::
                Physical(r.value.1, k) == if shift <= k < shift + width then Some(r.value.0.bit + (k - shift)) else None
  {
    var got := c.AllocRange(width, false);
    if got.None? {
      return None;
    }
    var maps := AutoMaps(got.value.bit, width, shift, unit);
    return Some((got.value, maps));
  }

  /** The maps of a span that starts at `first`, split at unit boundaries. */
  method AutoMaps(first: int, width: nat, shift: int, unit: int) returns (maps: seq<FieldMap>)
    requires unit > 0
    ensures Chained(maps, shift) && Bits(maps) == width && (width > 0 ==> MapsInUnit(maps, unit))
    ensures forall k: int :: Physical(maps, k) == if shift <= k < shift + width then Some(first + (k - shift)) else None
  {
    var bit, left, field := first, width, shift;
    maps := [];
    while left > 0 && bit / unit != (bit + left - 1) / unit
      invariant 0 <= left <= width && (width > 0 ==> left > 0) && field == shift + (width - left) &&
                bit - field == first - shift
      invariant Chained(maps, shift) && Bits(maps) == width - left && MapsInUnit(maps, unit) &&
                Shifts(maps, first - shift)
      decreases left
    {
      SplitPointFacts(bit, left, unit);
      var point := (bit / unit + 1) * unit;
      var piece := point - bit;
      MapsAppend(maps, shift, FieldMap(field, bit, piece), 0);
      maps := maps + [FieldMap(field, bit, piece)];
      bit, left, field := point, left - piece, field + piece;
    }
    MapsAppend(maps, shift, FieldMap(field, bit, left), 0);
    maps := maps + [FieldMap(field, bit, left)];
    forall k: int ensures Physical(maps, k) == if shift <= k < shift + width then Some(first + (k - shift)) else None {
      ShiftedPhysical(maps, shift, first - shift, k);
    }
  }
}
