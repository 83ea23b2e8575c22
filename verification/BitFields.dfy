/** Placement of bit fields, `tools/typed/ir.py`: a collector of free and used bit
    ranges, the split of ranges at unit boundaries, and the map from the logical
    bits of a member to physical bits with its compaction. */
module BitFields {
  import opened Outcomes

  /** All bits from `first` up to and including `last`. */
  datatype Range = Range(first: int, last: int)

  /** A range as declared: its lowest bit and its width. */
  datatype Span = Span(bit: int, width: int)

  /** How many ranges of the list hold bit `b`. */
  function Cover(list: seq<Range>, b: int): (n: nat) {
    if list == [] then 0 else (if list[0].first <= b <= list[0].last then 1 else 0) + Cover(list[1..], b)
  }

  function SpanCover(list: seq<Span>, b: int): (n: nat) {
    if list == [] then 0
    else (if list[0].bit <= b < list[0].bit + list[0].width then 1 else 0) + SpanCover(list[1..], b)
  }

  lemma {:induction false} CoverConcat(a: seq<Range>, c: seq<Range>, b: int)
    ensures Cover(a + c, b) == Cover(a, b) + Cover(c, b)
  {
    if a == [] {
      assert a + c == c;
    } else {
      assert (a + c)[0] == a[0] && (a + c)[1..] == a[1..] + c;
      CoverConcat(a[1..], c, b);
    }
  }

  lemma {:induction false} SpanCoverConcat(a: seq<Span>, c: seq<Span>, b: int)
    ensures SpanCover(a + c, b) == SpanCover(a, b) + SpanCover(c, b)
  {
    if a == [] {
      assert a + c == c;
    } else {
      assert (a + c)[0] == a[0] && (a + c)[1..] == a[1..] + c;
      SpanCoverConcat(a[1..], c, b);
    }
  }

  // ------------------------------------------------------------------ collector

  /** Free ranges are in order, none empty, with a used bit between any two. */
  predicate Separated(free: seq<Range>) {
    (forall i | 0 <= i < |free| :: free[i].first <= free[i].last) &&
    (forall i, j | 0 <= i < j < |free| :: free[i].last + 1 < free[j].first)
  }

  /** The position of the free range that holds all of [start, end]. */
  function Holder(free: seq<Range>, start: int, end: int): (i: nat)
    ensures i <= |free|
    ensures i < |free| ==> free[i].first <= start && end <= free[i].last
    ensures forall j | 0 <= j < i :: !(free[j].first <= start && end <= free[j].last)
  {
    if free == [] then 0
    else if free[0].first <= start && end <= free[0].last then 0
    else 1 + Holder(free[1..], start, end)
  }

  /** What is left of a free range when [start, end] is cut out of it. */
  function Remainder(r: Range, start: int, end: int): (list: seq<Range>) {
    (if r.first < start then [Range(r.first, start - 1)] else []) +
    (if r.last > end then [Range(end + 1, r.last)] else [])
  }

  function CutOut(free: seq<Range>, i: nat, start: int, end: int): (r: seq<Range>)
    requires i < |free|
  {
    free[..i] + Remainder(free[i], start, end) + free[i + 1..]
  }

  lemma RemainderCover(r: Range, start: int, end: int, b: int)
    requires r.first <= start <= end <= r.last
    ensures Cover(Remainder(r, start, end), b) + (if start <= b <= end then 1 else 0) == Cover([r], b)
  {
    var low := if r.first < start then [Range(r.first, start - 1)] else [];
    var high := if r.last > end then [Range(end + 1, r.last)] else [];
    CoverConcat(low, high, b);
    assert forall x: Range :: [x][1..] == [] && [x][0] == x;
  }

  /** Cutting a range out takes exactly its bits from the free list. */
  lemma CutOutCover(free: seq<Range>, i: nat, start: int, end: int, b: int)
    requires i < |free| && free[i].first <= start <= end <= free[i].last
    ensures Cover(CutOut(free, i, start, end), b) + (if start <= b <= end then 1 else 0) == Cover(free, b)
  {
    var front, back := free[..i], free[i + 1..];
    assert free == front + [free[i]] + back;
    CoverConcat(front + [free[i]], back, b);
    CoverConcat(front, [free[i]], b);
    CoverConcat(front + Remainder(free[i], start, end), back, b);
    CoverConcat(front, Remainder(free[i], start, end), b);
    RemainderCover(free[i], start, end, b);
  }

  lemma CutOutSeparated(free: seq<Range>, i: nat, start: int, end: int)
    requires Separated(free) && i < |free| && free[i].first <= start <= end <= free[i].last
    ensures Separated(CutOut(free, i, start, end))
  {
    var mid := Remainder(free[i], start, end);
    var r := CutOut(free, i, start, end);
    assert |mid| <= 2 && forall k | 0 <= k < |mid| :: free[i].first <= mid[k].first <= mid[k].last <= free[i].last;
    assert |mid| == 2 ==> mid[0].last + 1 < mid[1].first;
    forall k | 0 <= k < |r| ensures r[k].first <= r[k].last {
      PieceOf(free, i, start, end, k);
    }
    forall k, l | 0 <= k < l < |r| ensures r[k].last + 1 < r[l].first {
      PieceOf(free, i, start, end, k);
      PieceOf(free, i, start, end, l);
    }
  }

  /** Where an entry of the new free list comes from. */
  lemma PieceOf(free: seq<Range>, i: nat, start: int, end: int, k: nat)
    requires i < |free| && k < |CutOut(free, i, start, end)|
    ensures var r, mid := CutOut(free, i, start, end), Remainder(free[i], start, end);
            r[k] == if k < i then free[k] else if k < i + |mid| then mid[k - i] else free[k - |mid| + 1]
  {
  }

  /** All of [start, end] is free if and only if one free range holds it. */
  lemma {:induction false} HolderExists(free: seq<Range>, start: int, end: int)
    requires Separated(free) && start <= end
    ensures (forall b | start <= b <= end :: Cover(free, b) > 0) <==> Holder(free, start, end) < |free|
  {
    if Holder(free, start, end) < |free| {
      forall b | start <= b <= end ensures Cover(free, b) > 0 { CoveredBy(free, Holder(free, start, end), b); }
    } else if Cover(free, start) > 0 {
      var i := Coverer(free, start);
      NotCovered(free, free[i].last + 1);
      assert start <= free[i].last + 1 <= end;
    }
  }

  lemma {:induction false} NotCovered(free: seq<Range>, b: int)
    requires forall j | 0 <= j < |free| :: !(free[j].first <= b <= free[j].last)
    ensures Cover(free, b) == 0
  {
    if free != [] { NotCovered(free[1..], b); }
  }

  lemma {:induction false} CoveredBy(free: seq<Range>, i: nat, b: int)
    requires i < |free| && free[i].first <= b <= free[i].last
    ensures Cover(free, b) > 0
  {
    if i > 0 { CoveredBy(free[1..], i - 1, b); }
  }

  lemma {:induction false} Coverer(free: seq<Range>, b: int) returns (i: nat)
    requires Cover(free, b) > 0
    ensures i < |free| && free[i].first <= b <= free[i].last
  {
    if free[0].first <= b <= free[0].last {
      i := 0;
    } else {
      i := Coverer(free[1..], b);
      i := i + 1;
    }
  }

  /** Free and used ranges together hold every bit below `length` once, and no other. */
  ghost predicate Partition(length: int, free: seq<Range>, used: seq<Range>) {
    forall b: int :: Cover(free, b) + Cover(used, b) == if 0 <= b < length then 1 else 0
  }

  class RangeCollector {
    const length: int
    var free: seq<Range>
    var used: seq<Range>
    var reserved: seq<Range>

    ghost predicate Valid()
      reads this
    {
      Partition(length, free, used) && (Separated(free) || (length <= 0 && free == [Range(0, length - 1)]))
    }

    constructor (length: nat)
      ensures Valid() && used == [] && reserved == [] && this.length == length
    {
      this.length := length;
      free, used, reserved := [Range(0, length - 1)], [], [];
      assert forall x: Range :: [x][1..] == [] && [x][0] == x;
    }

    /** Take a span that is free; a member to be ignored only leaves a note. */
    method InsertRange(span: Span, ignore: bool) returns (ok: bool)
      requires Valid()
      modifies this
      ensures Valid()
      ensures ok <==> span.bit >= 0 && span.width > 0 && AllFree(old(free), span.bit, span.width)
      ensures !ok ==> free == old(free) && used == old(used) && reserved == old(reserved)
      ensures ok && ignore ==> free == old(free) && used == old(used) &&
                               reserved == old(reserved) + [Range(span.bit, span.bit + span.width - 1)]
      ensures ok && !ignore ==> used == old(used) + [Range(span.bit, span.bit + span.width - 1)] &&
                                reserved == old(reserved)
      ensures ok && !ignore ==> forall b: int :: Cover(free, b) + SpanCover([span], b) == Cover(old(free), b)
    {
      var start, end := span.bit, span.bit + span.width - 1;
      if start < 0 || end < 0 || start > end {
        return false;
      }
      var i := FindHolder(start, end);
      if i == |free| {
        NotFree(free, length, start, end);
        assert !AllFree(free, span.bit, span.width);
        return false;
      }
      ok := true;
      IsFree(free, start, end);
      assert AllFree(free, span.bit, span.width);
      if ignore {
        reserved := reserved + [Range(start, end)];
        return;
      }
      Placed(length, free, used, i, span);
      Cut(i, start, end);
      used := used + [Range(start, end)];
    }

    method FindHolder(start: int, end: int) returns (i: nat)
      ensures i == Holder(free, start, end)
    {
      i := 0;
      while i < |free| && !(free[i].first <= start && end <= free[i].last)
        invariant 0 <= i <= |free| && Holder(free, start, end) == i + Holder(free[i..], start, end)
      {
        i := i + 1;
      }
    }

    /** Replace a free range by what is left of it beside [start, end]. */
    method Cut(at: nat, start: int, end: int)
      requires at < |free|
      modifies this`free
      ensures free == CutOut(old(free), at, start, end)
    {
      var i := at;
      var r := free[i];
      free := free[..i] + free[i + 1..];
      if r.first < start {
        free := free[..i] + [Range(r.first, start - 1)] + free[i..];
        i := i + 1;
      }
      if r.last > end {
        free := free[..i] + [Range(end + 1, r.last)] + free[i..];
      }
    }

    /** Take the lowest free span of the given width. */
    method AllocRange(width: nat, ignore: bool) returns (r: Option<Span>)
      requires Valid()
      modifies this
      ensures Valid()
      ensures r.Some? ==> r.value.width == width
      ensures r.Some? && width > 0 ==> IsLowest(old(free), r.value)
      ensures r.None? && width > 0 ==> forall p: int :: !AllFree(old(free), p, width)
      ensures r.Some? && width > 0 && !ignore ==>
                used == old(used) + [Range(r.value.bit, r.value.bit + width - 1)] &&
                forall b: int :: Cover(free, b) + SpanCover([r.value], b) == Cover(old(free), b)
      ensures r.None? || width == 0 ==> free == old(free) && used == old(used) && reserved == old(reserved)
    {
      var i := FindFit(width);
      if i == |free| {
        if width > 0 {
          NoFit(length, free, used, width);
        }
        return None;
      }
      var span := Span(free[i].first, width);
      if width > 0 {
        LowestFit(free, i, width);
        CoveredBy(free, i, free[i].first);
      }
      var ok := InsertRange(span, ignore);
      return Some(span);
    }

    /** The first free range that is wide enough. */
    method FindFit(width: nat) returns (i: nat)
      ensures i <= |free| && (i < |free| ==> free[i].last - free[i].first + 1 >= width)
      ensures forall j | 0 <= j < i :: free[j].last - free[j].first + 1 < width
    {
      i := 0;
      while i < |free|
        invariant 0 <= i <= |free|
        invariant forall j | 0 <= j < i :: free[j].last - free[j].first + 1 < width
      {
        if free[i].last - free[i].first + 1 >= width {
          return;
        }
        i := i + 1;
      }
    }
  }

  /** Moving a span from a free range to the used ones keeps the partition. */
  lemma Placed(length: int, free: seq<Range>, used: seq<Range>, i: nat, span: Span)
    requires Partition(length, free, used) && (Separated(free) || (length <= 0 && free == [Range(0, length - 1)]))
    requires i < |free| && span.bit >= 0 && span.width > 0 && free[i].first <= span.bit &&
             span.bit + span.width - 1 <= free[i].last
    ensures var end := span.bit + span.width - 1;
            Separated(CutOut(free, i, span.bit, end)) &&
            Partition(length, CutOut(free, i, span.bit, end), used + [Range(span.bit, end)]) &&
            forall b: int :: Cover(CutOut(free, i, span.bit, end), b) + SpanCover([span], b) == Cover(free, b)
  {
    var end := span.bit + span.width - 1;
    CutOutSeparated(free, i, span.bit, end);
    forall b: int
      ensures Cover(CutOut(free, i, span.bit, end), b) + SpanCover([span], b) == Cover(free, b)
      ensures Cover(used + [Range(span.bit, end)], b) == Cover(used, b) + SpanCover([span], b)
    {
      CutOutCover(free, i, span.bit, end, b);
      CoverConcat(used, [Range(span.bit, end)], b);
      OneSpan(span, b);
    }
  }

  predicate AllFree(free: seq<Range>, p: int, width: int) {
    forall b | p <= b < p + width :: Cover(free, b) > 0
  }

  ghost predicate IsLowest(free: seq<Range>, span: Span) {
    AllFree(free, span.bit, span.width) && forall p: int | AllFree(free, p, span.width) :: span.bit <= p
  }

  lemma OneSpan(span: Span, b: int)
    ensures SpanCover([span], b) == (if span.bit <= b < span.bit + span.width then 1 else 0)
    ensures Cover([Range(span.bit, span.bit + span.width - 1)], b) == SpanCover([span], b)
  {
    assert [span][1..] == [];
    assert [Range(span.bit, span.bit + span.width - 1)][1..] == [];
  }

  lemma IsFree(free: seq<Range>, start: int, end: int)
    requires start <= end && Holder(free, start, end) < |free|
    ensures forall b | start <= b <= end :: Cover(free, b) > 0
  {
    forall b | start <= b <= end ensures Cover(free, b) > 0 { CoveredBy(free, Holder(free, start, end), b); }
  }

  lemma NotFree(free: seq<Range>, length: int, start: int, end: int)
    requires Separated(free) || (length <= 0 && free == [Range(0, length - 1)])
    requires 0 <= start <= end && Holder(free, start, end) == |free|
    ensures exists b | start <= b <= end :: Cover(free, b) == 0
  {
    if Separated(free) {
      HolderExists(free, start, end);
      var b :| start <= b <= end && !(Cover(free, b) > 0);
    } else {
      assert free[1..] == [];
      assert Cover(free, start) == 0;
    }
  }

  /** The first range that is wide enough starts at the lowest place that is free. */
  lemma LowestFit(free: seq<Range>, i: nat, width: nat)
    requires Separated(free) && i < |free| && free[i].last - free[i].first + 1 >= width > 0
    requires forall j | 0 <= j < i :: free[j].last - free[j].first + 1 < width
    ensures IsLowest(free, Span(free[i].first, width))
  {
    forall b | free[i].first <= b < free[i].first + width ensures Cover(free, b) > 0 { CoveredBy(free, i, b); }
    forall p: int | AllFree(free, p, width) ensures free[i].first <= p {
      var j := FitsIn(free, p, width);
    }
  }

  lemma FitsIn(free: seq<Range>, p: int, width: nat) returns (j: nat)
    requires Separated(free) && width > 0 && AllFree(free, p, width)
    ensures j < |free| && free[j].first <= p && p + width - 1 <= free[j].last
  {
    assert forall b | p <= b <= p + width - 1 :: Cover(free, b) > 0;
    HolderExists(free, p, p + width - 1);
    j := Holder(free, p, p + width - 1);
  }

  lemma NoFit(length: int, free: seq<Range>, used: seq<Range>, width: nat)
    requires Partition(length, free, used) && (Separated(free) || (length <= 0 && free == [Range(0, length - 1)]))
    requires width > 0 && forall j | 0 <= j < |free| :: free[j].last - free[j].first + 1 < width
    ensures forall p: int :: !AllFree(free, p, width)
  {
    forall p: int ensures !AllFree(free, p, width) {
      if Separated(free) {
        if AllFree(free, p, width) {
          var j := FitsIn(free, p, width);
          assert false;
        }
      } else {
        assert Cover(free, p) == 0;
      }
    }
  }
}
