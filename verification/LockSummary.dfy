/** Lock effects of an event, `tools/events/ir.py`: the annotations of its ordered
    handlers are folded into what the event acquires, releases, requires and
    excludes as a whole. The reference is the run of the annotations on a set of
    held locks. */
module LockSummary {
  import opened Outcomes

  datatype Action = Acquire | Release | Require | Exclude

  datatype Lock = Lock(name: string)

  datatype Kind = Kind(name: string)

  datatype Annotation = Annotation(action: Action, kind: Kind, lock: Lock)

  // ------------------------------------------------- reference: held lock sets

  predicate Allowed(held: set<Lock>, a: Annotation) {
    match a.action
    case Acquire => a.lock !in held
    case Release => a.lock in held
    case Require => a.lock in held
    case Exclude => a.lock !in held
  }

  function Effect(held: set<Lock>, a: Annotation): (r: set<Lock>) {
    match a.action
    case Acquire => held + {a.lock}
    case Release => held - {a.lock}
    case _ => held
  }

  /** The locks held after running all annotations. */
  function Final(held: set<Lock>, list: seq<Annotation>): (r: set<Lock>)
    decreases |list|
  {
    if list == [] then held else Final(Effect(held, list[0]), list[1..])
  }

  /** Every annotation finds the locks as it wants them. */
  predicate Legal(held: set<Lock>, list: seq<Annotation>)
    decreases |list|
  {
    list == [] || (Allowed(held, list[0]) && Legal(Effect(held, list[0]), list[1..]))
  }

  predicate ConsistentKinds(list: seq<Annotation>) {
    forall i, j | 0 <= i < j < |list| && list[i].lock == list[j].lock :: list[i].kind == list[j].kind
  }

  // ------------------------------------------------------------------- summary

  /** The key sets of the dictionaries, and the recorded kinds. */
  datatype Summary = Summary(acquires: set<Lock>, releases: set<Lock>, needs: set<Lock>, excludes: set<Lock>,
                             kinds: map<Lock, Kind>)

  const EMPTY := Summary({}, {}, {}, {}, map[])

  function CheckKind(kinds: map<Lock, Kind>, a: Annotation): (r: Option<map<Lock, Kind>>) {
    if a.lock in kinds then (if kinds[a.lock] == a.kind then Some(kinds) else None)
    else Some(kinds[a.lock := a.kind])
  }

  /** `LockAnnotation.apply`; None is a `DSLError`. */
  function ApplyTo(s: Summary, a: Annotation): (r: Option<Summary>) {
    var k := CheckKind(s.kinds, a);
    if k.None? then None
    else
      var t := s.(kinds := k.value);
      match a.action
      case Acquire =>
        if a.lock in s.acquires then None
        else if a.lock in s.releases then Some(t.(releases := s.releases - {a.lock}))
        else Some(t.(acquires := s.acquires + {a.lock}, excludes := s.excludes + {a.lock}))
      case Release =>
        if a.lock in s.releases then None
        else if a.lock in s.acquires then Some(t.(acquires := s.acquires - {a.lock}))
        else Some(t.(releases := s.releases + {a.lock}, needs := s.needs + {a.lock}))
      case Require => Some(if a.lock in s.acquires then t else t.(needs := s.needs + {a.lock}))
      case Exclude => Some(if a.lock in s.releases then t else t.(excludes := s.excludes + {a.lock}))
  }

  function Fold(s: Summary, list: seq<Annotation>): (r: Option<Summary>)
    decreases |list|
  {
    if list == [] then Some(s)
    else
      match ApplyTo(s, list[0])
      case None => None
      case Some(t) => Fold(t, list[1..])
  }

  function Summarise(list: seq<Annotation>): (r: Option<Summary>) {
    Fold(EMPTY, list)
  }

  /** A start that the summary accepts. */
  predicate Accepts(s: Summary, start: set<Lock>) {
    s.needs <= start && s.excludes !! start
  }

  predicate WellFormed(s: Summary) {
    s.acquires <= s.excludes && s.releases <= s.needs && s.acquires !! s.releases
  }

  function NetEffect(s: Summary, start: set<Lock>): (held: set<Lock>) {
    start - s.releases + s.acquires
  }

  /** The two uses of a lock that the code does not tell from correct ones: a
      requirement on a lock that was released, and an exclusion of one that was acquired. */
  predicate Overlooked(s: Summary, a: Annotation) {
    (a.action.Require? && a.lock in s.releases) || (a.action.Exclude? && a.lock in s.acquires)
  }

  /** No annotation of the list is overlooked where it stands. */
  predicate NothingOverlooked(s: Summary, list: seq<Annotation>)
    decreases |list|
  {
    list == [] ||
    (!Overlooked(s, list[0]) && (ApplyTo(s, list[0]).Some? ==> NothingOverlooked(ApplyTo(s, list[0]).value, list[1..])))
  }

  // --------------------------------------------------------------------- kinds

  predicate Agrees(kinds: map<Lock, Kind>, list: seq<Annotation>) {
    forall i | 0 <= i < |list| && list[i].lock in kinds :: kinds[list[i].lock] == list[i].kind
  }

  lemma KindsStep(s: Summary, list: seq<Annotation>)
    requires list != []
    ensures ConsistentKinds(list) && Agrees(s.kinds, list) <==>
            CheckKind(s.kinds, list[0]).Some? && ConsistentKinds(list[1..]) &&
            Agrees(CheckKind(s.kinds, list[0]).value, list[1..])
  {
    var rest := list[1..];
    assert forall i | 0 <= i < |rest| :: rest[i] == list[i + 1];
    assert forall i | 0 < i < |list| :: list[i] == rest[i - 1];
  }

  /** A fold that raises no error has met consistent kinds only. */
  lemma {:induction false} KindsAgree(s: Summary, list: seq<Annotation>)
    requires Fold(s, list).Some?
    ensures ConsistentKinds(list) && Agrees(s.kinds, list)
    decreases |list|
  {
    if list != [] {
      KindsAgree(ApplyTo(s, list[0]).value, list[1..]);
      assert ApplyTo(s, list[0]).value.kinds == CheckKind(s.kinds, list[0]).value;
      KindsStep(s, list);
    }
  }

  // -------------------------------------------------------------------- proofs

  /** A later summary accepts no more starts than an earlier one. */
  lemma AcceptsBefore(s: Summary, a: Annotation, start: set<Lock>)
    requires ApplyTo(s, a).Some? && Accepts(ApplyTo(s, a).value, start)
    ensures Accepts(s, start)
  {
  }

  lemma {:induction false} AcceptsAtFirst(s: Summary, list: seq<Annotation>, start: set<Lock>)
    requires Fold(s, list).Some? && Accepts(Fold(s, list).value, start)
    ensures Accepts(s, start)
    decreases |list|
  {
    if list != [] {
      AcceptsAtFirst(ApplyTo(s, list[0]).value, list[1..], start);
      AcceptsBefore(s, list[0], start);
    }
  }

  /** One annotation that the held locks allow: no error, and the summary keeps
      describing what is held. */
  lemma LegalStep(s: Summary, start: set<Lock>, a: Annotation)
    requires WellFormed(s) && Accepts(s, start) && CheckKind(s.kinds, a).Some?
    requires Allowed(NetEffect(s, start), a)
    ensures var r := ApplyTo(s, a);
            r.Some? && WellFormed(r.value) && Accepts(r.value, start) &&
            NetEffect(r.value, start) == Effect(NetEffect(s, start), a) &&
            r.value.kinds == CheckKind(s.kinds, a).value && !Overlooked(s, a)
  {
  }

  /** One annotation whose summary the start accepts, and that is not one of the
      overlooked uses, is allowed. */
  lemma AcceptedStep(s: Summary, start: set<Lock>, a: Annotation)
    requires WellFormed(s) && ApplyTo(s, a).Some? && Accepts(ApplyTo(s, a).value, start) && !Overlooked(s, a)
    ensures Allowed(NetEffect(s, start), a) && WellFormed(ApplyTo(s, a).value)
    ensures NetEffect(ApplyTo(s, a).value, start) == Effect(NetEffect(s, start), a)
  {
  }

  lemma {:induction false} LegalFold(s: Summary, start: set<Lock>, list: seq<Annotation>)
    requires WellFormed(s) && Accepts(s, start) && ConsistentKinds(list) && Agrees(s.kinds, list) &&
             Legal(NetEffect(s, start), list)
    ensures var r := Fold(s, list);
            r.Some? && WellFormed(r.value) && Accepts(r.value, start) &&
            NetEffect(r.value, start) == Final(NetEffect(s, start), list) &&
            NothingOverlooked(s, list)
    decreases |list|
  {
    if list != [] {
      KindsStep(s, list);
      LegalStep(s, start, list[0]);
      LegalFold(ApplyTo(s, list[0]).value, start, list[1..]);
    }
  }

  lemma {:induction false} AcceptedFold(s: Summary, start: set<Lock>, list: seq<Annotation>)
    requires WellFormed(s) && Fold(s, list).Some? && Accepts(Fold(s, list).value, start) && NothingOverlooked(s, list)
    ensures Legal(NetEffect(s, start), list)
    decreases |list|
  {
    if list != [] {
      var t := ApplyTo(s, list[0]).value;
      AcceptsAtFirst(t, list[1..], start);
      AcceptedStep(s, start, list[0]);
      AcceptedFold(t, start, list[1..]);
    }
  }

  /** Soundness: from every start from which the handlers run legally no error is
      raised, the start satisfies the summary, and the summary gives the locks held at the end. */
  lemma LegalRunsAreSummarised(list: seq<Annotation>, start: set<Lock>)
    requires ConsistentKinds(list) && Legal(start, list)
    ensures Summarise(list).Some? && WellFormed(Summarise(list).value)
    ensures Accepts(Summarise(list).value, start) && NetEffect(Summarise(list).value, start) == Final(start, list)
    ensures NothingOverlooked(EMPTY, list)
  {
    assert NetEffect(EMPTY, start) == start;
    LegalFold(EMPTY, start, list);
  }

  /** Exactness: kinds are consistent and the handlers run legally from a start if
      and only if the fold raises no error, accepts the start, and overlooked nothing. */
  lemma LegalIff(list: seq<Annotation>, start: set<Lock>)
    ensures ConsistentKinds(list) && Legal(start, list) <==>
            Summarise(list).Some? && Accepts(Summarise(list).value, start) && NothingOverlooked(EMPTY, list)
  {
    assert NetEffect(EMPTY, start) == start;
    if ConsistentKinds(list) && Legal(start, list) { LegalRunsAreSummarised(list, start); }
    if Summarise(list).Some? && Accepts(Summarise(list).value, start) && NothingOverlooked(EMPTY, list) {
      KindsAgree(EMPTY, list);
      AcceptedFold(EMPTY, start, list);
    }
  }

  /** A requirement after a net release is accepted although no start satisfies it. */
  lemma OverlookedExample(k: Kind, l: Lock)
    ensures var list := [Annotation(Release, k, l), Annotation(Require, k, l)];
            Summarise(list).Some? && Accepts(Summarise(list).value, {l}) && forall start :: !Legal(start, list)
  {
    var list := [Annotation(Release, k, l), Annotation(Require, k, l)];
    assert list[1..] == [list[1]] && list[1..][1..] == [];
    forall start ensures !Legal(start, list) {
      assert !Allowed(Effect(start, list[0]), list[1..][0]);
    }
    var s := ApplyTo(EMPTY, list[0]).value;
    assert Fold(EMPTY, list) == Fold(s, [list[1]]);
  }

  // ------------------------------------------------------------- the generator

  lemma {:induction false} FoldConcat(s: Summary, a: seq<Annotation>, b: seq<Annotation>)
    ensures Fold(s, a + b) == match Fold(s, a) { case None => None case Some(t) => Fold(t, b) }
    decreases |a|
  {
    if a == [] {
      assert a + b == b;
    } else {
      assert (a + b)[0] == a[0] && (a + b)[1..] == a[1..] + b;
      if ApplyTo(s, a[0]).Some? { FoldConcat(ApplyTo(s, a[0]).value, a[1..], b); }
    }
  }

  class Collector {
    var acquires: map<Lock, Annotation>
    var releases: map<Lock, Annotation>
    var needs: map<Lock, Annotation>
    var excludes: map<Lock, Annotation>
    var kinds: map<Lock, Kind>

    function View(): (s: Summary)
      reads this
    {
      Summary(acquires.Keys, releases.Keys, needs.Keys, excludes.Keys, kinds)
    }

    constructor ()
      ensures View() == EMPTY
    {
      acquires, releases, needs, excludes, kinds := map[], map[], map[], map[], map[];
    }

    method ApplyAnnotation(a: Annotation) returns (ok: bool)
      modifies this
      ensures ok <==> ApplyTo(old(View()), a).Some?
      ensures ok ==> View() == ApplyTo(old(View()), a).value
    {
      if a.lock in kinds {
        if kinds[a.lock] != a.kind {
          return false;
        }
      } else {
        kinds := kinds[a.lock := a.kind];
      }
      ok := true;
      match a.action {
        case Acquire =>
          if a.lock in acquires {
            ok := false;
          } else if a.lock in releases {
            releases := releases - {a.lock};
          } else {
            acquires := acquires[a.lock := a];
            excludes := excludes[a.lock := a];
          }
        case Release =>
          if a.lock in releases {
            ok := false;
          } else if a.lock in acquires {
            acquires := acquires - {a.lock};
          } else {
            releases := releases[a.lock := a];
            needs := needs[a.lock := a];
          }
        case Require =>
          if a.lock !in acquires {
            needs := needs[a.lock := a];
          }
        case Exclude =>
          if a.lock !in releases {
            excludes := excludes[a.lock := a];
          }
      }
    }

    /** Apply the annotations of one handler. */
    method ApplyAll(h: seq<Annotation>) returns (ok: bool)
      modifies this
      ensures ok ==> Fold(old(View()), h) == Some(View())
      ensures !ok ==> Fold(old(View()), h).None?
    {
      var j := 0;
      while j < |h|
        invariant 0 <= j <= |h| && Fold(old(View()), h) == Fold(View(), h[j..])
      {
        assert h[j..][1..] == h[j + 1..];
        ok := ApplyAnnotation(h[j]);
        if !ok {
          return;
        }
        j := j + 1;
      }
      ok := true;
    }
  }

  /** The annotations of all handlers, in handler order. */
  function Flatten(handlers: seq<seq<Annotation>>): (r: seq<Annotation>) {
    if handlers == [] then [] else handlers[0] + Flatten(handlers[1..])
  }

  /** The loops of `finalise` over the sorted handlers and their annotations. */
  method Collect(handlers: seq<seq<Annotation>>) returns (r: Option<Summary>)
    ensures r == Summarise(Flatten(handlers))
  {
    var c := new Collector();
    var i := 0;
    while i < |handlers|
      invariant 0 <= i <= |handlers| && Summarise(Flatten(handlers)) == Fold(c.View(), Flatten(handlers[i..]))
    {
      assert handlers[i..][1..] == handlers[i + 1..];
      FoldConcat(c.View(), handlers[i], Flatten(handlers[i + 1..]));
      var ok := c.ApplyAll(handlers[i]);
      if !ok {
        return None;
      }
      i := i + 1;
    }
    return Some(c.View());
  }

  /** What the generated event promises its callers, end to end: whoever calls it
      holding locks from which the handlers run legally gets no error, and holds
      afterwards what the summary says. */
  method Finalise(handlers: seq<seq<Annotation>>, ghost start: set<Lock>) returns (r: Option<Summary>)
    requires ConsistentKinds(Flatten(handlers)) && Legal(start, Flatten(handlers))
    ensures r.Some? && Accepts(r.value, start) && NetEffect(r.value, start) == Final(start, Flatten(handlers))
  {
    r := Collect(handlers);
    LegalRunsAreSummarised(Flatten(handlers), start);
  }

  // --------------------------------------------------------- summaries of events

  /** The annotations that `finalise` writes for the keys of one dictionary. */
  function Row(action: Action, locks: seq<Lock>, kinds: map<Lock, Kind>): (r: seq<Annotation>)
    requires forall i | 0 <= i < |locks| :: locks[i] in kinds
  {
    if locks == [] then [] else [Annotation(action, kinds[locks[0]], locks[0])] + Row(action, locks[1..], kinds)
  }

  function Elements(locks: seq<Lock>): (r: set<Lock>) {
    if locks == [] then {} else {locks[0]} + Elements(locks[1..])
  }

  lemma {:induction false} ElementsKnown(locks: seq<Lock>, kinds: map<Lock, Kind>)
    requires Elements(locks) <= kinds.Keys
    ensures forall i | 0 <= i < |locks| :: locks[i] in kinds
  {
    if locks != [] { ElementsKnown(locks[1..], kinds); }
  }

  /** What a row adds to a summary; requirements on acquired locks and exclusions of
      released ones leave no trace. */
  function Extended(s: Summary, action: Action, more: set<Lock>, kinds: map<Lock, Kind>): (r: Summary) {
    var t := s.(kinds := kinds);
    match action
    case Acquire => t.(acquires := s.acquires + more, excludes := s.excludes + more)
    case Release => t.(releases := s.releases + more, needs := s.needs + more)
    case Require => t.(needs := s.needs + (more - s.acquires))
    case Exclude => t.(excludes := s.excludes + (more - s.releases))
  }

  /** The locks a row may not mention for its annotations to be plain additions. */
  function Opposed(s: Summary, action: Action): (r: set<Lock>) {
    match action
    case Acquire => s.acquires + s.releases
    case Release => s.acquires + s.releases
    case _ => {}
  }

  /** With all kinds on record, a row of distinct locks extends the summary by them. */
  lemma {:induction false} RowExtends(s: Summary, action: Action, locks: seq<Lock>)
    requires Elements(locks) <= s.kinds.Keys && Opposed(s, action) !! Elements(locks)
    requires forall i, j | 0 <= i < j < |locks| :: locks[i] != locks[j]
    ensures forall i | 0 <= i < |locks| :: locks[i] in s.kinds
    ensures Fold(s, Row(action, locks, s.kinds)) == Some(Extended(s, action, Elements(locks), s.kinds))
    decreases |locks|
  {
    ElementsKnown(locks, s.kinds);
    if locks == [] {
      ExtendTwice(s, action, {}, {});
    } else {
      var rest := locks[1..];
      var t := Extended(s, action, {locks[0]}, s.kinds);
      NotAgain(locks);
      assert {locks[0]} - s.acquires == if locks[0] in s.acquires then {} else {locks[0]};
      assert {locks[0]} - s.releases == if locks[0] in s.releases then {} else {locks[0]};
      assert s.needs + {} == s.needs && s.excludes + {} == s.excludes;
      assert ApplyTo(s, Row(action, locks, s.kinds)[0]) == Some(t);
      RowExtends(t, action, rest);
      ExtendTwice(s, action, {locks[0]}, Elements(rest));
      assert Row(action, locks, s.kinds)[1..] == Row(action, rest, s.kinds);
    }
  }

  lemma {:induction false} NotAgain(locks: seq<Lock>)
    requires locks != [] && forall i, j | 0 <= i < j < |locks| :: locks[i] != locks[j]
    ensures locks[0] !in Elements(locks[1..])
    decreases |locks|
  {
    if |locks| > 1 {
      var shorter := [locks[0]] + locks[2..];
      assert shorter[1..] == locks[1..][1..];
      NotAgain(shorter);
    }
  }

  lemma ExtendTwice(s: Summary, action: Action, a: set<Lock>, b: set<Lock>)
    ensures Extended(Extended(s, action, a, s.kinds), action, b, s.kinds) == Extended(s, action, a + b, s.kinds)
    ensures Extended(s, action, {}, s.kinds) == s
  {
    assert s.acquires + a + b == s.acquires + (a + b) && s.releases + a + b == s.releases + (a + b);
    assert s.needs + a + b == s.needs + (a + b) && s.excludes + a + b == s.excludes + (a + b);
    assert s.needs + (a - s.acquires) + (b - s.acquires) == s.needs + (a + b - s.acquires);
    assert s.excludes + (a - s.releases) + (b - s.releases) == s.excludes + (a + b - s.releases);
    assert s.acquires + {} == s.acquires && s.releases + {} == s.releases;
    assert s.needs + {} == s.needs && s.excludes + {} == s.excludes;
  }

  /** Every lock whose kind is on record is required or excluded, and the other way round. */
  lemma {:induction false} FoldWellFormed(s: Summary, list: seq<Annotation>)
    requires WellFormed(s) && s.needs + s.excludes == s.kinds.Keys && Fold(s, list).Some?
    ensures var r := Fold(s, list).value; WellFormed(r) && r.needs + r.excludes == r.kinds.Keys
    decreases |list|
  {
    if list != [] {
      var t := ApplyTo(s, list[0]).value;
      assert t.kinds.Keys == s.kinds.Keys + {list[0].lock};
      FoldWellFormed(t, list[1..]);
    }
  }

  function Restrict(kinds: map<Lock, Kind>, locks: set<Lock>): (r: map<Lock, Kind>) {
    map l | l in kinds && l in locks :: kinds[l]
  }

  function LocksOf(list: seq<Annotation>): (r: set<Lock>) {
    if list == [] then {} else {list[0].lock} + LocksOf(list[1..])
  }

  /** Kinds that are on record early make no difference to the fold. */
  lemma {:induction false} RestrictedFold(s: Summary, locks: set<Lock>, list: seq<Annotation>)
    requires LocksOf(list) <= s.kinds.Keys && Fold(s, list).Some?
    ensures Fold(s, list).value.kinds == s.kinds
    ensures Fold(s.(kinds := Restrict(s.kinds, locks)), list) ==
            Some(Fold(s, list).value.(kinds := Restrict(s.kinds, locks + LocksOf(list))))
    decreases |list|
  {
    if list == [] {
      assert locks + {} == locks;
    } else {
      var a := list[0];
      var more := locks + {a.lock};
      assert CheckKind(s.kinds, a) == Some(s.kinds);
      assert CheckKind(Restrict(s.kinds, locks), a) == Some(Restrict(s.kinds, more)) by {
        if a.lock in locks {
          assert more == locks;
        } else {
          assert Restrict(s.kinds, locks)[a.lock := a.kind] == Restrict(s.kinds, more);
        }
      }
      RestrictedFold(ApplyTo(s, a).value, more, list[1..]);
      assert more + LocksOf(list[1..]) == locks + LocksOf(list);
    }
  }

  lemma {:induction false} RowLocks(action: Action, locks: seq<Lock>, kinds: map<Lock, Kind>)
    requires forall i | 0 <= i < |locks| :: locks[i] in kinds
    ensures LocksOf(Row(action, locks, kinds)) == Elements(locks)
  {
    if locks != [] {
      RowLocks(action, locks[1..], kinds);
      assert Row(action, locks, kinds)[1..] == Row(action, locks[1..], kinds);
    }
  }

  lemma {:induction false} LocksOfConcat(a: seq<Annotation>, b: seq<Annotation>)
    ensures LocksOf(a + b) == LocksOf(a) + LocksOf(b)
    decreases |a|
  {
    if a == [] {
      assert a + b == b;
    } else {
      assert (a + b)[1..] == a[1..] + b;
      LocksOfConcat(a[1..], b);
    }
  }

  /** What `finalise` writes for an event: one row for each dictionary. */
  function Rows(a: seq<Lock>, r: seq<Lock>, q: seq<Lock>, e: seq<Lock>, kinds: map<Lock, Kind>): (rows: seq<Annotation>)
    requires forall l | l in a + r + q + e :: l in kinds
  {
    Row(Acquire, a, kinds) + (Row(Release, r, kinds) + (Row(Require, q, kinds) + Row(Exclude, e, kinds)))
  }

  /** The keys of a dictionary, in some order. */
  predicate Enumerates(locks: seq<Lock>, keys: set<Lock>) {
    Elements(locks) == keys && forall i, j | 0 <= i < j < |locks| :: locks[i] != locks[j]
  }

  /** What is left of a summary when its rows are read back. */
  function Reread(s: Summary): (r: Summary) {
    s.(needs := s.needs - s.acquires, excludes := s.excludes - s.releases)
  }

  lemma RowsOnRecord(s: Summary, a: seq<Lock>, r: seq<Lock>, q: seq<Lock>, e: seq<Lock>)
    requires WellFormed(s) && s.needs + s.excludes == s.kinds.Keys
    requires Enumerates(a, s.acquires) && Enumerates(r, s.releases) && Enumerates(q, s.needs)
    requires Enumerates(e, s.excludes)
    requires forall l | l in a + r + q + e :: l in s.kinds
    ensures Fold(EMPTY.(kinds := s.kinds), Rows(a, r, q, e, s.kinds)) == Some(Reread(s))
  {
    var s0 := EMPTY.(kinds := s.kinds);
    var s1 := Summary(s.acquires, {}, {}, s.acquires, s.kinds);
    var s2 := Summary(s.acquires, s.releases, s.releases, s.acquires, s.kinds);
    var s3 := s2.(needs := s.needs - s.acquires);
    RowExtends(s0, Acquire, a);
    RowExtends(s1, Release, r);
    RowExtends(s2, Require, q);
    RowExtends(s3, Exclude, e);
    RowsMeet(s);
    var l4, l3, l2 := Row(Exclude, e, s.kinds), Row(Require, q, s.kinds), Row(Release, r, s.kinds);
    FoldConcat(s0, Row(Acquire, a, s.kinds), l2 + (l3 + l4));
    FoldConcat(s1, l2, l3 + l4);
    FoldConcat(s2, l3, l4);
  }

  lemma RowsLocks(s: Summary, a: seq<Lock>, r: seq<Lock>, q: seq<Lock>, e: seq<Lock>)
    requires forall l | l in a + r + q + e :: l in s.kinds
    ensures LocksOf(Rows(a, r, q, e, s.kinds)) == Elements(a) + Elements(r) + Elements(q) + Elements(e)
  {
    var l1, l2, l3, l4 := Row(Acquire, a, s.kinds), Row(Release, r, s.kinds), Row(Require, q, s.kinds),
        Row(Exclude, e, s.kinds);
    RowLocks(Acquire, a, s.kinds);
    RowLocks(Release, r, s.kinds);
    RowLocks(Require, q, s.kinds);
    RowLocks(Exclude, e, s.kinds);
    LocksOfConcat(l1, l2 + (l3 + l4));
    LocksOfConcat(l2, l3 + l4);
    LocksOfConcat(l3, l4);
  }

  /** The rows written for an event are always read back without an error, in whatever
      order each dictionary is listed. They summarise to the event's own summary if and
      only if no acquired lock is required and no released one excluded. */
  lemma SummaryIsFixedPoint(list: seq<Annotation>, s: Summary,
                            a: seq<Lock>, r: seq<Lock>, q: seq<Lock>, e: seq<Lock>)
    requires Summarise(list) == Some(s)
    requires Enumerates(a, s.acquires) && Enumerates(r, s.releases) && Enumerates(q, s.needs)
    requires Enumerates(e, s.excludes)
    ensures forall l | l in a + r + q + e :: l in s.kinds
    ensures Summarise(Rows(a, r, q, e, s.kinds)) == Some(Reread(s))
    ensures Summarise(Rows(a, r, q, e, s.kinds)) == Some(s) <==> s.needs !! s.acquires && s.excludes !! s.releases
  {
    FoldWellFormed(EMPTY, list);
    ElementsKnown(a, s.kinds);
    ElementsKnown(r, s.kinds);
    ElementsKnown(q, s.kinds);
    ElementsKnown(e, s.kinds);
    RowsReread(s, a, r, q, e);
    RereadIsSame(s);
  }

  lemma RowsReread(s: Summary, a: seq<Lock>, r: seq<Lock>, q: seq<Lock>, e: seq<Lock>)
    requires WellFormed(s) && s.needs + s.excludes == s.kinds.Keys
    requires Enumerates(a, s.acquires) && Enumerates(r, s.releases) && Enumerates(q, s.needs)
    requires Enumerates(e, s.excludes)
    requires forall l | l in a + r + q + e :: l in s.kinds
    ensures Summarise(Rows(a, r, q, e, s.kinds)) == Some(Reread(s))
  {
    var s0, rows := EMPTY.(kinds := s.kinds), Rows(a, r, q, e, s.kinds);
    RowsOnRecord(s, a, r, q, e);
    RowsLocks(s, a, r, q, e);
    assert LocksOf(rows) == s.kinds.Keys;
    RestrictedFold(s0, {}, rows);
    assert s0.(kinds := Restrict(s.kinds, {})) == EMPTY && Restrict(s.kinds, {} + LocksOf(rows)) == s.kinds;
  }

  lemma RereadIsSame(s: Summary)
    ensures Reread(s) == s <==> s.needs !! s.acquires && s.excludes !! s.releases
  {
    if s.needs !! s.acquires && s.excludes !! s.releases {
      assert s.needs - s.acquires == s.needs && s.excludes - s.releases == s.excludes;
    }
  }

  lemma RowsMeet(s: Summary)
    requires WellFormed(s)
    ensures var s1 := Summary(s.acquires, {}, {}, s.acquires, s.kinds);
            var s2 := Summary(s.acquires, s.releases, s.releases, s.acquires, s.kinds);
            var s3 := s2.(needs := s.needs - s.acquires);
            Extended(EMPTY.(kinds := s.kinds), Acquire, s.acquires, s.kinds) == s1 &&
            Extended(s1, Release, s.releases, s.kinds) == s2 && Extended(s2, Require, s.needs, s.kinds) == s3 &&
            Extended(s3, Exclude, s.excludes, s.kinds) == Reread(s)
  {
    assert {} + s.acquires == s.acquires && {} + s.releases == s.releases;
    assert s.releases + (s.needs - s.acquires) == s.needs - s.acquires;
    assert s.acquires + (s.excludes - s.releases) == s.excludes - s.releases;
  }
}
