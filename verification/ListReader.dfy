/** Lock-free readers of the list of `list.c`: a writer appends and deletes nodes
    under its lock while readers follow `next` pointers without one.

    Nodes are numbered in the order they are prepared and are not reused. A reader
    sees every store to a `next` pointer as a step of its own: a node is linked
    forward before it is published, and a deleted node keeps its `next`. */
module ListReader {

  type NodeId = nat

  datatype Ptr = Head | To(node: NodeId)

  /** `present` is what has been linked ever since the reader started. */
  datatype Reader = Reader(pos: Ptr, visited: seq<NodeId>, present: set<NodeId>)

  /** `later[n]` is what was linked behind `n` when it was deleted. */
  datatype State = State(
    items: seq<NodeId>,
    first: Ptr,
    next: seq<Ptr>,
    later: seq<set<NodeId>>,
    prepared: bool,
    readers: seq<Reader>)

  datatype Step =
    | Prepare
    | Publish
    | Delete(index: nat)
    | Start(reader: nat)
    | Advance(reader: nat)

  /** Whether the newest node is still to be published. */
  predicate Enabled(s: State, step: Step) {
    match step
    case Prepare => !s.prepared
    case Publish => s.prepared && s.next != []
    case Delete(k) => !s.prepared && k < |s.items|
    case Start(r) => r < |s.readers|
    case Advance(r) => r < |s.readers| && s.readers[r].pos.To?
  }

  /** Store `p` to the `next` pointer of the node before position `k`. */
  function StoreBefore(s: State, k: nat, p: Ptr): (r: State)
    requires k <= |s.items|
  {
    if k == 0 then s.(first := p)
    else if s.items[k - 1] < |s.next| then s.(next := s.next[s.items[k - 1] := p])
    else s
  }

  function Forget(readers: seq<Reader>, n: NodeId): (r: seq<Reader>) {
    seq(|readers|, i requires 0 <= i < |readers| => readers[i].(present := readers[i].present - {n}))
  }

  function Elements(items: seq<NodeId>): (r: set<NodeId>) {
    set n | n in items
  }

  function Apply(s: State, step: Step): (r: State)
    requires Enabled(s, step)
  {
    match step
    case Prepare => s.(next := s.next + [Head], later := s.later + [{}], prepared := true)
    case Publish =>
      var n := |s.next| - 1;
      StoreBefore(s, |s.items|, To(n)).(items := s.items + [n], prepared := false)
    case Delete(k) =>
      var n := s.items[k];
      if n >= |s.next| || n >= |s.later| then s
      else StoreBefore(s, k, s.next[n]).(
             items := s.items[..k] + s.items[k + 1..],
             later := s.later[n := Elements(s.items[k + 1..])],
             readers := Forget(s.readers, n))
    case Start(r) => s.(readers := s.readers[r := Reader(s.first, [], Elements(s.items))])
    case Advance(r) =>
      var x := s.readers[r];
      var n := x.pos.node;
      if n >= |s.next| then s
      else s.(readers := s.readers[r := x.(pos := s.next[n], visited := x.visited + [n])])
  }

  predicate Init(s: State) {
    s.items == [] && s.first == Head && s.next == [] && s.later == [] && !s.prepared &&
    forall r | 0 <= r < |s.readers| :: s.readers[r] == Reader(Head, [], {})
  }

  ghost predicate Follows(states: seq<State>, steps: seq<Step>, i: nat)
    requires i < |steps| < |states|
  {
    Enabled(states[i], steps[i]) && states[i + 1] == Apply(states[i], steps[i])
  }

  ghost predicate IsRun(states: seq<State>, steps: seq<Step>) {
    |states| == |steps| + 1 && Init(states[0]) && forall i | 0 <= i < |steps| :: Follows(states, steps, i)
  }

  // ---------------------------------------------------------------- invariant

  predicate Increasing(list: seq<NodeId>) {
    forall i, j | 0 <= i < j < |list| :: list[i] < list[j]
  }

  /** The pointer that leads to position `k` of the list. */
  function Incoming(s: State, k: nat): (p: Ptr)
    requires k <= |s.items|
  {
    if k == 0 then s.first else if s.items[k - 1] < |s.next| then s.next[s.items[k - 1]] else Head
  }

  function Outgoing(s: State, k: nat): (p: Ptr)
    requires k <= |s.items|
  {
    if k == |s.items| then Head else To(s.items[k])
  }

  /** `x` is linked, and was already linked behind `n` if `n` has been deleted since. */
  predicate Sees(s: State, n: NodeId, x: NodeId) {
    n < x && x in s.items && (n in s.items || (n < |s.later| && x in s.later[n]))
  }

  /** Standing at `p`, a reader has not passed `x`. */
  predicate Ahead(s: State, p: Ptr, x: NodeId) {
    p.To? && (p.node == x || Sees(s, p.node, x))
  }

  predicate Published(s: State, p: Ptr) {
    p.To? ==> p.node < |s.next| && !(s.prepared && p.node == |s.next| - 1)
  }

  predicate NodeOk(s: State, n: NodeId)
    requires n < |s.next|
  {
    Published(s, s.next[n]) && (s.next[n].To? ==> n < s.next[n].node) &&
    n < |s.later| && (forall x | x in s.later[n] :: Published(s, To(x))) &&
    forall x | x in s.items && Sees(s, n, x) :: Ahead(s, s.next[n], x)
  }

  predicate ReaderOk(s: State, r: Reader) {
    Published(s, r.pos) && Increasing(r.visited) &&
    (forall i | 0 <= i < |r.visited| :: Published(s, To(r.visited[i])) && (r.pos.To? ==> r.visited[i] < r.pos.node)) &&
    (forall x | x in r.present :: x in s.items && (x in r.visited || Ahead(s, r.pos, x)))
  }

  predicate ListOk(s: State) {
    |s.later| == |s.next| && (s.prepared ==> s.next != [] && s.next[|s.next| - 1] == Head) && Increasing(s.items) &&
    (forall i | 0 <= i < |s.items| :: Published(s, To(s.items[i]))) &&
    (forall k | 0 <= k <= |s.items| :: Incoming(s, k) == Outgoing(s, k))
  }

  predicate Inv(s: State) {
    ListOk(s) && (forall n | 0 <= n < |s.next| :: NodeOk(s, n)) &&
    (forall r | 0 <= r < |s.readers| :: ReaderOk(s, s.readers[r]))
  }

  lemma ItemsAhead(s: State, k: nat, x: NodeId)
    requires ListOk(s) && k <= |s.items| && x in s.items[k..]
    ensures Ahead(s, Outgoing(s, k), x)
  {
    var j :| 0 <= j < |s.items[k..]| && s.items[k..][j] == x;
    assert s.items[k + j] == x && s.items[k] in s.items;
  }

  lemma PrepareStep(s: State)
    requires Inv(s) && Enabled(s, Prepare)
    ensures Inv(Apply(s, Prepare))
  {
    var t := Apply(s, Prepare);
    var m := |s.next|;
    forall k | 0 <= k <= |t.items| ensures Incoming(t, k) == Outgoing(t, k) {
      assert Incoming(s, k) == Outgoing(s, k);
      if k > 0 { assert Published(s, To(s.items[k - 1])); }
    }
    forall i | 0 <= i < |t.items| ensures Published(t, To(t.items[i])) { assert Published(s, To(s.items[i])); }
    forall n | 0 <= n < |t.next| ensures NodeOk(t, n) {
      if n < m { assert NodeOk(s, n); } else { assert m !in s.items; }
    }
    forall r | 0 <= r < |t.readers| ensures ReaderOk(t, t.readers[r]) { ReaderStays(s, t, t.readers[r]); }
  }

  /** A reader keeps its place when nothing it relies on is unlinked. */
  lemma ReaderStays(s: State, t: State, r: Reader)
    requires ReaderOk(s, r)
    requires forall p: Ptr :: Published(s, p) ==> Published(t, p)
    requires forall x | x in s.items :: x in t.items
    requires forall n, x | 0 <= n < |s.later| && x in s.later[n] :: n < |t.later| && x in t.later[n]
    ensures ReaderOk(t, r)
  {
    forall x | x in r.present && x !in r.visited ensures Ahead(t, r.pos, x) {
      assert Ahead(s, r.pos, x);
    }
    forall i | 0 <= i < |r.visited| ensures Published(t, To(r.visited[i])) { assert Published(s, To(r.visited[i])); }
  }

  lemma PublishStep(s: State)
    requires Inv(s) && Enabled(s, Publish)
    ensures Inv(Apply(s, Publish))
  {
    var t := Apply(s, Publish);
    var m := |s.next| - 1;
    forall i | 0 <= i < |s.items| ensures s.items[i] < m { assert Published(s, To(s.items[i])); }
    assert ListOk(t) by {
      forall i | 0 <= i < |t.items| ensures Published(t, To(t.items[i])) {}
      forall k | 0 <= k <= |t.items| ensures Incoming(t, k) == Outgoing(t, k) {
        if k < |s.items| { assert Incoming(s, k) == Outgoing(s, k); }
      }
    }
    forall n | 0 <= n < |t.next| ensures NodeOk(t, n) { PublishNode(s, n); }
    forall r | 0 <= r < |t.readers| ensures ReaderOk(t, t.readers[r]) { ReaderStays(s, t, t.readers[r]); }
  }

  lemma PublishNode(s: State, n: NodeId)
    requires Inv(s) && Enabled(s, Publish) && n < |s.next|
    ensures var t := Apply(s, Publish); |t.next| == |s.next| && NodeOk(t, n)
  {
    var t := Apply(s, Publish);
    var m := |s.next| - 1;
    assert NodeOk(s, n);
    assert m !in s.later[n] by { assert !Published(s, To(m)); }
    forall i | 0 <= i < |s.items| ensures s.items[i] < m { assert Published(s, To(s.items[i])); }
    forall x | x in t.items && Sees(t, n, x) ensures Ahead(t, t.next[n], x) {
      if x != m {
        assert Sees(s, n, x);
        assert Ahead(s, s.next[n], x);
      } else if n in s.items {
        var k :| 0 <= k < |s.items| && s.items[k] == n;
        assert Incoming(s, k + 1) == Outgoing(s, k + 1);
      }
    }
  }

  // ----------------------------------------------------------------- deletion

  lemma DeleteList(s: State, k: nat)
    requires Inv(s) && Enabled(s, Delete(k))
    ensures ListOk(Apply(s, Delete(k)))
  {
    var t := Apply(s, Delete(k));
    assert Published(s, To(s.items[k]));
    forall i | 0 <= i < |t.items| ensures Published(t, To(t.items[i])) {
      assert Published(s, To(s.items[if i < k then i else i + 1]));
    }
    forall j | 0 <= j <= |t.items| ensures Incoming(t, j) == Outgoing(t, j) { DeleteIncoming(s, k, j); }
  }

  /** Every pointer of the list leads where it did, but the one that led to the deleted node. */
  lemma DeleteIncoming(s: State, k: nat, j: nat)
    requires Inv(s) && Enabled(s, Delete(k)) && j < |s.items|
    ensures var t := Apply(s, Delete(k)); |t.items| == |s.items| - 1 && Incoming(t, j) == Outgoing(t, j)
  {
    assert Published(s, To(s.items[k]));
    if j < k {
      assert Incoming(s, j) == Outgoing(s, j);
      if j > 0 { assert Published(s, To(s.items[j - 1])); }
    } else {
      assert Incoming(s, j + 1) == Outgoing(s, j + 1);
      assert Published(s, To(s.items[j]));
      if k > 0 { assert Published(s, To(s.items[k - 1])); }
    }
  }

  lemma SplitMember(items: seq<NodeId>, k: nat, x: NodeId)
    requires k < |items| && Increasing(items)
    ensures x in items[..k] + items[k + 1..] <==> x in items && x != items[k]
    ensures x in items[k + 1..] <==> x in items && x > items[k]
  {
    assert items == items[..k] + [items[k]] + items[k + 1..];
    if x in items {
      var j :| 0 <= j < |items| && items[j] == x;
      assert j > k ==> items[k + 1..][j - k - 1] == x;
    }
    var front, back := items[..k], items[k + 1..];
    assert forall j | 0 <= j < |front| :: front[j] < items[k];
    assert forall j | 0 <= j < |back| :: items[k] < back[j];
  }

  lemma DeleteFacts(s: State, k: nat, x: NodeId)
    requires Inv(s) && Enabled(s, Delete(k))
    ensures var n, t := s.items[k], Apply(s, Delete(k));
            n < |s.next| == |t.next| && |t.later| == |s.later| && (x in t.items <==> x in s.items && x != n) &&
            (x in t.later[n] <==> x in s.items && x > n) &&
            (forall m | 0 <= m < |s.later| && m != n :: t.later[m] == s.later[m])
  {
    assert Published(s, To(s.items[k]));
    SplitMember(s.items, k, x);
  }

  /** What was seen before a deletion, other than the deleted node, still is. */
  lemma DeleteSees(s: State, k: nat, m: NodeId, x: NodeId)
    requires Inv(s) && Enabled(s, Delete(k)) && m < |s.next| && x != s.items[k]
    ensures Sees(Apply(s, Delete(k)), m, x) <==> Sees(s, m, x)
  {
    DeleteFacts(s, k, x);
    DeleteFacts(s, k, m);
  }

  lemma DeleteAhead(s: State, k: nat, p: Ptr, x: NodeId)
    requires Inv(s) && Enabled(s, Delete(k)) && Published(s, p) && x != s.items[k] && Ahead(s, p, x)
    ensures Ahead(Apply(s, Delete(k)), p, x)
  {
    DeleteSees(s, k, p.node, x);
  }

  lemma DeleteNode(s: State, k: nat, m: NodeId)
    requires Inv(s) && Enabled(s, Delete(k)) && m < |s.next|
    ensures var t := Apply(s, Delete(k)); |t.next| == |s.next| && NodeOk(t, m)
  {
    var n, t := s.items[k], Apply(s, Delete(k));
    DeleteFacts(s, k, n);
    assert NodeOk(s, m) && NodeOk(s, n);
    if m == n {
      forall x | x in t.later[n] ensures Published(t, To(x)) {
        DeleteFacts(s, k, x);
        var i :| 0 <= i < |s.items| && s.items[i] == x;
        assert Published(s, To(s.items[i]));
      }
    }
    forall x | x in t.items && Sees(t, m, x) ensures Ahead(t, t.next[m], x) {
      DeleteFacts(s, k, x);
      DeleteSees(s, k, m, x);
      assert Ahead(s, s.next[m], x);
      if t.next[m] == s.next[m] {
        DeleteAhead(s, k, s.next[m], x);
      } else {
        SkipsDeleted(s, k, x);
        DeleteAhead(s, k, s.next[n], x);
      }
    }
  }

  /** The pointer that is moved past the deleted node still leads to what is behind it. */
  lemma SkipsDeleted(s: State, k: nat, x: NodeId)
    requires Inv(s) && Enabled(s, Delete(k)) && k > 0
    requires s.items[k - 1] < |s.next| && Ahead(s, s.next[s.items[k - 1]], x) && x != s.items[k]
    ensures s.items[k] < |s.next| && Ahead(s, s.next[s.items[k]], x)
  {
    assert Incoming(s, k) == Outgoing(s, k);
    assert Published(s, To(s.items[k]));
    assert NodeOk(s, s.items[k]);
  }

  lemma DeleteStep(s: State, k: nat)
    requires Inv(s) && Enabled(s, Delete(k))
    ensures Inv(Apply(s, Delete(k)))
  {
    var t := Apply(s, Delete(k));
    DeleteList(s, k);
    DeleteFacts(s, k, 0);
    forall m | 0 <= m < |t.next| ensures NodeOk(t, m) { DeleteNode(s, k, m); }
    forall r | 0 <= r < |t.readers| ensures ReaderOk(t, t.readers[r]) { DeleteReader(s, k, r); }
  }

  lemma DeleteReader(s: State, k: nat, r: nat)
    requires Inv(s) && Enabled(s, Delete(k)) && r < |s.readers|
    ensures var t := Apply(s, Delete(k)); |t.readers| == |s.readers| && ReaderOk(t, t.readers[r])
  {
    var t := Apply(s, Delete(k));
    var x := s.readers[r];
    DeleteFacts(s, k, 0);
    assert ReaderOk(s, x);
    assert t.readers[r] == x.(present := x.present - {s.items[k]});
    forall i | 0 <= i < |x.visited| ensures Published(t, To(x.visited[i])) { assert Published(s, To(x.visited[i])); }
    forall y | y in t.readers[r].present ensures y in t.items && (y in x.visited || Ahead(t, x.pos, y)) {
      DeleteFacts(s, k, y);
      if y !in x.visited { DeleteAhead(s, k, x.pos, y); }
    }
  }

  // ------------------------------------------------------------------- reading

  lemma ReadStep(s: State, step: Step)
    requires Inv(s) && Enabled(s, step) && (step.Start? || step.Advance?)
    ensures Inv(Apply(s, step))
  {
    var t := Apply(s, step);
    assert Incoming(s, 0) == Outgoing(s, 0);
    forall k | 0 <= k <= |t.items| ensures Incoming(t, k) == Outgoing(t, k) { assert Incoming(s, k) == Outgoing(s, k); }
    forall i | 0 <= i < |t.items| ensures Published(t, To(t.items[i])) { assert Published(s, To(s.items[i])); }
    forall n | 0 <= n < |t.next| ensures NodeOk(t, n) {
      assert NodeOk(s, n);
      forall x | x in t.items && Sees(t, n, x) ensures Ahead(t, t.next[n], x) { assert Sees(s, n, x) &&
                                                                               Ahead(s, s.next[n], x); }
    }
    forall r | 0 <= r < |t.readers| ensures ReaderOk(t, t.readers[r]) {
      if r != step.reader {
        ReaderStays(s, t, s.readers[r]);
      } else if step.Start? {
        StartReader(s, r);
      } else {
        AdvanceReader(s, r);
      }
    }
  }

  lemma StartReader(s: State, r: nat)
    requires Inv(s) && Enabled(s, Start(r))
    ensures ReaderOk(Apply(s, Start(r)), Apply(s, Start(r)).readers[r])
  {
    assert Incoming(s, 0) == Outgoing(s, 0);
    if s.items != [] { assert Published(s, To(s.items[0])); }
    assert s.items[0..] == s.items;
    var t := Apply(s, Start(r));
    forall x | x in s.items ensures Ahead(t, t.readers[r].pos, x) {
      ItemsAhead(s, 0, x);
    }
  }

  lemma AdvanceReader(s: State, r: nat)
    requires Inv(s) && Enabled(s, Advance(r))
    ensures ReaderOk(Apply(s, Advance(r)), Apply(s, Advance(r)).readers[r])
  {
    var t := Apply(s, Advance(r));
    var x := s.readers[r];
    assert ReaderOk(s, x);
    var n := x.pos.node;
    assert NodeOk(s, n);
    var y := t.readers[r];
    assert y == x.(pos := s.next[n], visited := x.visited + [n]);
    forall i | 0 <= i < |y.visited|
      ensures Published(t, To(y.visited[i])) && (y.pos.To? ==> y.visited[i] < y.pos.node)
    {
      if i < |x.visited| { assert Published(s, To(x.visited[i])); }
    }
    forall z | z in y.present ensures z in t.items && (z in y.visited || Ahead(t, y.pos, z)) {
      if z in x.visited {
        assert z in y.visited;
      } else if z == n {
        assert y.visited[|x.visited|] == n;
      } else {
        assert Ahead(s, x.pos, z);
        assert Ahead(s, s.next[n], z);
      }
    }
  }

  lemma StepKeepsInv(s: State, step: Step)
    requires Inv(s) && Enabled(s, step)
    ensures Inv(Apply(s, step))
  {
    match step {
      case Prepare => PrepareStep(s);
      case Publish => PublishStep(s);
      case Delete(k) => DeleteStep(s, k);
      case _ => ReadStep(s, step);
    }
  }

  lemma {:induction false} InvHolds(states: seq<State>, steps: seq<Step>, k: nat)
    requires IsRun(states, steps) && k <= |steps|
    ensures Inv(states[k])
  {
    if k > 0 {
      InvHolds(states, steps, k - 1);
      assert Follows(states, steps, k - 1);
      StepKeepsInv(states[k - 1], steps[k - 1]);
    }
  }

  // ---------------------------------------------------------------- whole runs

  /** The nodes met by following `next` from `p`; it always ends, at the head. */
  function Trail(s: State, p: Ptr): (r: seq<NodeId>)
    requires Inv(s) && Published(s, p)
    decreases if p.To? then |s.next| - p.node else 0
  {
    if p.Head? then []
    else
      assert NodeOk(s, p.node);
      assert s.next[p.node].Head? || s.next[p.node].node < |s.next|;
      [p.node] + Trail(s, s.next[p.node])
  }

  /** From wherever a reader stands, deleted node or not, it comes past every
      linked node that it has not passed, in increasing order. */
  lemma {:induction false} TrailMeets(s: State, p: Ptr, x: NodeId)
    requires Inv(s) && Published(s, p) && Ahead(s, p, x)
    ensures x in Trail(s, p)
    decreases |s.next| - p.node
  {
    if p.node != x {
      assert NodeOk(s, p.node);
      assert Ahead(s, s.next[p.node], x);
      TrailMeets(s, s.next[p.node], x);
    }
  }

  lemma {:induction false} TrailIncreases(s: State, p: Ptr)
    requires Inv(s) && Published(s, p)
    ensures Increasing(Trail(s, p)) && (p.To? ==> Trail(s, p)[0] == p.node)
    decreases if p.To? then |s.next| - p.node else 0
  {
    if p.To? {
      assert NodeOk(s, p.node);
      TrailIncreases(s, s.next[p.node]);
      var rest := Trail(s, s.next[p.node]);
      assert Trail(s, p) == [p.node] + rest;
      if rest != [] { assert s.next[p.node].To?; }
    }
  }

  /** In any interleaving, a reader that is left alone goes on to the head, and its
      whole traversal then holds every node that was linked throughout, no node twice. */
  lemma ReaderReachesHead(states: seq<State>, steps: seq<Step>, k: nat, r: nat)
    requires IsRun(states, steps) && k <= |steps| && r < |states[k].readers|
    ensures var s := states[k];
            Inv(s) && Published(s, s.readers[r].pos) &&
            Increasing(s.readers[r].visited + Trail(s, s.readers[r].pos)) &&
            forall x | x in s.readers[r].present :: x in s.readers[r].visited + Trail(s, s.readers[r].pos)
  {
    InvHolds(states, steps, k);
    var s := states[k];
    var y := s.readers[r];
    assert ReaderOk(s, y);
    TrailIncreases(s, y.pos);
    forall x | x in y.present ensures x in y.visited + Trail(s, y.pos) {
      if x !in y.visited { TrailMeets(s, y.pos, x); }
    }
  }

  /** A reader that has come to the head has visited exactly once every node that
      stayed linked for its whole traversal, and nothing twice. */
  lemma VisitsEveryPresentNodeOnce(states: seq<State>, steps: seq<Step>, k: nat, r: nat)
    requires IsRun(states, steps) && k <= |steps| && r < |states[k].readers| && states[k].readers[r].pos.Head?
    ensures Increasing(states[k].readers[r].visited)
    ensures forall x | x in states[k].readers[r].present :: x in states[k].readers[r].visited
  {
    InvHolds(states, steps, k);
    assert ReaderOk(states[k], states[k].readers[r]);
  }

  /** `present` means what it says: linked when the reader started and in every state since. */
  lemma {:induction false} PresentIsLinkedThroughout(states: seq<State>, steps: seq<Step>, i: nat, k: nat, r: nat,
                                                     x: NodeId)
    requires IsRun(states, steps) && i < k <= |steps| && r < |states[k].readers| && steps[i] == Start(r)
    requires forall j | i < j < k :: steps[j] != Start(r)
    ensures x in states[k].readers[r].present <==> forall j | i <= j <= k :: x in states[j].items
    decreases k - i
  {
    assert Follows(states, steps, k - 1);
    InvHolds(states, steps, k - 1);
    if k == i + 1 {
      assert states[k].readers[r].present == Elements(states[i].items);
    } else {
      assert |states[k - 1].readers| == |states[k].readers|;
      PresentIsLinkedThroughout(states, steps, i, k - 1, r, x);
      PresentStep(states[k - 1], steps[k - 1], r, x);
    }
  }

  lemma PresentStep(s: State, step: Step, r: nat, x: NodeId)
    requires Inv(s) && Enabled(s, step) && r < |s.readers| && step != Start(r)
    ensures var t := Apply(s, step);
            |t.readers| == |s.readers| &&
            (x in t.readers[r].present <==> x in s.readers[r].present && x in t.items)
  {
    assert ReaderOk(s, s.readers[r]);
    if step.Delete? {
      DeleteFacts(s, step.index, x);
    }
  }
}
