/** The circular doubly linked list of `list.c`: nodes embedded in their
    containers, a head node in the list, and a null `prev` for a node that is in no
    list. The pointers are proved to spell out the sequence `items`. */
module IntrusiveList {
  import opened Lists

  class Node {
    var next: Node?
    var prev: Node?

    /** A zeroed node is in no list. */
    constructor ()
      ensures next == null && prev == null
    {
      next, prev := null, null;
    }
  }

  /** Position of the first element that `node` goes before. */
  function Place(items: seq<Node>, node: Node, less: (Node, Node) -> bool): (k: nat)
    ensures k <= |items|
    ensures forall j | 0 <= j < k :: !less(node, items[j])
    ensures k < |items| ==> less(node, items[k])
  {
    if items == [] || less(node, items[0]) then 0 else 1 + Place(items[1..], node, less)
  }

  function Inserted(items: seq<Node>, k: nat, node: Node): (r: seq<Node>)
    requires k <= |items|
  {
    items[..k] + [node] + items[k..]
  }

  function Removed(items: seq<Node>, k: nat): (r: seq<Node>)
    requires k < |items|
  {
    items[..k] + items[k + 1..]
  }

  /** Deleting what was inserted restores the sequence, and the other way round. */
  lemma InsertRemove(items: seq<Node>, k: nat, node: Node)
    requires k <= |items|
    ensures Removed(Inserted(items, k, node), k) == items
    ensures k < |items| ==> Inserted(Removed(items, k), k, items[k]) == items
  {
  }

  ghost predicate Ordered(items: seq<Node>, key: Node -> int) {
    forall i, j | 0 <= i < j < |items| :: key(items[i]) <= key(items[j])
  }

  /** Ordered insertion keeps the order, and puts a node behind all of its equals. */
  lemma PlaceKeepsOrder(items: seq<Node>, node: Node, key: Node -> int)
    requires Ordered(items, key)
    ensures var k := Place(items, node, (a: Node, b: Node) => key(a) < key(b));
            Ordered(Inserted(items, k, node), key) &&
            (forall i | k <= i < |items| :: key(node) < key(items[i])) &&
            (forall i | 0 <= i < k :: key(items[i]) <= key(node))
  {
    var k := Place(items, node, (a: Node, b: Node) => key(a) < key(b));
    forall i | k <= i < |items| ensures key(node) < key(items[i]) {
      assert key(items[k]) <= key(items[i]);
    }
    var r := Inserted(items, k, node);
    forall i, j | 0 <= i < j < |r| ensures key(r[i]) <= key(r[j]) {}
  }

  class List {
    const head: Node
    ghost var items: seq<Node>

    /** The way around: from the head through the items and back to the head. */
    ghost function Chain(): (c: seq<Node>)
      reads this
      ensures |c| == |items| + 2
    {
      [head] + items + [head]
    }

    ghost predicate Linked(i: nat)
      requires i + 1 < |Chain()|
      reads this, head, items
    {
      Chain()[i].next == Chain()[i + 1] && Chain()[i + 1].prev == Chain()[i]
    }

    ghost predicate Valid()
      reads this, head, items
    {
      head !in items && Distinct(items) && forall i: nat | i + 1 < |Chain()| :: Linked(i)
    }

    constructor ()
      ensures Valid() && items == [] && fresh(head)
    {
      head := new Node();
      items := [];
      new;
      head.next := head;
      head.prev := head;
    }

    method IsEmpty() returns (b: bool)
      requires Valid()
      ensures b <==> items == []
    {
      assert Linked(0);
      b := head.next == head;
    }

    method GetHead() returns (n: Node?)
      requires Valid()
      ensures n == if items == [] then null else items[0]
    {
      assert Linked(0);
      n := if head.next != head then head.next else null;
    }

    /** Store the four pointers that put `node` between two neighbours. */
    method Link(node: Node, before: Node, after: Node, ghost k: nat)
      requires Valid() && node !in items && node != head && k <= |items| && before == Chain()[k] &&
               after == Chain()[k + 1]
      modifies this, head, items, node
      ensures Valid() && items == Inserted(old(items), k, node)
    {
      node.prev := before;
      node.next := after;
      before.next := node;
      after.prev := node;
      ghost var c := Chain();
      items := Inserted(items, k, node);
      assert Chain() == c[..k + 1] + [node] + c[k + 1..];
      forall i: nat | i + 1 < |Chain()| ensures Linked(i) {
        if i < k {
          assert old(Linked(i));
          assert Chain()[i] == c[i] && Chain()[i + 1] == c[i + 1];
        } else if i > k + 1 {
          assert old(Linked(i - 1));
          assert Chain()[i] == c[i - 1] && Chain()[i + 1] == c[i];
        } else {
          assert Chain()[k] == before && Chain()[k + 1] == node && Chain()[k + 2] == after;
        }
      }
    }

    method InsertAtHead(node: Node)
      requires Valid() && node !in items && node != head
      modifies this, head, items, node
      ensures Valid() && items == [node] + old(items)
    {
      assert Linked(0);
      Link(node, head, head.next, 0);
    }

    method InsertAtTail(node: Node)
      requires Valid() && node !in items && node != head
      modifies this, head, items, node
      ensures Valid() && items == old(items) + [node]
    {
      assert Linked(|items|);
      Link(node, head.prev, head, |items|);
    }

    method InsertAfterNode(before: Node, node: Node, ghost k: nat)
      requires Valid() && node !in items && node != head && k < |items| && before == items[k]
      modifies this, head, items, node
      ensures Valid() && items == Inserted(old(items), k + 1, node)
    {
      assert Linked(k + 1);
      Link(node, before, before.next, k + 1);
    }

    /** Search for the first node that `node` precedes, and insert before it. */
    method InsertInOrder(node: Node, less: (Node, Node) -> bool) returns (newHead: bool)
      requires Valid() && node !in items && node != head
      modifies this, head, items, node
      ensures Valid() && items == Inserted(old(items), Place(old(items), node, less), node)
      ensures newHead <==> items[0] == node
    {
      assert Linked(0);
      var before, after := head, head.next;
      ghost var k := 0;
      while after != head
        invariant 0 <= k <= |items| && before == Chain()[k] && after == Chain()[k + 1]
        invariant Place(items, node, less) == k + Place(items[k..], node, less)
        decreases |items| - k
      {
        if less(node, after) {
          break;
        }
        assert Linked(k + 1);
        before := after;
        after := before.next;
        k := k + 1;
      }
      newHead := before == head;
      Link(node, before, after, k);
    }

    /** Make the neighbours of `node` point past it, and clear its `prev`. */
    method Unlink(node: Node, before: Node, after: Node, ghost k: nat)
      requires Valid() && k < |items| && node == items[k] && before == Chain()[k] && after == Chain()[k + 2]
      modifies this, head, items
      ensures Valid() && items == Removed(old(items), k) && node.prev == null && node.next == old(node.next)
    {
      before.next := after;
      after.prev := before;
      node.prev := null;
      ghost var c := Chain();
      items := Removed(items, k);
      assert Chain() == c[..k + 1] + c[k + 2..];
      forall i: nat | i + 1 < |Chain()| ensures Linked(i) {
        if i < k {
          assert old(Linked(i));
          assert Chain()[i] == c[i] && Chain()[i + 1] == c[i + 1];
        } else if i > k {
          assert old(Linked(i + 1));
          assert Chain()[i] == c[i + 1] && Chain()[i + 1] == c[i + 2];
        }
      }
    }

    /** A node that is in no list is left alone; otherwise it leaves the list, keeps
        its `next` for readers that stand on it, and its `prev` is cleared. */
    method DeleteNode(node: Node, ghost k: nat) returns (newHead: bool)
      requires Valid() && (node.prev != null ==> k < |items| && node == items[k])
      modifies this, head, items, node
      ensures Valid() && node.prev == null && node.next == old(node.next)
      ensures items == if old(node.prev) == null then old(items) else Removed(old(items), k)
      ensures newHead <==> old(node.prev) != null && k == 0 && items != []
    {
      newHead := false;
      if node.prev == null {
        return;
      }
      assert Linked(k) && Linked(k + 1);
      var after, before := node.next, node.prev;
      Unlink(node, before, after, k);
      newHead := before == head && after != head;
    }

    /** The iterator: following `next` from the head visits the items in order, once each. */
    method Walk() returns (visited: seq<Node>)
      requires Valid()
      ensures visited == items
    {
      visited := [];
      assert Linked(0);
      var node := head.next;
      while node != head
        invariant |visited| <= |items| && visited == items[..|visited|] && node == Chain()[|visited| + 1]
        decreases |items| - |visited|
      {
        visited := visited + [node];
        assert Linked(|visited|);
        node := node.next;
      }
    }
  }
}
