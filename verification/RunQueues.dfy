/** One CPU's scheduler as `scheduler_fprr.c` stores it: a circular list of embedded
    nodes for each priority level, and a bitmap of the levels in words. The pointers
    and words are proved to refine the sequences and sets of `SchedulerState`. */
module RunQueues {
  import opened Outcomes
  import opened Lists
  import opened IntrusiveList
  import Bitmap
  import opened SchedulerState
  import opened SchedulerInvariant
  import opened SchedulerTime

  class RunQueue {
    const lists: seq<List>
    const nodes: seq<Node>
    const container: map<Node, Tid>
    ghost const footprint: set<object>
    var prioBitmap: seq<nat>
    var active: Option<Tid>
    var schedtime: nat
    ghost var queues: seq<seq<Tid>>

    /** Lists, list heads and nodes are all different objects, and make up the footprint. */
    ghost predicate Separate() {
      |lists| == NUM_PRIORITIES && this !in footprint && Distinct(lists) &&
      (forall i | 0 <= i < |lists| :: lists[i] in footprint && lists[i].head in footprint && lists[i].head !in nodes) &&
      (forall i, j | 0 <= i < j < |lists| :: lists[i].head != lists[j].head) &&
      (forall t | 0 <= t < |nodes| ::
         nodes[t] in footprint && nodes[t] in container && container[nodes[t]] == t)
    }

    /** The list of level `i` links the nodes of the threads of `queues[i]`, in that order. */
    ghost predicate Spells(i: nat)
      requires Separate() && i < NUM_PRIORITIES && |queues| == NUM_PRIORITIES
      reads this`queues, footprint
    {
      (forall n | n in lists[i].items :: n in footprint) && lists[i].Valid() && NodesOf(queues[i], lists[i].items)
    }

    /** `items` are the nodes of the threads of `q`, in that order. */
    ghost predicate NodesOf(q: seq<Tid>, items: seq<Node>) {
      |items| == |q| && forall k | 0 <= k < |q| :: q[k] < |nodes| && items[k] == nodes[q[k]]
    }

    lemma NodesOfMore(q: seq<Tid>, items: seq<Node>, t: Tid)
      requires NodesOf(q, items) && t < |nodes|
      ensures NodesOf(q + [t], items + [nodes[t]]) && NodesOf([t] + q, [nodes[t]] + items)
    {
    }

    /** No thread is in two levels. */
    ghost predicate Apart()
      reads this`queues
    {
      AreApart(queues)
    }

    ghost predicate Linked()
      reads this`queues, footprint
    {
      Separate() && |queues| == NUM_PRIORITIES && Apart() && forall i | 0 <= i < NUM_PRIORITIES :: Spells(i)
    }

    ghost predicate BitsMatch()
      reads this`prioBitmap, this`queues
    {
      Bitmap.IsBitmap(prioBitmap, NUM_PRIORITIES) && |queues| == NUM_PRIORITIES &&
      forall i | 0 <= i < NUM_PRIORITIES :: Bitmap.IsSet(prioBitmap, i) <==> queues[i] != []
    }

    ghost predicate Valid()
      reads this`prioBitmap, this`queues, footprint
    {
      Linked() && BitsMatch()
    }

    /** The abstract state of the scheduler. */
    ghost function View(): (sc: Sched)
      reads this
    {
      Sched(queues, (set i | 0 <= i < |queues| && queues[i] != []), active, schedtime)
    }

    /** Empty run queues for `threads` threads. */
    constructor (threads: nat)
      ensures Valid() && fresh(footprint) && |nodes| == threads && active.None?
      ensures forall i | 0 <= i < NUM_PRIORITIES :: queues[i] == []
    {
      var ls, inLists := NewLists();
      var ns, owner, inNodes := NewNodes(threads);
      lists, nodes, container, footprint := ls, ns, owner, inLists + inNodes;
      prioBitmap, active, schedtime := [0], None, 0;
      queues := seq(NUM_PRIORITIES, _ => []);
      EmptyWord();
    }

    /** A node that is in no list of another level is foreign to it. */
    ghost predicate Foreign(items: seq<Node>, head: Node, n: Node) {
      n !in items && n != head
    }

    lemma NodeForeign(j: nat, t: Tid)
      requires Linked() && j < NUM_PRIORITIES && t < |nodes| && t !in queues[j]
      ensures Foreign(lists[j].items, lists[j].head, nodes[t])
    {
      assert Spells(j);
    }

    /** The nodes and the head of level `j` are foreign to level `i`. */
    lemma LevelsForeign(i: nat, j: nat)
      requires Linked() && i < NUM_PRIORITIES && j < NUM_PRIORITIES && i != j
      ensures lists[i] != lists[j] && Foreign(lists[i].items, lists[i].head, lists[j].head)
      ensures forall n | n in lists[j].items :: Foreign(lists[i].items, lists[i].head, n)
    {
      assert Spells(i) && Spells(j);
      forall n | n in lists[j].items ensures Foreign(lists[i].items, lists[i].head, n) {
        var k :| 0 <= k < |lists[j].items| && lists[j].items[k] == n;
        assert queues[j][k] in queues[j];
        NodeForeign(i, queues[j][k]);
      }
    }

    /** Nothing that spells out level `j` has changed. */
    twostate predicate Kept(j: nat)
      requires j < |lists|
      reads lists[j], footprint
    {
      unchanged(lists[j]) && lists[j].head in footprint && unchanged(lists[j].head) &&
      forall n | n in lists[j].items :: n in footprint && n.next == old(n.next) && n.prev == old(n.prev)
    }

    /** A level that has been kept still spells its queue. */
    twostate lemma KeptSpells(j: nat)
      requires Separate() && |queues| == old(|queues|) == NUM_PRIORITIES && j < NUM_PRIORITIES
      requires queues[j] == old(queues[j])
      requires old(Spells(j)) && Kept(j)
      ensures Spells(j)
    {
      assert lists[j].Valid() by {
        forall k: nat | k + 1 < |lists[j].Chain()| ensures lists[j].Linked(k) {
          assert old(lists[j].Linked(k));
        }
      }
    }

    /** Link the node of a thread into the list of its level. */
    method LinkNode(i: nat, t: Tid, atTail: bool)
      requires Linked() && i < NUM_PRIORITIES && t < |nodes| && forall j | 0 <= j < NUM_PRIORITIES :: t !in queues[j]
      modifies footprint
      ensures lists[i].Valid() &&
              lists[i].items == if atTail then old(lists[i].items) + [nodes[t]] else [nodes[t]] + old(lists[i].items)
      ensures forall j | 0 <= j < NUM_PRIORITIES && j != i :: Kept(j)
    {
      assert Spells(i);
      var list := lists[i];
      forall j | 0 <= j < NUM_PRIORITIES && j != i
        ensures lists[i] != lists[j] && Foreign(list.items, list.head, lists[j].head) &&
                Foreign(lists[j].items, lists[j].head, nodes[t]) &&
                forall n | n in lists[j].items :: n in footprint && Foreign(list.items, list.head, n)
      {
        assert Spells(j);
        NodeForeign(j, t);
        LevelsForeign(i, j);
      }
      NodeForeign(i, t);
      if atTail {
        list.InsertAtTail(nodes[t]);
      } else {
        list.InsertAtHead(nodes[t]);
      }
    }

    /** Unlink the node at place `k` of level `i`. */
    method UnlinkNode(i: nat, t: Tid, ghost k: nat) returns (newHead: bool)
      requires Linked() && i < NUM_PRIORITIES && k < |queues[i]| && queues[i][k] == t
      modifies footprint
      ensures k < old(|lists[i].items|) && lists[i].Valid() && lists[i].items == Removed(old(lists[i].items), k)
      ensures newHead <==> k == 0 && lists[i].items != []
      ensures forall j | 0 <= j < NUM_PRIORITIES && j != i :: Kept(j)
    {
      assert Spells(i);
      var list := lists[i];
      forall j | 0 <= j < NUM_PRIORITIES && j != i
        ensures lists[i] != lists[j] && Foreign(list.items, list.head, lists[j].head) &&
                forall n | n in lists[j].items :: n in footprint && Foreign(list.items, list.head, n)
      {
        assert Spells(j);
        LevelsForeign(i, j);
      }
      assert list.Linked(k);
      newHead := list.DeleteNode(nodes[t], k);
    }

    /** A level holds each thread once. */
    lemma LevelDistinct(i: nat)
      requires Linked() && i < NUM_PRIORITIES
      ensures Distinct(queues[i])
    {
      assert Spells(i);
    }

    /** Put a thread into its level. */
    method LinkThread(i: nat, t: Tid, atTail: bool)
      requires Linked() && i < NUM_PRIORITIES && t < |nodes| && forall j | 0 <= j < NUM_PRIORITIES :: t !in queues[j]
      modifies this`queues, footprint
      ensures Linked() && queues == old(queues)[i := if atTail then old(queues[i]) + [t] else [t] + old(queues[i])]
    {
      assert Spells(i);
      NodesOfMore(queues[i], lists[i].items, t);
      LinkNode(i, t, atTail);
      ghost var level := if atTail then queues[i] + [t] else [t] + queues[i];
      MoreApart(queues, i, level, t);
      queues := queues[i := level];
      forall j | 0 <= j < NUM_PRIORITIES && j != i ensures Spells(j) {
        assert old(Spells(j));
        KeptSpells(j);
      }
      assert Spells(i);
    }

    /** Take the thread at place `k` out of its level. */
    method UnlinkThread(i: nat, t: Tid, ghost k: nat) returns (newHead: bool)
      requires Linked() && i < NUM_PRIORITIES && k < |queues[i]| && queues[i][k] == t
      modifies this`queues, footprint
      ensures Linked() && queues == old(queues)[i := old(queues[i])[..k] + old(queues[i])[k + 1..]]
      ensures newHead <==> k == 0 && queues[i] != []
    {
      assert Spells(i);
      newHead := UnlinkNode(i, t, k);
      queues := queues[i := queues[i][..k] + queues[i][k + 1..]];
      forall j | 0 <= j < NUM_PRIORITIES && j != i ensures Spells(j) {
        assert old(Spells(j));
        KeptSpells(j);
      }
      assert Spells(i);
    }

    /** `add_to_runqueue`: the thread is put at the chosen end of its level, whose bit is
        set afterwards; all other levels stay. */
    method AddToRunqueue(i: nat, t: Tid, atTail: bool)
      requires Valid() && i < NUM_PRIORITIES && t < |nodes| && forall j | 0 <= j < NUM_PRIORITIES :: t !in queues[j]
      modifies this`prioBitmap, this`queues, footprint
      ensures Valid() && queues == old(queues)[i := if atTail then old(queues[i]) + [t] else [t] + old(queues[i])]
      ensures SchedulerState.AddToRunqueue(old(View()), MAX_PRIORITY - i, t, atTail) == Done(View())
    {
      assert Spells(i);
      var wasEmpty := lists[i].IsEmpty();
      assert wasEmpty || Bitmap.IsSet(prioBitmap, i);
      LinkThread(i, t, atTail);
      if wasEmpty {
        Bitmap.AssignBits(prioBitmap, NUM_PRIORITIES, i, true);
        prioBitmap := Bitmap.Assign(prioBitmap, i, true);
      }
      BitAdded(old(View()), View(), i);
    }

    /** `remove_from_runqueue`: the thread leaves its level, whose bit is cleared if that
        was the last one; all other levels stay. */
    method RemoveFromRunqueue(i: nat, t: Tid)
      requires Valid() && i < NUM_PRIORITIES && t in queues[i]
      modifies this`prioBitmap, this`queues, footprint
      ensures Valid() && queues == old(queues)[i := Without(old(queues[i]), t)]
      ensures SchedulerState.RemoveFromRunqueue(old(View()), MAX_PRIORITY - i, t) == Done(View())
    {
      assert Spells(i);
      ghost var k :| 0 <= k < |queues[i]| && queues[i][k] == t;
      var head := lists[i].GetHead();
      var wasHead := head == nodes[t];
      assert wasHead <==> k == 0 by { assert lists[i].items[0] == nodes[t] ==> k == 0; }
      assert Bitmap.IsSet(prioBitmap, i);
      LevelDistinct(i);
      WithoutAt(queues[i], k);
      var newHead := UnlinkThread(i, t, k);
      if !newHead && wasHead {
        assert queues[i] == [];
        Bitmap.AssignBits(prioBitmap, NUM_PRIORITIES, i, false);
        prioBitmap := Bitmap.Assign(prioBitmap, i, false);
      }
      BitRemoved(old(View()), View(), i, t, k);
    }

    /** `pop_runqueue_head`: a level whose bit is set has a first thread, which leaves it. */
    method PopRunqueueHead(i: nat) returns (t: Tid)
      requires Valid() && i < NUM_PRIORITIES && Bitmap.IsSet(prioBitmap, i)
      modifies this`prioBitmap, this`queues, footprint
      ensures Valid() && old(queues[i]) == [t] + queues[i] && queues == old(queues)[i := queues[i]]
      ensures SchedulerState.RemoveFromRunqueue(old(View()), MAX_PRIORITY - i, t) == Done(View())
    {
      assert Spells(i);
      var head := lists[i].GetHead();
      assert head == nodes[queues[i][0]];
      t := container[head];
      RemoveFromRunqueue(i, t);
    }

    /** The highest priority level that has a thread waiting. */
    method FirstLevel() returns (i: Option<nat>)
      requires Valid()
      ensures i.None? ==> forall j | 0 <= j < NUM_PRIORITIES :: queues[j] == []
      ensures i.Some? ==>
              i.value < NUM_PRIORITIES && queues[i.value] != [] && forall j | 0 <= j < i.value :: queues[j] == []
      ensures i == FirstSet(View().bitmap, 0)
    {
      i := Bitmap.FindFirstSet(prioBitmap, NUM_PRIORITIES);
      ghost var first := FirstSet(View().bitmap, 0);
      assert i.Some? ==> i.value in View().bitmap;
    }

    /** The head of level `i` becomes active, and the thread it displaces goes back to
        the tail of its level if its timeslice has run out, else to the head. */
    method SwitchActive(i: nat, expired: bool, now: nat, ghost s: State, ghost c: Cpu, threads: seq<Thread>)
      returns (target: Tid)
      requires Valid() && Shows(s, c, threads) && i in View().bitmap
      modifies this, footprint
      ensures Valid() && active == Some(target) && schedtime == now && i < |old(queues)| && old(queues)[i] != []
      ensures target == old(queues)[i][0] && queues == Displaced(old(queues)[i := old(queues)[i][1..]],
                                                                 old(active), threads, expired)
      ensures Promote(s, c, i, expired, now) == Done((View(), target))
    {
      var prev := active;
      ghost var head := queues[i][0];
      assert head in queues[i] && Entry(threads, active, c, i, head);
      assert Spells(i);
      target := PopRunqueueHead(i);
      assert queues == old(queues)[i := old(queues)[i][1..]];
      active, schedtime := Some(target), now;
      if prev.Some? {
        NotQueued(s, c, prev.value);
        AddToRunqueue(MAX_PRIORITY - threads[prev.value].priority, prev.value, expired);
      }
    }

    /** `update_timeslice`: charge the active thread for the time since it was scheduled.
        Until its deadline it is left with the rest, from then on it gets a full slice. */
    method UpdateTimeslice(threads: seq<Thread>, t: Tid, now: nat) returns (charged: seq<Thread>, expired: bool)
      requires t < |threads|
      ensures expired <==> now >= schedtime + threads[t].activeTimeslice
      ensures |charged| == |threads| && forall u | 0 <= u < |threads| && u != t :: charged[u] == threads[u]
      ensures charged[t] == threads[t].(activeTimeslice := charged[t].activeTimeslice)
      ensures if expired then charged[t].activeTimeslice == threads[t].baseTimeslice
              else now + charged[t].activeTimeslice == schedtime + threads[t].activeTimeslice
      ensures charged == threads[t := Charge(View(), threads[t], now)] && expired == Expired(View(), threads[t], now)
    {
      var timeout := schedtime + threads[t].activeTimeslice;
      expired := timeout <= now;
      var slice := if expired then threads[t].baseTimeslice else timeout - now;
      charged := threads[t := threads[t].(activeTimeslice := slice)];
    }

    /** Charge the active thread, if there is one. */
    method ChargeActive(threads: seq<Thread>, ghost c: Cpu, now: nat, ghost s: State)
      returns (charged: seq<Thread>, expired: bool)
      requires Shows(s, c, threads)
      ensures Charged(s, c, now, charged)
      ensures if active.None? then charged == threads && !expired
              else charged == threads[active.value := Charge(View(), threads[active.value], now)] &&
                   expired == Expired(View(), threads[active.value], now)
    {
      charged, expired := threads, false;
      if active.Some? {
        charged, expired := UpdateTimeslice(threads, active.value, now);
      }
    }

    /** `get_next_target` on the pointers and words of the CPU: the active thread is
        charged, and the selection is exactly that of `NextTarget`, whose properties
        `SchedulerPolicy` and `SchedulerTime` prove. */
    method GetNextTarget(threads: seq<Thread>, idle: Tid, now: nat, ghost s: State)
      returns (charged: seq<Thread>, target: Tid)
      requires Valid() && Shows(s, idle, threads)
      modifies this, footprint
      ensures Valid() && schedtime == now && Charged(s, idle, now, charged)
      ensures if active.Some? then active.value == target else target == idle
      ensures NextTarget(s, idle, now) == Done((s.(threads := charged, scheds := s.scheds[idle := View()]), target))
    {
      var expired;
      charged, expired := ChargeActive(threads, idle, now, s);
      var first := FirstLevel();
      if first.Some? && (active.None? || Displaces(first.value, threads[active.value], expired)) {
        ghost var s1 := s.(threads := charged);
        ChargedShows(s, idle, threads, charged, now);
        target := SwitchActive(first.value, expired, now, s1, idle, charged);
      } else {
        target := if active.Some? then active.value else idle;
        schedtime := now;
      }
    }

    /** A thread that is displaced goes back to its level: to the tail if its timeslice
        has run out, else to the head. */
    ghost function Displaced(levels: seq<seq<Tid>>, prev: Option<Tid>, threads: seq<Thread>, expired: bool)
      : (r: seq<seq<Tid>>)
    {
      if prev.None? || prev.value >= |threads| || threads[prev.value].priority > MAX_PRIORITY ||
         MAX_PRIORITY - threads[prev.value].priority >= |levels|
      then levels
      else
        var l := MAX_PRIORITY - threads[prev.value].priority;
        levels[l := if expired then levels[l] + [prev.value] else [prev.value] + levels[l]]
    }

    /** These run queues are those of CPU `c` in a consistent state `s`. */
    ghost predicate Shows(s: State, c: Cpu, threads: seq<Thread>)
      reads this
    {
      PlacesOk(s) && c < |s.scheds| && s.scheds[c] == View() && s.threads == threads && |threads| == |nodes| &&
      (active.Some? ==> Belongs(threads, c, active.value) && threads[active.value].priority <= MAX_PRIORITY)
    }

    /** The active thread is in no run queue. */
    lemma NotQueued(s: State, c: Cpu, t: Tid)
      requires PlacesOk(s) && c < |s.scheds| && s.scheds[c].active == Some(t)
      ensures |s.scheds[c].runqueue| == NUM_PRIORITIES
      ensures forall i | 0 <= i < NUM_PRIORITIES :: t !in s.scheds[c].runqueue[i]
    {
      assert Placed(s.threads, s.scheds[c], c);
    }

    lemma ChargedShows(s: State, c: Cpu, threads: seq<Thread>, charged: seq<Thread>, now: nat)
      requires Shows(s, c, threads)
      requires charged == if active.None? then threads
                          else threads[active.value := Charge(View(), threads[active.value], now)]
      ensures Shows(s.(threads := charged), c, charged)
    {
      if active.Some? {
        KeysFrame(s, active.value, charged[active.value]);
      }
    }
  }

  /** No thread is in two of the queues. */
  ghost predicate AreApart(queues: seq<seq<Tid>>) {
    forall i, j, t | 0 <= i < j < |queues| && t in queues[i] :: t !in queues[j]
  }

  lemma MoreApart(queues: seq<seq<Tid>>, i: nat, level: seq<Tid>, t: Tid)
    requires AreApart(queues) && i < |queues| && forall j | 0 <= j < |queues| :: t !in queues[j]
    requires forall u | u in level :: u in queues[i] || u == t
    ensures AreApart(queues[i := level])
  {
  }

  lemma EmptyWord()
    ensures forall i | 0 <= i < NUM_PRIORITIES :: !Bitmap.IsSet([0], i)
  {
    forall i | 0 <= i < NUM_PRIORITIES ensures !Bitmap.IsSet([0], i) {
      Bitmap.ZeroHasNoBits(i);
    }
  }

  method NewLists() returns (lists: seq<List>, ghost objects: set<object>)
    ensures |lists| == NUM_PRIORITIES && Distinct(lists) && fresh(objects)
    ensures forall i | 0 <= i < |lists| :: lists[i] in objects && lists[i].head in objects
    ensures forall i | 0 <= i < |lists| :: lists[i].Valid() && lists[i].items == []
    ensures forall j, k | 0 <= j < k < |lists| :: lists[j].head != lists[k].head
  {
    lists, objects := [], {};
    for i := 0 to NUM_PRIORITIES
      invariant |lists| == i && Distinct(lists) && fresh(objects)
      invariant forall k | 0 <= k < i :: lists[k] in objects && lists[k].head in objects
      invariant forall k | 0 <= k < i :: lists[k].Valid() && lists[k].items == []
      invariant forall j, k | 0 <= j < k < i :: lists[j].head != lists[k].head
    {
      var list := new List();
      lists, objects := lists + [list], objects + {list, list.head};
    }
  }

  method NewNodes(threads: nat) returns (nodes: seq<Node>, owner: map<Node, Tid>, ghost objects: set<object>)
    ensures |nodes| == threads && fresh(objects)
    ensures forall t | 0 <= t < threads :: nodes[t] in objects && nodes[t] in owner && owner[nodes[t]] == t
  {
    nodes, owner, objects := [], map[], {};
    for t := 0 to threads
      invariant |nodes| == t && fresh(objects)
      invariant forall k | 0 <= k < t :: nodes[k] in objects && nodes[k] in owner && owner[nodes[k]] == k
    {
      var node := new Node();
      nodes, owner, objects := nodes + [node], owner[node := t], objects + {node};
    }
  }

  lemma BitAdded(sc: Sched, r: Sched, i: nat)
    requires |sc.runqueue| == |r.runqueue| == NUM_PRIORITIES && i < NUM_PRIORITIES
    requires r.runqueue == sc.runqueue[i := r.runqueue[i]]
    requires r.runqueue[i] != []
    requires sc.bitmap == (set j | 0 <= j < NUM_PRIORITIES && sc.runqueue[j] != [])
    requires r.bitmap == (set j | 0 <= j < NUM_PRIORITIES && r.runqueue[j] != [])
    ensures r.bitmap == sc.bitmap + {i} && (sc.runqueue[i] != [] ==> r.bitmap == sc.bitmap)
  {
  }

  lemma BitRemoved(sc: Sched, r: Sched, i: nat, t: Tid, k: nat)
    requires |sc.runqueue| == |r.runqueue| == NUM_PRIORITIES && i < NUM_PRIORITIES
    requires r.runqueue == sc.runqueue[i := r.runqueue[i]]
    requires Distinct(sc.runqueue[i]) && k < |sc.runqueue[i]| && sc.runqueue[i][k] == t
    requires r.runqueue[i] == Without(sc.runqueue[i], t)
    requires sc.bitmap == (set j | 0 <= j < NUM_PRIORITIES && sc.runqueue[j] != [])
    requires r.bitmap == (set j | 0 <= j < NUM_PRIORITIES && r.runqueue[j] != [])
    ensures r.bitmap == if k == 0 && r.runqueue[i] == [] then sc.bitmap - {i} else sc.bitmap
  {
    WithoutAt(sc.runqueue[i], k);
  }
}
