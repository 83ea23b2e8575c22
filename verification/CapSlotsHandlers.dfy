/** Allocation and release of capability slots as imperative code; every critical
    section is a step of `CapSlots`. */
module CapSlotsHandlers {
  import opened Outcomes
  import opened CapSlots

  datatype Outcome = Full | NoMemory | Allocated(table: TableId, slot: nat)

  /** The lowest index in the set. */
  predicate IsLowest(i: nat, bits: set<nat>) {
    i in bits && forall j | j in bits :: i <= j
  }

  /** The lowest index that is not in the set. */
  predicate IsLowestFree(i: nat, bits: set<nat>) {
    i !in bits && forall j | 0 <= j < i :: j in bits
  }

  /** A table is empty before it is attached. */
  lemma EmptyUntilAttached(s: State, a: Agent)
    requires Inv(s) && a < |s.agents| && s.agents[a].TableReady?
    ensures s.agents[a].table < |s.tables| && s.tables[s.agents[a].table].count == 0
    ensures s.tables[s.agents[a].table].index < |s.attached| && s.tables[s.agents[a].table].index !in s.available
  {
    assert AgentOk(s, a);
    assert TableOk(s, s.agents[a].table);
    assert IndexOk(s, s.tables[s.agents[a].table].index);
  }

  /** One more slot of table `t` is reserved by agent `a`; a table that is now full is no
      longer available. */
  ghost predicate IsReserved(s: State, r: State, a: Agent, t: TableId)
    requires a < |s.agents| && t < |s.tables|
  {
    r.tables == s.tables[t := s.tables[t].(count := s.tables[t].count + 1)] && r.count == s.count + 1 &&
    r.available == (if s.tables[t].count + 1 == s.slots then s.available - {s.tables[t].index} else s.available) &&
    r.taken == s.taken && r.attached == s.attached && r.agents == s.agents[a := Reserved(t, 0)]
  }

  /** One slot of table `t` is given back by agent `a`: a table that was full is available
      again, and one that is now empty is detached and its index free. */
  ghost predicate IsReleased(s: State, r: State, a: Agent, t: TableId) {
    t < |s.tables| && s.tables[t].index < |s.attached| && a < |s.agents| && s.tables[t].count > 0 && s.count > 0 &&
    var i, left := s.tables[t].index, s.tables[t].count - 1;
    r.tables == s.tables[t := s.tables[t].(count := left)] && r.count == s.count - 1 &&
    r.agents == s.agents[a := Idle] &&
    (if left == 0 then r.taken == s.taken - {i} && r.attached == s.attached[i := None] && i !in r.available
     else r.taken == s.taken && r.attached == s.attached && (left + 1 == s.slots ==> i in r.available)) &&
    (forall j: nat | j != i || (left > 0 && left + 1 < s.slots) :: j in r.available <==> j in s.available)
  }

  class CapSpace {
    const slots: nat
    const maxCaps: nat
    var tables: seq<Table>
    var attached: seq<Option<TableId>>
    var taken: set<nat>
    var available: set<nat>
    var count: nat
    var agents: seq<Pc>

    function View(): (s: State)
      reads this
    {
      State(slots, maxCaps, tables, attached, taken, available, count, agents)
    }

    constructor (slots: nat, maxCaps: nat, indices: nat, agentCount: nat)
      requires slots > 0
      ensures Init(View()) && Inv(View())
    {
      this.slots, this.maxCaps := slots, maxCaps;
      tables, attached := [], seq(indices, _ => None);
      taken, available, count := {}, {}, 0;
      agents := seq(agentCount, _ => Idle);
    }

    /** Scan for the lowest index from `from` up to `n` whose bit has the given value. */
    method FindFirst(bits: set<nat>, value: bool, n: nat, from: nat) returns (r: Option<nat>)
      ensures r.None? ==> forall i | from <= i < n :: (i in bits) != value
      ensures r.Some? ==> from <= r.value < n && (r.value in bits) == value &&
                          forall i | from <= i < r.value :: (i in bits) != value
      ensures r == Lowest(bits, value, n, from)
    {
      var i := from;
      while i < n && (i in bits) != value
        invariant from <= i && (i <= n || i == from) && Lowest(bits, value, n, from) == Lowest(bits, value, n, i)
      {
        i := i + 1;
      }
      LowestFinds(bits, value, n, from);
      return if i < n then Some(i) else None;
    }

    /** Count one more slot of table `t`; a table that is now full is no longer available. */
    method ReserveIn(a: Agent, t: TableId)
      requires a < |agents| && t < |tables|
      modifies this
      ensures View() == Reserve(old(View()), a, t) && IsReserved(old(View()), View(), a, t)
    {
      tables := tables[t := tables[t].(count := tables[t].count + 1)];
      count := count + 1;
      if tables[t].count == slots {
        available := available - {tables[t].index};
      }
      agents := agents[a := Reserved(t, 0)];
    }

    /** The first critical section of an allocation. */
    method CheckAndReserve(a: Agent) returns (full: bool)
      requires Inv(View()) && Enabled(View(), Check(a))
      modifies this
      ensures Inv(View()) && |agents| == |old(agents)| && (full <==> old(count) == maxCaps)
      ensures full ==> View() == old(View())
      ensures !full ==> agents[a].NeedTable? || agents[a].Reserved?
      ensures !full && agents[a].NeedTable? ==>
                available == {} && View() == old(View()).(agents := old(agents)[a := NeedTable])
      ensures !full && agents[a].Reserved? ==>
                agents[a].table < |old(tables)| == |tables| && IsReserved(old(View()), View(), a, agents[a].table) &&
                IsLowest(tables[agents[a].table].index, old(available))
    {
      StepKeepsInv(View(), Check(a));
      if count == maxCaps {
        return true;
      }
      full := false;
      var i := FindFirst(available, true, |attached|, 0);
      if i.Some? {
        assert IndexOk(View(), i.value);
        ReserveIn(a, attached[i.value].value);
      } else {
        agents := agents[a := NeedTable];
      }
    }

    /** `cspace_allocate_cap_table`, with nobody else claiming indices. */
    method AllocateTable(a: Agent, memory: bool) returns (err: Option<Outcome>)
      requires Inv(View()) && a < |agents| && agents[a].NeedTable?
      modifies this
      ensures Inv(View()) && |agents| == |old(agents)| && agents == old(agents)[a := agents[a]]
      ensures err.None? <==> agents[a].TableReady?
      ensures err.None? ==> memory && |tables| == |old(tables)| + 1 && tables[..|old(tables)|] == old(tables)
      ensures err.None? ==> agents[a].table == |old(tables)| && tables[|old(tables)|].used == {} &&
                            IsLowestFree(tables[|old(tables)|].index, old(taken))
      ensures err.Some? ==> tables == old(tables) && taken == old(taken) && agents[a].Idle? && !err.value.Allocated?
      ensures err == Some(Full) <==> forall i | 0 <= i < |attached| :: i in old(taken)
      ensures err == Some(NoMemory) ==> !memory
      ensures attached == old(attached) && available == old(available) && count == old(count)
    {
      ghost var s := View();
      var i := FindFirst(taken, false, |attached|, 0);
      StepKeepsInv(View(), FindIndex(a));
      if i.None? {
        agents := agents[a := Idle];
        return Some(Full);
      }
      agents := agents[a := Claiming(i.value)];
      StepKeepsInv(View(), Claim(a));
      taken := taken + {i.value};
      agents := agents[a := Claimed(i.value)];
      MakeTable(a, i.value, memory);
      assert memory || taken == old(taken);
      return if memory then None else Some(NoMemory);
    }

    /** An empty table for the index that was claimed, which is given back if there is no memory. */
    method MakeTable(a: Agent, i: nat, memory: bool)
      requires Inv(View()) && a < |agents| && agents[a] == Claimed(i)
      modifies this`tables, this`taken, this`agents
      ensures Inv(View()) && agents == old(agents)[a := if memory then TableReady(|old(tables)|) else Idle]
      ensures if memory then tables == old(tables) + [Table(i, 0, {})] && taken == old(taken)
              else tables == old(tables) && taken == old(taken) - {i}
    {
      StepKeepsInv(View(), NewTable(a, memory));
      if memory {
        agents := agents[a := TableReady(|tables|)];
        tables := tables + [Table(i, 0, {})];
      } else {
        taken := taken - {i};
        agents := agents[a := Idle];
      }
    }

    method AttachAndReserve(a: Agent)
      requires Inv(View()) && Enabled(View(), Attach(a))
      modifies this
      ensures Inv(View()) && agents == old(agents)[a := Reserved(old(agents)[a].table, 0)]
      ensures count == old(count) + 1 && taken == old(taken) && |tables| == |old(tables)|
      ensures var t := old(agents)[a].table;
              t < |tables| && tables == old(tables)[t := old(tables)[t].(count := 1)] &&
              tables[t].index < |attached| == |old(attached)| &&
              attached == old(attached)[tables[t].index := Some(t)] &&
              available == old(available) + (if slots > 1 then {tables[t].index} else {})
    {
      StepKeepsInv(View(), Attach(a));
      var t := agents[a].table;
      EmptyUntilAttached(View(), a);
      var i := tables[t].index;
      attached := attached[i := Some(t)];
      available := available + {i};
      ReserveIn(a, t);
    }

    /** Read the bitmap word by word up to the first clear bit; there is one. */
    method FindSlotFor(a: Agent) returns (t: TableId, slot: nat)
      requires Inv(View()) && a < |agents| && agents[a].Reserved? && agents[a].word == 0
      modifies this`agents
      ensures Inv(View()) && agents == old(agents)[a := Marking(t, slot)]
      ensures t == old(agents)[a].table < |tables| && slot < slots && IsLowestFree(slot, tables[t].used)
    {
      t := agents[a].table;
      ReservedHasRoom(View(), a);
      var w, l: Option<nat> := 0, None;
      while l.None?
        invariant Inv(View()) && 0 <= w && t == old(agents)[a].table < |tables|
        invariant l.None? ==>
                  agents == old(agents)[a := Reserved(t, w)] && forall i | 0 <= i < w * WORD :: i in tables[t].used
        invariant l.Some? ==> agents == old(agents)[a := Marking(t, l.value)] && l.value < slots &&
                              IsLowestFree(l.value, tables[t].used)
        decreases l.None?, slots - w * WORD
      {
        ReservedHasRoom(View(), a);
        l := ReadWord(a, t, w);
        w := w + 1;
      }
      slot := l.value;
    }

    /** Look for a clear bit in word `w`, which is not behind the end of the bitmap. */
    method ReadWord(a: Agent, t: TableId, w: nat) returns (l: Option<nat>)
      requires Inv(View()) && a < |agents| && agents[a] == Reserved(t, w)
      modifies this`agents
      ensures Inv(View()) && t < |tables| && w * WORD < slots
      ensures agents == old(agents)[a := if l.Some? then Marking(t, l.value) else Reserved(t, w + 1)]
      ensures l.None? ==> forall i | w * WORD <= i < WordEnd(slots, w) :: i in tables[t].used
      ensures l.Some? ==> w * WORD <= l.value < slots && l.value !in tables[t].used &&
                          forall i | w * WORD <= i < l.value :: i in tables[t].used
    {
      ReservedHasRoom(View(), a);
      StepKeepsInv(View(), FindSlot(a));
      l := FindFirst(tables[t].used, false, WordEnd(slots, w), w * WORD);
      agents := agents[a := if l.Some? then Marking(t, l.value) else Reserved(t, w + 1)];
    }

    /** Find and set a clear bit for a reservation. */
    method MarkSlot(a: Agent) returns (t: TableId, slot: nat)
      requires Inv(View()) && a < |agents| && agents[a].Reserved? && agents[a].word == 0
      modifies this`tables, this`agents
      ensures Inv(View()) && agents == old(agents)[a := Idle]
      ensures t == old(agents)[a].table && t < |old(tables)| == |tables| && slot < slots
      ensures IsLowestFree(slot, old(tables)[t].used)
      ensures tables == old(tables)[t := old(tables)[t].(used := old(tables)[t].used + {slot})]
    {
      t, slot := FindSlotFor(a);
      StepKeepsInv(View(), Mark(a));
      tables := tables[t := tables[t].(used := tables[t].used + {slot})];
      agents := agents[a := Idle];
      assert agents == old(agents)[a := Idle];
    }

    /** `cspace_allocate_cap_slot`, one allocation at a time: a slot that was not
        in use, or an error that leaves the cspace as it was. */
    method AllocateSlot(a: Agent, memory: bool) returns (r: Outcome)
      requires Inv(View()) && a < |agents| && agents[a].Idle?
      modifies this
      ensures Inv(View()) && agents == old(agents)
      ensures r.Allocated? ==>
                r.table < |tables| && r.slot < slots && r.slot in tables[r.table].used &&
                (r.table < |old(tables)| ==> r.slot !in old(tables)[r.table].used)
      ensures r.Allocated? ==> count == old(count) + 1 && |old(tables)| <= |tables|
      ensures r.Allocated? ==> forall t | 0 <= t < |old(tables)| ::
                tables[t].used == old(tables)[t].used + if t == r.table then {r.slot} else {}
      ensures old(count) == maxCaps ==> r == Full
      ensures r == NoMemory ==> !memory && available == {}
      ensures !r.Allocated? ==> tables == old(tables) && taken == old(taken) && available == old(available) &&
                                attached == old(attached) && count == old(count)
      ensures r == Full <==>
              old(count) == maxCaps || (old(available) == {} && forall i | 0 <= i < |attached| :: i in old(taken))
    {
      var full := CheckAndReserve(a);
      if full {
        return Full;
      }
      if agents[a].NeedTable? {
        var err := AllocateTable(a, memory);
        if err.Some? {
          assert agents == old(agents);
          return err.value;
        }
        AttachAndReserve(a);
      }
      var t, slot := MarkSlot(a);
      assert agents == old(agents);
      return Allocated(t, slot);
    }

    /** `cspace_free_cap_slot`, one release at a time; a table without caps is detached. */
    method FreeSlot(a: Agent, t: TableId, slot: nat)
      requires Inv(View()) && Enabled(View(), Clear(a, t, slot))
      modifies this
      ensures Inv(View()) && agents == old(agents) && |tables| == |old(tables)| && tables == old(tables)[t := tables[t]]
      ensures tables[t].used == old(tables)[t].used - {slot} && tables[t].count == old(tables)[t].count - 1
      ensures count == old(count) - 1
      ensures tables[t].count == 0 ==> tables[t].index < |attached| && attached[tables[t].index].None? &&
                                       tables[t].index !in taken
      ensures tables[t].count > 0 ==> attached == old(attached) && taken == old(taken) && tables[t].index in available
      ensures forall j: nat | j != tables[t].index ::
                (j in taken <==> j in old(taken)) && (j in available <==> j in old(available)) &&
                (j < |old(attached)| == |attached| ==> attached[j] == old(attached)[j])
    {
      StepKeepsInv(View(), Clear(a, t, slot));
      assert TableOk(View(), t);
      tables := tables[t := tables[t].(used := tables[t].used - {slot})];
      agents := agents[a := Cleared(t)];
      ReleaseSlot(a, t);
      assert TableOk(View(), t) && IndexOk(View(), tables[t].index);
      assert agents == old(agents);
    }

    /** The second critical section of a release. */
    method ReleaseSlot(a: Agent, t: TableId)
      requires Inv(View()) && a < |agents| && agents[a] == Cleared(t)
      modifies this
      ensures Inv(View()) && IsReleased(old(View()), View(), a, t)
    {
      StepKeepsInv(View(), Release(a));
      ghost var r := GiveBack(View(), a, t).value;
      var i := tables[t].index;
      if tables[t].count == slots {
        available := available + {i};
      }
      tables := tables[t := tables[t].(count := tables[t].count - 1)];
      count := count - 1;
      if tables[t].count == 0 {
        taken := taken - {i};
        available := available - {i};
        attached := attached[i := None];
      }
      agents := agents[a := Idle];
      assert View() == r;
    }
  }
}
