/** Slot allocation in a two-level capability space, `cspace_twolevel.c`.

    An allocator reserves a slot in a table's count under the allocation lock and
    marks a bit of the table afterwards, without the lock; a free clears the bit
    first and gives the count back under the lock later; growing the cspace drops
    the lock. The search for a clear bit reads one word of the bitmap at a time.
    Agents interleave at all of these points. */
module CapSlots {
  import opened Outcomes
  import opened Sums

  /** `BITMAP_WORD_BITS`. */
  const WORD := 64

  type TableId = nat

  /** `count` is `cap_count`, `used` the bits set in `used_slots`. */
  datatype Table = Table(index: nat, count: nat, used: set<nat>)

  /** Where an agent is between two atomic accesses. A reserved agent is about to read
      word `word` of its table's bitmap. */
  datatype Pc =
    | Idle
    | NeedTable
    | Claiming(index: nat)
    | Claimed(index: nat)
    | TableReady(table: TableId)
    | Reserved(table: TableId, word: nat)
    | Marking(table: TableId, slot: nat)
    | Cleared(table: TableId)

  datatype State = State(
    slots: nat,
    maxCaps: nat,
    tables: seq<Table>,
    attached: seq<Option<TableId>>,
    taken: set<nat>,
    available: set<nat>,
    count: nat,
    agents: seq<Pc>)

  type Agent = nat

  // ----------------------------------------------------------------- counting

  /** Whether an agent accounts for one of table `t`'s reservations. */
  function Share(pc: Pc, t: TableId): (n: nat) {
    if (pc.Reserved? || pc.Marking? || pc.Cleared?) && pc.table == t then 1 else 0
  }

  function ShareOf(t: TableId): (f: Pc -> nat) {
    pc => Share(pc, t)
  }

  function Shares(agents: seq<Pc>, t: TableId): (n: nat) {
    Sum(agents, ShareOf(t))
  }

  function CountOf(x: Table): (n: nat) {
    x.count
  }

  /** The word an allocator is about to read, or in which it has picked a slot. */
  function Position(pc: Pc): (w: nat) {
    if pc.Reserved? then pc.word else if pc.Marking? then pc.slot / WORD else 0
  }

  /** Whether an agent looks for a slot of table `t` in word `w` or later. */
  function Seeks(pc: Pc, t: TableId, w: nat): (n: nat) {
    if (pc.Reserved? || pc.Marking?) && pc.table == t && Position(pc) >= w then 1 else 0
  }

  function SeeksOf(t: TableId, w: nat): (f: Pc -> nat) {
    pc => Seeks(pc, t, w)
  }

  function Seekers(agents: seq<Pc>, t: TableId, w: nat): (n: nat) {
    Sum(agents, SeeksOf(t, w))
  }

  /** The clear bits from word `w` on. */
  function ClearFrom(used: set<nat>, slots: nat, w: nat): (bits: set<nat>) {
    set l: nat | l < slots && w * WORD <= l && l !in used
  }

  // -------------------------------------------------------------------- steps

  datatype Step =
    | Check(agent: Agent)
    | FindIndex(agent: Agent)
    | Claim(agent: Agent)
    | NewTable(agent: Agent, success: bool)
    | Attach(agent: Agent)
    | FindSlot(agent: Agent)
    | Mark(agent: Agent)
    | Clear(agent: Agent, table: TableId, slot: nat)
    | Release(agent: Agent)

  /** `bitmap_ffs`/`bitmap_ffc`: the lowest index below `n` in (not in) the set. */
  function Lowest(bits: set<nat>, value: bool, n: nat, from: nat): (r: Option<nat>)
    decreases n - from
  {
    if from >= n then None
    else if (from in bits) == value then Some(from)
    else Lowest(bits, value, n, from + 1)
  }

  /** The end of word `w` of a bitmap of `n` bits. */
  function WordEnd(n: nat, w: nat): (e: nat) {
    if (w + 1) * WORD < n then (w + 1) * WORD else n
  }

  function SetPc(s: State, a: Agent, pc: Pc): (r: State)
    requires a < |s.agents|
  {
    s.(agents := s.agents[a := pc])
  }

  /** Only a slot in use is freed, by one agent at a time. */
  predicate Enabled(s: State, step: Step) {
    var a := step.agent;
    a < |s.agents| &&
    match step
    case Check(_) => s.agents[a].Idle?
    case FindIndex(_) => s.agents[a].NeedTable?
    case Claim(_) => s.agents[a].Claiming?
    case NewTable(_, _) => s.agents[a].Claimed?
    case Attach(_) => s.agents[a].TableReady?
    case FindSlot(_) => s.agents[a].Reserved?
    case Mark(_) => s.agents[a].Marking?
    case Clear(_, t, l) => s.agents[a].Idle? && t < |s.tables| && l in s.tables[t].used
    case Release(_) => s.agents[a].Cleared?
  }

  /** Take one slot of table `t`, under the allocation lock. */
  function Reserve(s: State, a: Agent, t: TableId): (r: State)
    requires a < |s.agents| && t < |s.tables|
  {
    var x := s.tables[t].(count := s.tables[t].count + 1);
    SetPc(s, a, Reserved(t, 0)).(
      tables := s.tables[t := x], count := s.count + 1,
      available := if x.count == s.slots then s.available - {x.index} else s.available)
  }

  /** Give one slot of table `t` back, under the allocation lock; an empty table is detached. */
  function GiveBack(s: State, a: Agent, t: TableId): (r: Result<State>)
    requires a < |s.agents|
  {
    if t >= |s.tables| || s.tables[t].count == 0 || s.count == 0 || s.tables[t].index >= |s.attached| then Panic
    else
      var i := s.tables[t].index;
      var x := s.tables[t].(count := s.tables[t].count - 1);
      var more := if s.tables[t].count == s.slots then s.available + {i} else s.available;
      var r := SetPc(s, a, Idle).(tables := s.tables[t := x], count := s.count - 1, available := more);
      if x.count > 0 then Done(r)
      else Done(r.(taken := s.taken - {i}, available := more - {i}, attached := s.attached[i := None]))
  }

  function Apply(s: State, step: Step): (r: Result<State>)
    requires Enabled(s, step)
  {
    var a := step.agent;
    var pc := s.agents[a];
    match step
    case Check(_) =>
      if s.count == s.maxCaps then Done(s)
      else
        var i := Lowest(s.available, true, |s.attached|, 0);
        if i.None? then Done(SetPc(s, a, NeedTable))
        else if i.value >= |s.attached| || s.attached[i.value].None? || s.attached[i.value].value >= |s.tables|
        then Panic
        else Done(Reserve(s, a, s.attached[i.value].value))
    case FindIndex(_) =>
      var i := Lowest(s.taken, false, |s.attached|, 0);
      Done(SetPc(s, a, if i.None? then Idle else Claiming(i.value)))
    case Claim(_) =>
      if pc.index in s.taken then Done(SetPc(s, a, NeedTable))
      else Done(SetPc(s, a, Claimed(pc.index)).(taken := s.taken + {pc.index}))
    case NewTable(_, success) =>
      if success then Done(SetPc(s, a, TableReady(|s.tables|)).(tables := s.tables + [Table(pc.index, 0, {})]))
      else Done(SetPc(s, a, Idle).(taken := s.taken - {pc.index}))
    case Attach(_) =>
      if pc.table >= |s.tables| || s.tables[pc.table].index >= |s.attached| then Panic
      else
        var i := s.tables[pc.table].index;
        Done(Reserve(s.(attached := s.attached[i := Some(pc.table)], available := s.available + {i}), a, pc.table))
    case FindSlot(_) =>
      if pc.table >= |s.tables| then Panic
      else
        if pc.word * WORD >= s.slots then Panic
        else
          var l := Lowest(s.tables[pc.table].used, false, WordEnd(s.slots, pc.word), pc.word * WORD);
          Done(SetPc(s, a, if l.None? then Reserved(pc.table, pc.word + 1) else Marking(pc.table, l.value)))
    case Mark(_) =>
      if pc.table >= |s.tables| then Panic
      else if pc.slot in s.tables[pc.table].used then Done(SetPc(s, a, Reserved(pc.table, 0)))
      else
        var x := s.tables[pc.table].(used := s.tables[pc.table].used + {pc.slot});
        Done(SetPc(s, a, Idle).(tables := s.tables[pc.table := x]))
    case Clear(_, t, l) =>
      Done(SetPc(s, a, Cleared(t)).(tables := s.tables[t := s.tables[t].(used := s.tables[t].used - {l})]))
    case Release(_) => GiveBack(s, a, pc.table)
  }

  /** An empty cspace. */
  predicate Init(s: State) {
    s.slots > 0 && s.tables == [] && (forall i | 0 <= i < |s.attached| :: s.attached[i].None?) &&
    s.taken == {} && s.available == {} && s.count == 0 && forall a | 0 <= a < |s.agents| :: s.agents[a].Idle?
  }

  ghost predicate Follows(states: seq<State>, steps: seq<Step>, i: nat)
    requires i < |steps| < |states|
  {
    Enabled(states[i], steps[i]) && Apply(states[i], steps[i]) == Done(states[i + 1])
  }

  ghost predicate IsPath(states: seq<State>, steps: seq<Step>) {
    |states| == |steps| + 1 && forall i | 0 <= i < |steps| :: Follows(states, steps, i)
  }

  ghost predicate IsRun(states: seq<State>, steps: seq<Step>) {
    IsPath(states, steps) && Init(states[0])
  }

  /** Some run ends in `s`. */
  ghost predicate Reachable(s: State) {
    exists states: seq<State>, steps: seq<Step> :: IsRun(states, steps) && states[|steps|] == s
  }

  // ---------------------------------------------------------------- invariant

  predicate IsAttached(s: State, t: TableId)
    requires t < |s.tables|
  {
    s.tables[t].index < |s.attached| && s.attached[s.tables[t].index] == Some(t)
  }

  /** The count of a table is its marked slots plus the slots in between. */
  predicate TableOk(s: State, t: TableId)
    requires t < |s.tables|
  {
    var x := s.tables[t];
    x.index < |s.attached| && (forall l | l in x.used :: l < s.slots) &&
    x.count == |x.used| + Shares(s.agents, t) && x.count <= s.slots &&
    (x.count > 0 <==> IsAttached(s, t))
  }

  /** The available bit is set exactly for an attached table that is not full. */
  predicate IndexOk(s: State, i: nat)
    requires i < |s.attached|
  {
    (s.attached[i].Some? ==>
       i in s.taken && s.attached[i].value < |s.tables| && s.tables[s.attached[i].value].index == i) &&
    (i in s.available <==> s.attached[i].Some? && s.attached[i].value < |s.tables| &&
                           s.tables[s.attached[i].value].count < s.slots)
  }

  /** The index an agent has claimed for a table it is about to attach. */
  function Claims(s: State, pc: Pc): (i: Option<nat>) {
    if pc.Claimed? then Some(pc.index)
    else if pc.TableReady? && pc.table < |s.tables| then Some(s.tables[pc.table].index)
    else None
  }

  predicate AgentOk(s: State, a: Agent)
    requires a < |s.agents|
  {
    var pc := s.agents[a];
    var i := Claims(s, pc);
    (i.Some? ==> i.value < |s.attached| && i.value in s.taken && s.attached[i.value].None?) &&
    (pc.Claiming? ==> pc.index < |s.attached|) &&
    (pc.TableReady? || pc.Reserved? || pc.Marking? || pc.Cleared? ==> pc.table < |s.tables|) &&
    (pc.Marking? ==> pc.slot < s.slots)
  }

  /** No two agents have claimed the same index. */
  predicate ClaimsApart(s: State) {
    forall a, b | 0 <= a < b < |s.agents| :: Claims(s, s.agents[a]).None? ||
                                             Claims(s, s.agents[a]) != Claims(s, s.agents[b])
  }

  /** From every word on, there are at least as many clear bits as agents that will
      still look for one there. */
  ghost predicate ScanOk(s: State, t: TableId)
    requires t < |s.tables|
  {
    forall w: nat :: Seekers(s.agents, t, w) <= |ClearFrom(s.tables[t].used, s.slots, w)|
  }

  ghost predicate Inv(s: State) {
    Consistent(s) && forall t | 0 <= t < |s.tables| :: ScanOk(s, t)
  }

  predicate Consistent(s: State) {
    s.slots > 0 && s.count == Sum(s.tables, CountOf) && ClaimsApart(s) &&
    (forall t | 0 <= t < |s.tables| :: TableOk(s, t)) &&
    (forall i | 0 <= i < |s.attached| :: IndexOk(s, i)) &&
    (forall i | i in s.available :: i < |s.attached|) &&
    (forall a | 0 <= a < |s.agents| :: AgentOk(s, a))
  }

  lemma {:induction false} LowestFinds(bits: set<nat>, value: bool, n: nat, from: nat)
    ensures var r := Lowest(bits, value, n, from);
            (r.None? ==> forall i | from <= i < n :: (i in bits) != value) &&
            (r.Some? ==> from <= r.value < n && (r.value in bits) == value &&
                         forall i | from <= i < r.value :: (i in bits) != value)
    decreases n - from
  {
    if from < n && (from in bits) != value { LowestFinds(bits, value, n, from + 1); }
  }

  /** Changing one agent's place changes the shares of the tables it leaves and enters only. */
  lemma TablesStay(s: State, r: State, a: Agent)
    requires Consistent(s) && a < |s.agents| == |r.agents|
    requires r == s.(agents := s.agents[a := r.agents[a]], taken := r.taken)
    requires forall t | 0 <= t < |s.tables| :: Share(r.agents[a], t) == Share(s.agents[a], t)
    ensures forall t | 0 <= t < |r.tables| :: TableOk(r, t)
  {
    forall t | 0 <= t < |r.tables| ensures TableOk(r, t) {
      assert TableOk(s, t);
      SumReplace(s.agents, a, r.agents[a], ShareOf(t));
    }
  }

  /** All of the invariant but the count and place of table `t`, which agent `a` is about to use. */
  predicate InvBut(s: State, a: Agent, t: TableId) {
    s.slots > 0 && s.count == Sum(s.tables, CountOf) && ClaimsApart(s) && a < |s.agents| && t < |s.tables| &&
    (forall u | 0 <= u < |s.tables| && u != t :: TableOk(s, u)) &&
    (forall i | 0 <= i < |s.attached| :: IndexOk(s, i)) && (forall i | i in s.available :: i < |s.attached|) &&
    (forall b | 0 <= b < |s.agents| && b != a :: AgentOk(s, b))
  }

  predicate HasRoom(s: State, t: TableId)
    requires t < |s.tables|
  {
    var x := s.tables[t];
    IsAttached(s, t) && (forall l | l in x.used :: l < s.slots) && x.count == |x.used| + Shares(s.agents, t) &&
    x.count < s.slots
  }

  lemma ReserveTables(s: State, a: Agent, t: TableId)
    requires InvBut(s, a, t) && HasRoom(s, t) && forall u | 0 <= u < |s.tables| :: Share(s.agents[a], u) == 0
    ensures var r := Reserve(s, a, t); forall u | 0 <= u < |r.tables| :: TableOk(r, u)
  {
    var r := Reserve(s, a, t);
    forall u | 0 <= u < |r.tables| ensures TableOk(r, u) {
      SumReplace(s.agents, a, Reserved(t, 0), ShareOf(u));
      if u != t { assert TableOk(s, u); }
    }
  }

  lemma ReserveIndices(s: State, a: Agent, t: TableId)
    requires InvBut(s, a, t) && HasRoom(s, t)
    ensures var r := Reserve(s, a, t); forall i | 0 <= i < |r.attached| :: IndexOk(r, i)
  {
    var r := Reserve(s, a, t);
    forall i | 0 <= i < |r.attached| ensures IndexOk(r, i) {
      assert IndexOk(s, i);
    }
  }

  lemma ReserveKeeps(s: State, a: Agent, t: TableId)
    requires InvBut(s, a, t) && HasRoom(s, t) && forall u | 0 <= u < |s.tables| :: Share(s.agents[a], u) == 0
    ensures Consistent(Reserve(s, a, t))
  {
    var r := Reserve(s, a, t);
    ReserveTables(s, a, t);
    ReserveIndices(s, a, t);
    SumReplace(s.tables, t, r.tables[t], CountOf);
    forall b | 0 <= b < |r.agents| ensures AgentOk(r, b) &&
    (b != a ==> Claims(r, r.agents[b]) == Claims(s, s.agents[b])) {
      if b != a { assert AgentOk(s, b); }
    }
    assert Claims(r, r.agents[a]).None?;
  }

  lemma CheckStep(s: State, step: Step)
    requires Consistent(s) && Enabled(s, step) && step.Check?
    ensures Apply(s, step).Done? && Consistent(Apply(s, step).value)
  {
    var a := step.agent;
    assert AgentOk(s, a);
    LowestFinds(s.available, true, |s.attached|, 0);
    var i := Lowest(s.available, true, |s.attached|, 0);
    if s.count != s.maxCaps && i.Some? {
      assert IndexOk(s, i.value);
      var t := s.attached[i.value].value;
      assert TableOk(s, t);
      ReserveKeeps(s, a, t);
    } else if s.count != s.maxCaps {
      LocalStep(s, SetPc(s, a, NeedTable), a);
    }
  }

  /** A step that touches the agent's place and claims only. */
  lemma LocalStep(s: State, r: State, a: Agent)
    requires Consistent(s) && a < |s.agents| && |r.agents| == |s.agents|
    requires r == s.(agents := s.agents[a := r.agents[a]])
    requires forall t | 0 <= t < |s.tables| :: Share(r.agents[a], t) == Share(s.agents[a], t)
    requires AgentOk(r, a) && Claims(r, r.agents[a]).None?
    ensures Consistent(r)
  {
    TablesStay(s, r, a);
    forall i | 0 <= i < |r.attached| ensures IndexOk(r, i) { assert IndexOk(s, i); }
    forall b | 0 <= b < |r.agents| ensures AgentOk(r, b) { if b != a { assert AgentOk(s, b); } }
  }

  lemma ClaimStep(s: State, step: Step)
    requires Consistent(s) && Enabled(s, step) && step.Claim?
    ensures Apply(s, step).Done? && Consistent(Apply(s, step).value)
  {
    var a := step.agent;
    var i := s.agents[a].index;
    var r := Apply(s, step).value;
    assert AgentOk(s, a);
    if i in s.taken {
      LocalStep(s, r, a);
    } else {
      assert IndexOk(s, i);
      TablesStay(s, r, a);
      forall j | 0 <= j < |r.attached| ensures IndexOk(r, j) { assert IndexOk(s, j); }
      forall b | 0 <= b < |r.agents| ensures AgentOk(r, b) { if b != a { assert AgentOk(s, b); } }
      forall b | 0 <= b < |s.agents| && b != a ensures Claims(r, r.agents[b]) != Some(i) { assert AgentOk(s, b); }
    }
  }

  lemma NewTableStep(s: State, step: Step)
    requires Consistent(s) && Enabled(s, step) && step.NewTable?
    ensures Apply(s, step).Done? && Consistent(Apply(s, step).value)
  {
    var a := step.agent;
    var r := Apply(s, step).value;
    assert AgentOk(s, a);
    if step.success {
      NewTableTables(s, r, a);
      assert r.tables[..|s.tables|] == s.tables;
    } else {
      TablesStay(s, r, a);
    }
    forall j | 0 <= j < |r.attached| ensures IndexOk(r, j) { assert IndexOk(s, j); }
    NewTableAgents(s, r, a);
  }

  lemma NewTableTables(s: State, r: State, a: Agent)
    requires Consistent(s) && a < |s.agents| && s.agents[a].Claimed?
    requires r == SetPc(s, a, TableReady(|s.tables|)).(tables := s.tables + [Table(s.agents[a].index, 0, {})])
    ensures forall t | 0 <= t < |r.tables| :: TableOk(r, t)
  {
    assert AgentOk(s, a);
    forall t | 0 <= t < |r.tables| ensures TableOk(r, t) {
      SumReplace(s.agents, a, r.agents[a], ShareOf(t));
      if t < |s.tables| {
        assert TableOk(s, t);
      } else {
        SharesOfUnknown(s, t);
      }
    }
  }

  lemma NewTableAgents(s: State, r: State, a: Agent)
    requires Consistent(s) && Enabled(s, NewTable(a, true))
    requires exists success :: Apply(s, NewTable(a, success)) == Done(r)
    ensures ClaimsApart(r) && forall b | 0 <= b < |r.agents| :: AgentOk(r, b)
  {
    assert AgentOk(s, a);
    forall b | 0 <= b < |s.agents| && b != a ensures Claims(s, s.agents[b]) == Claims(r, r.agents[b]) && AgentOk(r, b) {
      assert AgentOk(s, b);
    }
  }

  lemma SharesOfUnknown(s: State, t: TableId)
    requires Consistent(s) && t >= |s.tables|
    ensures Shares(s.agents, t) == 0
  {
    forall a | 0 <= a < |s.agents| ensures ShareOf(t)(s.agents[a]) == 0 {
      assert AgentOk(s, a);
    }
    SumZero(s.agents, ShareOf(t));
  }

  lemma AttachStep(s: State, step: Step)
    requires Consistent(s) && Enabled(s, step) && step.Attach?
    ensures Apply(s, step).Done? && Consistent(Apply(s, step).value)
  {
    var a := step.agent;
    var t := s.agents[a].table;
    assert AgentOk(s, a);
    assert TableOk(s, t);
    var i := s.tables[t].index;
    var m := s.(attached := s.attached[i := Some(t)], available := s.available + {i});
    forall u | 0 <= u < |m.tables| && u != t ensures TableOk(m, u) { assert TableOk(s, u); }
    forall j | 0 <= j < |m.attached| ensures IndexOk(m, j) { assert IndexOk(s, j); }
    forall b | 0 <= b < |m.agents| && b != a ensures AgentOk(m, b) { assert AgentOk(s, b); }
    ReserveKeeps(m, a, t);
  }

  lemma WordOf(l: nat, w: nat)
    requires w * WORD <= l < (w + 1) * WORD
    ensures l / WORD == w
  {
  }

  lemma FindSlotStep(s: State, step: Step)
    requires Inv(s) && Enabled(s, step) && step.FindSlot?
    ensures Apply(s, step).Done? && Consistent(Apply(s, step).value)
  {
    var a := step.agent;
    var t, w := s.agents[a].table, s.agents[a].word;
    assert AgentOk(s, a);
    ReservedHasRoom(s, a);
    LowestFinds(s.tables[t].used, false, WordEnd(s.slots, w), w * WORD);
    LocalStep(s, Apply(s, step).value, a);
  }

  /** Marking or clearing a bit moves one unit between the bitmap and the agent. */
  lemma BitStep(s: State, r: State, a: Agent, t: TableId, used: set<nat>)
    requires Consistent(s) && a < |s.agents| && |r.agents| == |s.agents| && t < |s.tables|
    requires r == s.(agents := s.agents[a := r.agents[a]], tables := s.tables[t := s.tables[t].(used := used)])
    requires (forall l | l in used :: l < s.slots) &&
             |used| + Share(r.agents[a], t) == |s.tables[t].used| + Share(s.agents[a], t)
    requires forall u | 0 <= u < |s.tables| && u != t :: Share(r.agents[a], u) == Share(s.agents[a], u)
    requires AgentOk(r, a) && Claims(r, r.agents[a]).None? && Claims(s, s.agents[a]).None?
    ensures Consistent(r)
  {
    SumReplace(s.tables, t, r.tables[t], CountOf);
    forall u | 0 <= u < |r.tables| ensures TableOk(r, u) {
      assert TableOk(s, u);
      SumReplace(s.agents, a, r.agents[a], ShareOf(u));
    }
    forall j | 0 <= j < |r.attached| ensures IndexOk(r, j) { assert IndexOk(s, j); }
    forall b | 0 <= b < |r.agents| ensures AgentOk(r, b) { if b != a { assert AgentOk(s, b); } }
  }

  lemma MarkStep(s: State, step: Step)
    requires Consistent(s) && Enabled(s, step) && step.Mark?
    ensures Apply(s, step).Done? && Consistent(Apply(s, step).value)
  {
    var a := step.agent;
    assert AgentOk(s, a);
    var t, l := s.agents[a].table, s.agents[a].slot;
    assert TableOk(s, t);
    var r := Apply(s, step).value;
    if l in s.tables[t].used {
      LocalStep(s, r, a);
    } else {
      BitStep(s, r, a, t, s.tables[t].used + {l});
    }
  }

  lemma ClearStep(s: State, step: Step)
    requires Consistent(s) && Enabled(s, step) && step.Clear?
    ensures Apply(s, step).Done? && Consistent(Apply(s, step).value)
  {
    assert AgentOk(s, step.agent);
    assert TableOk(s, step.table);
    BitStep(s, Apply(s, step).value, step.agent, step.table, s.tables[step.table].used - {step.slot});
  }

  lemma ReleaseStep(s: State, step: Step)
    requires Consistent(s) && Enabled(s, step) && step.Release?
    ensures Apply(s, step).Done? && Consistent(Apply(s, step).value)
  {
    var a := step.agent;
    assert AgentOk(s, a);
    var t := s.agents[a].table;
    assert TableOk(s, t);
    SumReplace(s.agents, a, Idle, ShareOf(t));
    SumReplace(s.tables, t, s.tables[t], CountOf);
    var r := Apply(s, step).value;
    ReleaseTables(s, r, a, t);
    ReleaseIndices(s, r, a, t);
    SumReplace(s.tables, t, r.tables[t], CountOf);
    ReleaseAgents(s, r, a, t);
  }

  lemma ReleaseIndices(s: State, r: State, a: Agent, t: TableId)
    requires Consistent(s) && a < |s.agents| && s.agents[a] == Cleared(t) && t < |s.tables|
    requires GiveBack(s, a, t) == Done(r)
    ensures (forall j | 0 <= j < |r.attached| :: IndexOk(r, j)) && forall i | i in r.available :: i < |r.attached|
  {
    assert TableOk(s, t);
    forall j | 0 <= j < |r.attached| ensures IndexOk(r, j) { assert IndexOk(s, j); }
  }

  lemma ReleaseAgents(s: State, r: State, a: Agent, t: TableId)
    requires Consistent(s) && a < |s.agents| && s.agents[a] == Cleared(t) && t < |s.tables|
    requires GiveBack(s, a, t) == Done(r)
    ensures ClaimsApart(r) && forall b | 0 <= b < |r.agents| :: AgentOk(r, b)
  {
    assert TableOk(s, t);
    forall b | 0 <= b < |s.agents| && b != a ensures Claims(s, s.agents[b]) == Claims(r, r.agents[b]) && AgentOk(r, b) {
      assert AgentOk(s, b);
    }
  }

  lemma ReleaseTables(s: State, r: State, a: Agent, t: TableId)
    requires Consistent(s) && a < |s.agents| && s.agents[a] == Cleared(t) && t < |s.tables|
    requires GiveBack(s, a, t) == Done(r)
    ensures forall u | 0 <= u < |r.tables| :: TableOk(r, u)
  {
    assert TableOk(s, t);
    assert IndexOk(s, s.tables[t].index);
    forall u | 0 <= u < |r.tables| ensures TableOk(r, u) {
      assert TableOk(s, u);
      SumReplace(s.agents, a, Idle, ShareOf(u));
    }
  }

  lemma StepKeepsCounts(s: State, step: Step)
    requires Inv(s) && Enabled(s, step)
    ensures Apply(s, step).Done? && Consistent(Apply(s, step).value)
  {
    match step {
      case Check(_) => CheckStep(s, step);
      case FindIndex(_) =>
        LowestFinds(s.taken, false, |s.attached|, 0);
        LocalStep(s, Apply(s, step).value, step.agent);
      case Claim(_) => ClaimStep(s, step);
      case NewTable(_, _) => NewTableStep(s, step);
      case Attach(_) => AttachStep(s, step);
      case FindSlot(_) => FindSlotStep(s, step);
      case Release(_) => ReleaseStep(s, step);
      case Mark(_) => MarkStep(s, step);
      case Clear(_, _, _) => ClearStep(s, step);
    }
  }

  // ----------------------------------------------------------------- the search

  lemma {:induction false} ClearCount(used: set<nat>, slots: nat)
    requires forall l | l in used :: l < slots
    ensures |ClearFrom(used, slots, 0)| == slots - |used|
  {
    if slots == 0 {
      assert used == {} by { assert forall l | l in used :: false; }
    } else if slots - 1 in used {
      ClearCount(used - {slots - 1}, slots - 1);
      assert ClearFrom(used, slots, 0) == ClearFrom(used - {slots - 1}, slots - 1, 0);
    } else {
      ClearCount(used, slots - 1);
      assert ClearFrom(used, slots, 0) == ClearFrom(used, slots - 1, 0) + {slots - 1};
    }
  }

  /** Every reservation has a clear bit from the place on where its agent looks, so
      the search never runs off the end of the bitmap, whatever others do meanwhile. */
  lemma ReservedHasRoom(s: State, a: Agent)
    requires Inv(s) && a < |s.agents| && s.agents[a].Reserved?
    ensures s.agents[a].table < |s.tables| && s.agents[a].word * WORD < s.slots
    ensures ClearFrom(s.tables[s.agents[a].table].used, s.slots, s.agents[a].word) != {}
  {
    assert AgentOk(s, a);
    var t, w := s.agents[a].table, s.agents[a].word;
    assert ScanOk(s, t);
    SumReplace(s.agents, a, Idle, SeeksOf(t, w));
    var bits := ClearFrom(s.tables[t].used, s.slots, w);
    assert 0 < Seekers(s.agents, t, w) <= |bits|;
    var l :| l in bits;
  }

  /** From word 0 on, the count of the table settles it. */
  lemma ScanStart(s: State, t: TableId)
    requires Consistent(s) && t < |s.tables|
    ensures Seekers(s.agents, t, 0) <= |ClearFrom(s.tables[t].used, s.slots, 0)|
  {
    assert TableOk(s, t);
    ClearCount(s.tables[t].used, s.slots);
    SumAtMost(s.agents, SeeksOf(t, 0), ShareOf(t));
  }

  /** An agent moves on while the bits of the table stay: it seeks no further on than before. */
  lemma ScanMove(s: State, r: State, a: Agent, t: TableId)
    requires t < |s.tables| <= |r.tables| && ScanOk(s, t) && Consistent(r) && r.slots == s.slots
    requires a < |s.agents| == |r.agents| && r.agents == s.agents[a := r.agents[a]]
    requires r.tables[t].used == s.tables[t].used
    requires forall w: nat | w > 0 :: Seeks(r.agents[a], t, w) <= Seeks(s.agents[a], t, w)
    ensures ScanOk(r, t)
  {
    forall w: nat ensures Seekers(r.agents, t, w) <= |ClearFrom(r.tables[t].used, r.slots, w)| {
      if w == 0 {
        ScanStart(r, t);
      } else {
        SumReplace(s.agents, a, r.agents[a], SeeksOf(t, w));
        assert Seekers(s.agents, t, w) <= |ClearFrom(s.tables[t].used, s.slots, w)|;
      }
    }
  }

  /** Passing over a full word: all clear bits that were left for it lie further on. */
  lemma ScanPass(s: State, r: State, a: Agent, t: TableId, p: nat)
    requires t < |s.tables| && ScanOk(s, t) && a < |s.agents| && s.agents[a] == Reserved(t, p)
    requires r == SetPc(s, a, Reserved(t, p + 1))
    requires forall l: nat | p * WORD <= l < WordEnd(s.slots, p) :: l in s.tables[t].used
    ensures ScanOk(r, t)
  {
    var used := s.tables[t].used;
    forall w: nat ensures Seekers(r.agents, t, w) <= |ClearFrom(used, r.slots, w)| {
      SumReplace(s.agents, a, r.agents[a], SeeksOf(t, w));
      assert Seekers(s.agents, t, w) <= |ClearFrom(used, s.slots, w)|;
      if w == p + 1 {
        SumAtMost(s.agents[a := Idle], SeeksOf(t, w), SeeksOf(t, p));
        SumReplace(s.agents, a, Idle, SeeksOf(t, w));
        SumReplace(s.agents, a, Idle, SeeksOf(t, p));
        assert Seekers(s.agents, t, p) <= |ClearFrom(used, s.slots, p)|;
        assert ClearFrom(used, s.slots, p) == ClearFrom(used, s.slots, w);
      }
    }
  }

  /** Setting the picked bit takes it away from the words up to its own, and its agent too. */
  lemma ScanMark(s: State, r: State, a: Agent, t: TableId, l: nat)
    requires t < |s.tables| && ScanOk(s, t) && a < |s.agents| && s.agents[a] == Marking(t, l) && l !in s.tables[t].used
    requires r == SetPc(s, a, Idle).(tables := s.tables[t := s.tables[t].(used := s.tables[t].used + {l})])
    requires l < s.slots
    ensures ScanOk(r, t)
  {
    var used := s.tables[t].used;
    forall w: nat ensures Seekers(r.agents, t, w) <= |ClearFrom(used + {l}, r.slots, w)| {
      SumReplace(s.agents, a, Idle, SeeksOf(t, w));
      assert Seekers(s.agents, t, w) <= |ClearFrom(used, s.slots, w)|;
      if w * WORD <= l {
        assert ClearFrom(used, s.slots, w) == ClearFrom(used + {l}, r.slots, w) + {l};
      } else {
        assert ClearFrom(used, s.slots, w) == ClearFrom(used + {l}, r.slots, w);
      }
    }
  }

  /** Clearing a bit only makes room. */
  lemma ScanClear(s: State, r: State, a: Agent, t: TableId, l: nat)
    requires t < |s.tables| && ScanOk(s, t) && a < |s.agents| && s.agents[a].Idle?
    requires r == SetPc(s, a, Cleared(t)).(tables := s.tables[t := s.tables[t].(used := s.tables[t].used - {l})])
    ensures ScanOk(r, t)
  {
    var used := s.tables[t].used;
    forall w: nat ensures Seekers(r.agents, t, w) <= |ClearFrom(used - {l}, r.slots, w)| {
      SumReplace(s.agents, a, Cleared(t), SeeksOf(t, w));
      assert Seekers(s.agents, t, w) <= |ClearFrom(used, s.slots, w)|;
      SubsetSize(ClearFrom(used, s.slots, w), ClearFrom(used - {l}, r.slots, w));
    }
  }

  lemma ScanNewTable(s: State, r: State, t: TableId)
    requires Inv(s) && Consistent(r) && t == |s.tables| < |r.tables| && Shares(r.agents, t) == 0
    ensures ScanOk(r, t)
  {
    forall w: nat ensures Seekers(r.agents, t, w) <= |ClearFrom(r.tables[t].used, r.slots, w)| {
      SumAtMost(r.agents, SeeksOf(t, w), ShareOf(t));
    }
  }

  lemma SlotScan(s: State, step: Step, t: TableId)
    requires Inv(s) && Enabled(s, step) && Apply(s, step).Done? && Consistent(Apply(s, step).value) && t < |s.tables|
    requires step.FindSlot? || step.Mark?
    ensures ScanOk(Apply(s, step).value, t)
  {
    var a, r := step.agent, Apply(s, step).value;
    var pc := s.agents[a];
    assert ScanOk(s, t) && AgentOk(s, a);
    if step.FindSlot? && pc.table == t {
      LowestFinds(s.tables[t].used, false, WordEnd(s.slots, pc.word), pc.word * WORD);
      if r.agents[a].Reserved? {
        ScanPass(s, r, a, t, pc.word);
      } else {
        WordOf(r.agents[a].slot, pc.word);
        ScanMove(s, r, a, t);
      }
    } else if step.Mark? && pc.table == t && pc.slot !in s.tables[t].used {
      ScanMark(s, r, a, t, pc.slot);
    } else {
      ScanMove(s, r, a, t);
    }
  }

  /** A step outside the search changes the bits of no table but the one it clears in,
      and its agent does not come to seek anything beyond word 0. */
  lemma OtherMoves(s: State, step: Step, t: TableId)
    requires Consistent(s) && Enabled(s, step) && Apply(s, step).Done? && t < |s.tables|
    requires !step.FindSlot? && !step.Mark?
    ensures var a, r := step.agent, Apply(s, step).value;
            r.slots == s.slots && |s.tables| <= |r.tables| && r.agents == s.agents[a := r.agents[a]] &&
            ((step.Clear? && step.table == t) || r.tables[t].used == s.tables[t].used) &&
            !r.agents[a].Marking? && (r.agents[a].Reserved? ==> r.agents[a].word == 0)
  {
    assert AgentOk(s, step.agent);
  }

  lemma OtherScan(s: State, step: Step, t: TableId)
    requires Inv(s) && Enabled(s, step) && Apply(s, step).Done? && Consistent(Apply(s, step).value)
    requires t < |Apply(s, step).value.tables| && !step.FindSlot? && !step.Mark?
    ensures ScanOk(Apply(s, step).value, t)
  {
    if step.NewTable? {
      TableScan(s, step, t);
    } else if step.Clear? && step.table == t {
      assert ScanOk(s, t);
      ScanClear(s, Apply(s, step).value, step.agent, t, step.slot);
    } else {
      MoveScan(s, step, t);
    }
  }

  lemma EmptyUnshared(s: State, t: TableId)
    requires Consistent(s) && t < |s.tables| && s.tables[t].count == 0
    ensures Shares(s.agents, t) == 0
  {
    assert TableOk(s, t);
  }

  lemma TableScan(s: State, step: Step, t: TableId)
    requires Inv(s) && Enabled(s, step) && Apply(s, step).Done? && Consistent(Apply(s, step).value)
    requires t < |Apply(s, step).value.tables| && step.NewTable?
    ensures ScanOk(Apply(s, step).value, t)
  {
    var r := Apply(s, step).value;
    if t == |s.tables| {
      assert r.tables[t].count == 0;
      EmptyUnshared(r, t);
      ScanNewTable(s, r, t);
    } else {
      MoveScan(s, step, t);
    }
  }

  lemma MoveScan(s: State, step: Step, t: TableId)
    requires Inv(s) && Enabled(s, step) && Apply(s, step).Done? && Consistent(Apply(s, step).value)
    requires t < |s.tables| && !step.FindSlot? && !step.Mark? && !(step.Clear? && step.table == t)
    ensures ScanOk(Apply(s, step).value, t)
  {
    OtherMoves(s, step, t);
    assert ScanOk(s, t);
    ScanMove(s, Apply(s, step).value, step.agent, t);
  }

  lemma StepKeepsInv(s: State, step: Step)
    requires Inv(s) && Enabled(s, step)
    ensures Apply(s, step).Done? && Inv(Apply(s, step).value)
  {
    StepKeepsCounts(s, step);
    var r := Apply(s, step).value;
    forall t | 0 <= t < |r.tables| ensures ScanOk(r, t) {
      if step.FindSlot? || step.Mark? {
        SlotScan(s, step, t);
      } else {
        OtherScan(s, step, t);
      }
    }
  }

  // ---------------------------------------------------------------- whole runs

  lemma {:induction false} InvHolds(states: seq<State>, steps: seq<Step>, k: nat)
    requires IsRun(states, steps) && k <= |steps|
    ensures Inv(states[k])
  {
    if k > 0 {
      InvHolds(states, steps, k - 1);
      assert Follows(states, steps, k - 1);
      StepKeepsInv(states[k - 1], steps[k - 1]);
    } else {
      assert Init(states[0]);
    }
  }

  /** In every interleaving no allocator searches its table in vain, although others
      mark and clear bits while it reads the bitmap word by word; no count goes below
      zero, and no index leads to a missing table. */
  lemma PanicsAreUnreachable(states: seq<State>, steps: seq<Step>, k: nat, step: Step)
    requires IsRun(states, steps) && k <= |steps| && Enabled(states[k], step)
    ensures Apply(states[k], step).Done?
  {
    InvHolds(states, steps, k);
    StepKeepsInv(states[k], step);
  }

  /** Reserved in the count but not yet marked. */
  function Unmarked(pc: Pc, t: TableId): (n: nat) {
    if (pc.Reserved? || pc.Marking?) && pc.table == t then 1 else 0
  }

  /** Cleared but not yet given back to the count. */
  function Undecremented(pc: Pc, t: TableId): (n: nat) {
    if pc == Cleared(t) then 1 else 0
  }

  lemma {:induction false} SharesSplit(agents: seq<Pc>, t: TableId)
    ensures Shares(agents, t) == Sum(agents, pc => Unmarked(pc, t)) + Sum(agents, pc => Undecremented(pc, t))
  {
    if agents != [] { SharesSplit(agents[..|agents| - 1], t); }
  }

  lemma CountsAreExact(states: seq<State>, steps: seq<Step>, k: nat, t: TableId)
    requires IsRun(states, steps) && k <= |steps| && t < |states[k].tables|
    ensures var s := states[k];
            s.count == Sum(s.tables, CountOf) &&
            s.tables[t].count ==
              |s.tables[t].used| + Sum(s.agents, pc => Unmarked(pc, t)) + Sum(s.agents, pc => Undecremented(pc, t)) &&
            (s.tables[t].count > 0 <==> IsAttached(s, t))
  {
    InvHolds(states, steps, k);
    assert TableOk(states[k], t);
    SharesSplit(states[k].agents, t);
  }

  lemma AvailableIffNotFull(states: seq<State>, steps: seq<Step>, k: nat, i: nat)
    requires IsRun(states, steps) && k <= |steps|
    ensures var s := states[k];
            i in s.available <==> i < |s.attached| && s.attached[i].Some? && s.attached[i].value < |s.tables| &&
                                  s.tables[s.attached[i].value].count < s.slots
  {
    InvHolds(states, steps, k);
    if i < |states[k].attached| { assert IndexOk(states[k], i); }
  }

  // ------------------------------------------------------------------- indices

  /** An agent has claimed the index for a table it is about to attach. */
  ghost predicate IsClaimed(s: State, i: nat) {
    exists a | 0 <= a < |s.agents| :: Claims(s, s.agents[a]) == Some(i)
  }

  predicate HasTable(s: State, i: nat) {
    i < |s.attached| && s.attached[i].Some?
  }

  /** A claim lasts until the index is given back or has its table. */
  lemma ClaimLasts(s: State, step: Step, i: nat)
    requires Consistent(s) && Enabled(s, step) && Apply(s, step).Done? && IsClaimed(s, i)
    ensures var r := Apply(s, step).value; IsClaimed(r, i) || HasTable(r, i) || i !in r.taken
  {
    var r := Apply(s, step).value;
    var b :| 0 <= b < |s.agents| && Claims(s, s.agents[b]) == Some(i);
    if b != step.agent {
      OtherClaims(s, step, b);
      assert Claims(r, r.agents[b]) == Some(i);
    } else {
      assert AgentOk(s, b);
      if step.NewTable? && step.success { assert Claims(r, r.agents[b]) == Some(i); }
    }
  }

  lemma OtherClaims(s: State, step: Step, b: Agent)
    requires Enabled(s, step) && Apply(s, step).Done? && b < |s.agents| && b != step.agent
    ensures var r := Apply(s, step).value;
            |r.agents| == |s.agents| &&
            (Claims(s, s.agents[b]).Some? ==> Claims(r, r.agents[b]) == Claims(s, s.agents[b]))
  {
  }

  lemma TakenStep(s: State, step: Step, i: nat)
    requires Inv(s) && Enabled(s, step) && Apply(s, step).Done? && i in Apply(s, step).value.taken
    requires i in s.taken ==> HasTable(s, i) || IsClaimed(s, i)
    ensures HasTable(Apply(s, step).value, i) || IsClaimed(Apply(s, step).value, i)
  {
    var r := Apply(s, step).value;
    if i !in s.taken {
      assert Claims(r, r.agents[step.agent]) == Some(i);
    } else if HasTable(s, i) {
      assert IndexOk(s, i) && AgentOk(s, step.agent);
    } else {
      ClaimLasts(s, step, i);
    }
  }

  /** No index leaks: one is taken exactly as long as it has a table attached or an agent
      is about to attach one there. */
  lemma {:induction false} NoIndexLeaks(states: seq<State>, steps: seq<Step>, k: nat, i: nat)
    requires IsRun(states, steps) && k <= |steps|
    ensures i in states[k].taken <==> HasTable(states[k], i) || IsClaimed(states[k], i)
  {
    InvHolds(states, steps, k);
    if k > 0 {
      InvHolds(states, steps, k - 1);
      assert Follows(states, steps, k - 1);
      NoIndexLeaks(states, steps, k - 1, i);
      if i in states[k].taken { TakenStep(states[k - 1], steps[k - 1], i); }
    }
    if HasTable(states[k], i) {
      assert IndexOk(states[k], i);
    } else if IsClaimed(states[k], i) {
      var a :| 0 <= a < |states[k].agents| && Claims(states[k], states[k].agents[a]) == Some(i);
      assert AgentOk(states[k], a);
    }
  }
}
