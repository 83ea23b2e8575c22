/** The limit on the number of capabilities of a cspace. An allocation that has to
    grow the cspace checks the limit, drops the lock, and counts its slot only after
    it has attached a new table. The limit therefore holds exactly as long as no
    allocation passes the check when the slots counted and the allocations under way
    have used it up. */
module CapLimit {
  import opened Outcomes
  import opened Sums
  import opened CapSlots

  /** Between the check of the limit and the reservation, with the lock dropped. */
  function Grows(pc: Pc): (n: nat) {
    if pc.NeedTable? || pc.Claiming? || pc.Claimed? || pc.TableReady? then 1 else 0
  }

  function Growers(s: State): (n: nat) {
    Sum(s.agents, Grows)
  }

  /** Every slot counted, or sure to be counted by an allocation under way, is within the limit. */
  predicate WithinLimit(s: State) {
    s.count + Growers(s) <= s.maxCaps
  }

  /** An allocation passes the check although those under way will use the limit up. */
  predicate Overcommits(s: State, step: Step) {
    step.Check? && s.count < s.maxCaps <= s.count + Growers(s)
  }

  /** The guard is exact: from within the limit a step leaves it if and only if it overcommits. */
  lemma LimitStepIff(s: State, step: Step)
    requires Inv(s) && WithinLimit(s) && Enabled(s, step)
    ensures Apply(s, step).Done? && (WithinLimit(Apply(s, step).value) <==> !Overcommits(s, step))
  {
    StepKeepsInv(s, step);
    var a, r := step.agent, Apply(s, step).value;
    assert AgentOk(s, a);
    SumReplace(s.agents, a, r.agents[a], Grows);
    assert r.agents == s.agents[a := r.agents[a]] && r.maxCaps == s.maxCaps;
  }

  /** The limit holds throughout every run in which no check overcommits. */
  lemma {:induction false} LimitHolds(states: seq<State>, steps: seq<Step>, k: nat)
    requires IsRun(states, steps) && k <= |steps|
    requires forall i | 0 <= i < k :: !Overcommits(states[i], steps[i])
    ensures WithinLimit(states[k]) && states[k].count <= states[k].maxCaps
  {
    if k == 0 {
      SumZero(states[0].agents, Grows);
    } else {
      LimitHolds(states, steps, k - 1);
      InvHolds(states, steps, k - 1);
      assert Follows(states, steps, k - 1);
      LimitStepIff(states[k - 1], steps[k - 1]);
    }
  }

  // -------------------------------------------------- growers pass the limit alone

  /** An allocation that has no index yet. */
  function Unplaced(pc: Pc): (n: nat) {
    if pc.NeedTable? || pc.Claiming? then 1 else 0
  }

  function Free(s: State): (indices: set<nat>) {
    set i: nat | i < |s.attached| && i !in s.taken
  }

  /** There is an index left for every allocation that still needs one. */
  ghost predicate Enough(s: State) {
    Sum(s.agents, Unplaced) <= |Free(s)|
  }

  /** `t` can be reached from `s`. */
  ghost predicate Leads(s: State, t: State) {
    exists states: seq<State>, steps: seq<Step> :: IsPath(states, steps) && states[0] == s && states[|steps|] == t
  }

  lemma LeadsToSelf(s: State)
    ensures Leads(s, s)
  {
    assert IsPath([s], []);
  }

  lemma LeadsOn(s: State, t: State, step: Step, u: State)
    requires Leads(s, t) && Enabled(t, step) && Apply(t, step) == Done(u)
    ensures Leads(s, u)
  {
    var states: seq<State>, steps: seq<Step> :| IsPath(states, steps) && states[0] == s && states[|steps|] == t;
    var states', steps' := states + [u], steps + [step];
    forall i | 0 <= i < |steps'| ensures Follows(states', steps', i) {
      if i < |steps| { assert Follows(states, steps, i); }
    }
    assert IsPath(states', steps');
  }

  lemma LeadsJoin(s: State, t: State, u: State)
    requires Leads(s, t) && Leads(t, u)
    ensures Leads(s, u)
  {
    var states: seq<State>, steps: seq<Step> :| IsPath(states, steps) && states[0] == s && states[|steps|] == t;
    var states': seq<State>, steps': seq<Step> :| IsPath(states', steps') && states'[0] == t && states'[|steps'|] == u;
    var all, both := states[..|steps|] + states', steps + steps';
    forall i | 0 <= i < |both| ensures Follows(all, both, i) {
      if i < |steps| {
        assert Follows(states, steps, i);
      } else {
        assert Follows(states', steps', i - |steps|);
        assert all[i] == states'[i - |steps|] && all[i + 1] == states'[i + 1 - |steps|];
      }
    }
    assert IsPath(all, both);
  }

  /** What growing allocations keep on the way from `s0`. */
  ghost predicate Way(s0: State, s: State) {
    Leads(s0, s) && Inv(s) && Enough(s) && s.maxCaps == s0.maxCaps && s.count + Growers(s) == s0.count + Growers(s0)
  }

  ghost predicate Only(s: State, t: State, a: Agent) {
    a < |s.agents| == |t.agents| && t.agents == s.agents[a := t.agents[a]]
  }

  /** An allocation under way takes one step. */
  lemma Go(s0: State, s: State, step: Step) returns (t: State)
    requires Way(s0, s) && Enabled(s, step) && Grows(s.agents[step.agent]) == 1
    requires step.FindIndex? ==> Lowest(s.taken, false, |s.attached|, 0).Some?
    requires step.NewTable? ==> step.success
    ensures Apply(s, step) == Done(t) && Way(s0, t) && Only(s, t, step.agent)
  {
    StepKeepsInv(s, step);
    t := Apply(s, step).value;
    LeadsOn(s0, s, step, t);
    SumReplace(s.agents, step.agent, t.agents[step.agent], Grows);
    StaysEnough(s, step, t);
  }

  lemma StaysEnough(s: State, step: Step, t: State)
    requires Inv(s) && Enough(s) && Enabled(s, step) && Apply(s, step) == Done(t) && Grows(s.agents[step.agent]) == 1
    requires step.NewTable? ==> step.success
    ensures Enough(t)
  {
    var a := step.agent;
    assert AgentOk(s, a);
    assert t.agents == s.agents[a := t.agents[a]];
    SumReplace(s.agents, a, t.agents[a], Unplaced);
    if step.Claim? && s.agents[a].index !in s.taken {
      assert Free(s) == Free(t) + {s.agents[a].index};
    } else {
      assert Free(s) == Free(t);
    }
  }

  lemma IndexLeft(s: State, a: Agent)
    requires Enough(s) && a < |s.agents| && Unplaced(s.agents[a]) == 1
    ensures Lowest(s.taken, false, |s.attached|, 0).Some?
  {
    SumReplace(s.agents, a, Idle, Unplaced);
    assert |Free(s)| > 0;
    var i :| i in Free(s);
    LowestFinds(s.taken, false, |s.attached|, 0);
  }

  /** A new index is claimed at the first attempt when nobody else moves. */
  lemma GetIndex(s0: State, s: State, a: Agent) returns (t: State)
    requires Way(s0, s) && a < |s.agents| && s.agents[a].NeedTable?
    ensures Way(s0, t) && Only(s, t, a) && t.agents[a].Claimed?
  {
    IndexLeft(s, a);
    LowestFinds(s.taken, false, |s.attached|, 0);
    var r := Go(s0, s, FindIndex(a));
    t := Go(s0, r, Claim(a));
  }

  lemma AttachTable(s0: State, s: State, a: Agent) returns (t: State)
    requires Way(s0, s) && a < |s.agents| && (s.agents[a].Claimed? || s.agents[a].TableReady?)
    ensures Way(s0, t) && Only(s, t, a) && t.agents[a].Reserved?
  {
    var r := s;
    if s.agents[a].Claimed? {
      r := Go(s0, s, NewTable(a, true));
    }
    t := Go(s0, r, Attach(a));
  }

  /** One allocation under way comes to its reservation. */
  lemma Grow(s0: State, s: State, a: Agent) returns (t: State)
    requires Way(s0, s) && a < |s.agents| && Grows(s.agents[a]) == 1
    ensures Way(s0, t) && Only(s, t, a) && t.agents[a].Reserved?
  {
    var r := s;
    if r.agents[a].Claiming? {
      r := Go(s0, r, Claim(a));
    }
    if r.agents[a].NeedTable? {
      r := GetIndex(s0, r, a);
    }
    t := AttachTable(s0, r, a);
  }

  lemma {:induction false} GrowAll(s0: State, s: State) returns (t: State)
    requires Way(s0, s)
    ensures Way(s0, t) && Growers(t) == 0
    decreases Growers(s)
  {
    SumZero(s.agents, Grows);
    if Growers(s) == 0 {
      t := s;
    } else {
      var a :| 0 <= a < |s.agents| && Grows(s.agents[a]) == 1;
      var r := Grow(s0, s, a);
      SumReplace(s.agents, a, r.agents[a], Grows);
      t := GrowAll(s0, r);
    }
  }

  /** The other half: once the slots counted and the allocations under way exceed the
      limit, and indices are left for them, those allocations alone pass it. */
  lemma GrowersPassLimit(s: State)
    requires Inv(s) && Enough(s) && !WithinLimit(s)
    ensures exists t :: Leads(s, t) && t.maxCaps == s.maxCaps < t.count == s.count + Growers(s)
  {
    LeadsToSelf(s);
    var t := GrowAll(s, s);
  }

  /** Two allocations that check an empty cspace for one capability pass its limit. */
  lemma LimitCanBePassed()
    ensures exists s, t :: Init(s) && Leads(s, t) && t.maxCaps == 1 && t.count == 2
  {
    var n: Option<TableId> := None;
    var s0 := State(2, 1, [], [n, n], {}, {}, 0, [Idle, Idle]);
    var s1, s2 := s0.(agents := [NeedTable, Idle]), s0.(agents := [NeedTable, NeedTable]);
    LowestFinds({}, true, 2, 0);
    assert s0.agents[0 := NeedTable] == s1.agents && s1.agents[1 := NeedTable] == s2.agents;
    LeadsToSelf(s0);
    LeadsOn(s0, s0, Check(0), s1);
    LeadsOn(s0, s1, Check(1), s2);
    assert Inv(s0) by { InvHolds([s0], [], 0); }
    StepKeepsInv(s0, Check(0));
    StepKeepsInv(s1, Check(1));
    var t := BothGrow(s2);
    LeadsJoin(s0, s2, t);
  }

  lemma SumOfTwo(x: Pc, y: Pc, f: Pc -> nat)
    ensures Sum([x, y], f) == f(x) + f(y)
  {
    assert [x, y][..1] == [x] && [x][..0] == [];
    assert Sum([x], f) == f(x);
  }

  lemma BothGrow(s: State) returns (t: State)
    requires Inv(s) && s == State(2, 1, [], [None, None], {}, {}, 0, [NeedTable, NeedTable])
    ensures Leads(s, t) && t.maxCaps == 1 && t.count == 2
  {
    SumOfTwo(NeedTable, NeedTable, Grows);
    SumOfTwo(NeedTable, NeedTable, Unplaced);
    assert Free(s) == {0, 1};
    GrowersPassLimit(s);
    t :| Leads(s, t) && t.maxCaps == s.maxCaps < t.count == 2;
  }

  // ------------------------------------------------------ once the limit is passed

  /** On the way from `s0` only agent `a` has moved, and it has counted `n` more slots. */
  ghost predicate Alone(s0: State, s: State, a: Agent, n: nat) {
    Leads(s0, s) && Inv(s) && Only(s0, s, a) && s.count == s0.count + n && s.maxCaps == s0.maxCaps
  }

  lemma Move(s0: State, s: State, a: Agent, n: nat, step: Step) returns (t: State)
    requires Alone(s0, s, a, n) && Enabled(s, step) && step.agent == a
    ensures Apply(s, step) == Done(t) && Leads(s0, t) && Inv(t) && Only(s0, t, a) && t.maxCaps == s0.maxCaps
  {
    StepKeepsInv(s, step);
    t := Apply(s, step).value;
    LeadsOn(s0, s, step, t);
    assert AgentOk(s, a);
    assert t.agents == s.agents[a := t.agents[a]];
  }

  /** The search reads on word by word; nobody takes the slot it finds. */
  lemma {:induction false} PlaceSlot(s0: State, s: State, a: Agent, n: nat) returns (t: State)
    requires Alone(s0, s, a, n) && s.agents[a].Reserved?
    ensures Alone(s0, t, a, n) && t.agents[a].Idle?
    decreases s.slots - s.agents[a].word * WORD
  {
    ReservedHasRoom(s, a);
    var pc := s.agents[a];
    var r := Move(s0, s, a, n, FindSlot(a));
    if r.agents[a].Reserved? {
      t := PlaceSlot(s0, r, a, n);
    } else {
      LowestFinds(s.tables[pc.table].used, false, WordEnd(s.slots, pc.word), pc.word * WORD);
      t := Move(s0, r, a, n, Mark(a));
    }
  }

  /** An agent without competitors makes a table for a free index. */
  lemma NewRoom(s0: State, s: State, a: Agent, n: nat) returns (t: State)
    requires Alone(s0, s, a, n) && s.agents[a].NeedTable? && Free(s) != {}
    ensures Alone(s0, t, a, n + 1) && t.agents[a].Reserved?
  {
    var i :| i in Free(s);
    LowestFinds(s.taken, false, |s.attached|, 0);
    var r := Move(s0, s, a, n, FindIndex(a));
    r := Move(s0, r, a, n, Claim(a));
    r := Move(s0, r, a, n, NewTable(a, true));
    t := Move(s0, r, a, n, Attach(a));
  }

  /** One more slot, whatever the limit, as long as the count is not exactly at it. */
  lemma OneMore(s0: State, s: State, a: Agent, n: nat) returns (t: State)
    requires Alone(s0, s, a, n) && s.agents[a].Idle? && s.count != s.maxCaps && (s.available != {} || Free(s) != {})
    ensures Alone(s0, t, a, n + 1) && t.agents[a].Idle?
  {
    LowestFinds(s.available, true, |s.attached|, 0);
    var r := Move(s0, s, a, n, Check(a));
    if r.agents[a].NeedTable? {
      NoneAvailable(s);
      r := NewRoom(s0, r, a, n);
    }
    t := PlaceSlot(s0, r, a, n + 1);
  }

  lemma NoneAvailable(s: State)
    requires Inv(s) && forall i | 0 <= i < |s.attached| :: i !in s.available
    ensures s.available == {}
  {
  }

  /** Every index is taken and no table has room. */
  predicate Exhausted(s: State) {
    s.available == {} && forall i | 0 <= i < |s.attached| :: i in s.taken
  }

  lemma {:induction false} GrowBy(s: State, a: Agent, n: nat) returns (t: State)
    requires Inv(s) && a < |s.agents| && s.agents[a].Idle? && s.count > s.maxCaps
    ensures a < |t.agents| && t.agents[a].Idle?
    ensures Alone(s, t, a, n) || (Exhausted(t) && exists m: nat :: Alone(s, t, a, m))
  {
    if n == 0 {
      t := s;
      LeadsToSelf(s);
      assert s.agents[a := s.agents[a]] == s.agents;
    } else {
      t := GrowBy(s, a, n - 1);
      if !Exhausted(t) {
        if t.available == {} {
          var i: nat :| i < |t.attached| && i !in t.taken;
          assert i in Free(t);
        }
        t := OneMore(s, t, a, n - 1);
      }
    }
  }

  /** The limit is tested by equality, so once it is passed nothing stops an allocation
      any more: a single agent can raise the count by any number, or until the cspace
      has no room at all. */
  lemma PassedLimitStopsNobody(s: State, a: Agent, n: nat)
    requires Inv(s) && a < |s.agents| && s.agents[a].Idle? && s.count > s.maxCaps
    ensures exists t :: Leads(s, t) && t.maxCaps == s.maxCaps && s.count <= t.count &&
                        (t.count == s.count + n || Exhausted(t))
  {
    var t := GrowBy(s, a, n);
  }
}
