/** What every interleaving of capability operations keeps, and what follows for
    whole runs: an object's list is its valid capabilities with the master first,
    rights only shrink, and the creation reference is dropped once. */
module CapDerivationSafety {
  import opened Outcomes
  import opened Lists
  import opened Sums
  import opened CapDerivation

  // ---------------------------------------------------------------- invariant

  predicate SlotOk(s: State, v: SlotId)
    requires v < |s.slots|
  {
    var x := s.slots[v];
    x.cspace < |s.revoked| &&
    (!x.data.state.NullCap? ==> x.held) &&
    (x.data.state.ValidCap? ==> x.data.obj < |s.objects| && v in s.objects[x.data.obj].list) &&
    (x.data.state.RevokedCap? ==> v in s.revoked[x.cspace])
  }

  /** The slot is a valid capability to `o`, with no more than its master's rights. */
  predicate IsCapOf(s: State, v: SlotId, o: ObjectId)
    requires o < |s.objects|
  {
    v < |s.slots| && s.slots[v].data.state.ValidCap? && s.slots[v].data.obj == o &&
    s.slots[v].data.kind == s.objects[o].kind && s.slots[v].data.rights <= s.objects[o].masterRights &&
    (s.slots[v].data.master ==> s.slots[v].data.rights == s.objects[o].masterRights)
  }

  predicate ObjectOk(s: State, o: ObjectId)
    requires o < |s.objects|
  {
    var x := s.objects[o];
    Distinct(x.list) &&
    (forall i | 0 <= i < |x.list| :: IsCapOf(s, x.list[i], o)) &&
    (forall i | 0 < i < |x.list| :: !s.slots[x.list[i]].data.master) &&
    (!x.created ==> x.list == []) &&
    PendingPuts(s.agents, o) + x.puts == if x.created && x.list == [] then 1 else 0
  }

  predicate RevokedOk(s: State, c: CspaceId)
    requires c < |s.revoked|
  {
    Distinct(s.revoked[c]) &&
    forall i | 0 <= i < |s.revoked[c]| ::
      var v := s.revoked[c][i]; v < |s.slots| && s.slots[v].data.state.RevokedCap? && s.slots[v].cspace == c
  }

  /** The slot an agent has to itself: in use, but not yet or no longer a capability. */
  function Private(pc: Pc): (v: Option<SlotId>) {
    if pc.CopySlot? || pc.CopyLoaded? then Some(pc.copy)
    else if pc.Unlinked? then Some(pc.slot)
    else None
  }

  predicate AgentOk(s: State, pc: Pc) {
    (Private(pc).Some? ==>
       Private(pc).value < |s.slots| && s.slots[Private(pc).value].held &&
       s.slots[Private(pc).value].data.state.NullCap?) &&
    (pc.CopyLoaded? ==> pc.parent < |s.slots| && pc.data.state.ValidCap? && pc.data.obj < |s.objects| &&
                        pc.data.rights * pc.mask != {}) &&
    (pc.Deleting? || pc.RevokeLoaded? ==> pc.slot < |s.slots| && !pc.data.state.NullCap?) &&
    (pc.Deleting? && pc.data.state.ValidCap? ==> pc.data.obj < |s.objects|) &&
    (pc.RevokeLoaded? ==> pc.data.state.ValidCap? && pc.data.master && pc.data.obj < |s.objects|) &&
    (pc.Unlinked? && pc.put.Some? ==> pc.put.value < |s.objects|) &&
    (pc.Revoking? ==> pc.obj < |s.objects| && s.objects[pc.obj].list != [] && s.objects[pc.obj].list[0] == pc.master &&
                      pc.master < |s.slots| && s.slots[pc.master].data.master)
  }

  /** Private slots are private, and a cap-list lock has one holder. */
  predicate Apart(s: State) {
    forall a, b | 0 <= a < b < |s.agents| ::
      (Private(s.agents[a]).None? || Private(s.agents[a]) != Private(s.agents[b])) &&
      !(s.agents[a].Revoking? && s.agents[b].Revoking? && s.agents[a].obj == s.agents[b].obj)
  }

  predicate Inv(s: State) {
    Apart(s) &&
    (forall v | 0 <= v < |s.slots| :: SlotOk(s, v)) &&
    (forall o | 0 <= o < |s.objects| :: ObjectOk(s, o)) &&
    (forall c | 0 <= c < |s.revoked| :: RevokedOk(s, c)) &&
    (forall a | 0 <= a < |s.agents| :: AgentOk(s, s.agents[a]))
  }

  function Puts(pc: Pc, o: ObjectId): (n: nat) {
    if pc.Unlinked? && pc.put == Some(o) then 1 else 0
  }

  function PutsOf(o: ObjectId): (f: Pc -> nat) {
    pc => Puts(pc, o)
  }

  /** Agents about to drop the creation reference of `o`. */
  function PendingPuts(agents: seq<Pc>, o: ObjectId): (n: nat) {
    Sum(agents, PutsOf(o))
  }

  /** A capability is in the list of its object and in no other list. */
  lemma ListedOnce(s: State, v: SlotId, o: ObjectId, c: CspaceId)
    requires Inv(s) && v < |s.slots|
    ensures o < |s.objects| && v in s.objects[o].list ==> s.slots[v].data.state.ValidCap? && s.slots[v].data.obj == o
    ensures c < |s.revoked| && v in s.revoked[c] ==> s.slots[v].data.state.RevokedCap? && s.slots[v].cspace == c
  {
    if o < |s.objects| { assert ObjectOk(s, o); }
    if c < |s.revoked| { assert RevokedOk(s, c); }
  }

  // ---------------------------------- changes of one slot, object, cspace, agent

  predicate Delta(s: State, r: State, v: SlotId, o: ObjectId, c: CspaceId, a: Agent) {
    v < |s.slots| == |r.slots| && o < |s.objects| == |r.objects| && c < |s.revoked| == |r.revoked| &&
    a < |s.agents| == |r.agents| &&
    r.slots == s.slots[v := r.slots[v]] && r.objects == s.objects[o := r.objects[o]] &&
    r.revoked == s.revoked[c := r.revoked[c]] && r.agents == s.agents[a := r.agents[a]]
  }

  ghost predicate OthersStay(s: State, r: State, v: SlotId, o: ObjectId, c: CspaceId)
    requires o < |s.objects| == |r.objects| && c < |s.revoked| == |r.revoked|
  {
    forall u: SlotId :: u != v ==> (u in r.objects[o].list <==> u in s.objects[o].list) &&
                                   (u in r.revoked[c] <==> u in s.revoked[c])
  }

  lemma DeltaSlots(s: State, r: State, v: SlotId, o: ObjectId, c: CspaceId, a: Agent)
    requires Inv(s) && Delta(s, r, v, o, c, a) && OthersStay(s, r, v, o, c) && SlotOk(r, v)
    ensures forall u | 0 <= u < |r.slots| :: SlotOk(r, u)
  {
    forall u | 0 <= u < |r.slots| ensures SlotOk(r, u) {
      assert SlotOk(s, u);
    }
  }

  lemma DeltaObjects(s: State, r: State, v: SlotId, o: ObjectId, c: CspaceId, a: Agent)
    requires Inv(s) && Delta(s, r, v, o, c, a) && ObjectOk(r, o)
    requires r.slots[v].data == s.slots[v].data || !(s.slots[v].data.state.ValidCap? && s.slots[v].data.obj != o)
    requires forall p | 0 <= p < |s.objects| && p != o :: Puts(r.agents[a], p) == Puts(s.agents[a], p)
    ensures forall p | 0 <= p < |r.objects| :: ObjectOk(r, p)
  {
    forall p | 0 <= p < |r.objects| ensures ObjectOk(r, p) {
      assert ObjectOk(s, p);
      SumReplace(s.agents, a, r.agents[a], PutsOf(p));
      if p != o {
        ListedOnce(s, v, p, c);
        var list := s.objects[p].list;
        forall i | 0 <= i < |list| ensures IsCapOf(r, list[i], p) && r.slots[list[i]].data == s.slots[list[i]].data {
          assert IsCapOf(s, list[i], p) && list[i] in list;
        }
      }
    }
  }

  lemma DeltaRevoked(s: State, r: State, v: SlotId, o: ObjectId, c: CspaceId, a: Agent)
    requires Inv(s) && Delta(s, r, v, o, c, a) && RevokedOk(r, c) && r.slots[v].cspace == s.slots[v].cspace
    requires r.slots[v].data == s.slots[v].data || !(s.slots[v].data.state.RevokedCap? && s.slots[v].cspace != c)
    ensures forall d | 0 <= d < |r.revoked| :: RevokedOk(r, d)
  {
    forall d | 0 <= d < |r.revoked| ensures RevokedOk(r, d) {
      assert RevokedOk(s, d);
      if d != c { ListedOnce(s, v, o, d); }
    }
  }

  /** What another agent relies on stays: its private slot, and the master it revokes from. */
  predicate Undisturbed(s: State, r: State, v: SlotId, o: ObjectId, pc: Pc)
    requires v < |s.slots| == |r.slots| && o < |s.objects| == |r.objects|
  {
    (Private(pc) == Some(v) ==> r.slots[v] == s.slots[v]) &&
    (pc.Revoking? ==> (pc.obj == o ==> r.objects[o].list != [] && r.objects[o].list[0] == pc.master) &&
                      (pc.master == v ==> r.slots[v].data.master))
  }

  lemma DeltaAgents(s: State, r: State, v: SlotId, o: ObjectId, c: CspaceId, a: Agent)
    requires Inv(s) && Delta(s, r, v, o, c, a) && AgentOk(r, r.agents[a])
    requires forall b | 0 <= b < |s.agents| && b != a :: Undisturbed(s, r, v, o, s.agents[b])
    ensures forall b | 0 <= b < |r.agents| :: AgentOk(r, r.agents[b])
  {
    forall b | 0 <= b < |r.agents| ensures AgentOk(r, r.agents[b]) {
      if b != a {
        assert AgentOk(s, s.agents[b]) && Undisturbed(s, r, v, o, s.agents[b]);
      }
    }
  }

  /** An agent's new place clashes with nobody's. */
  predicate Joins(s: State, a: Agent, pc: Pc) {
    forall b | 0 <= b < |s.agents| && b != a ::
      (Private(pc).None? || Private(pc) != Private(s.agents[b])) &&
      !(pc.Revoking? && s.agents[b].Revoking? && pc.obj == s.agents[b].obj)
  }

  lemma DeltaKeepsInv(s: State, r: State, v: SlotId, o: ObjectId, c: CspaceId, a: Agent)
    requires Inv(s) && Delta(s, r, v, o, c, a) && OthersStay(s, r, v, o, c) && r.slots[v].cspace == s.slots[v].cspace
    requires SlotOk(r, v) && ObjectOk(r, o) && RevokedOk(r, c) && AgentOk(r, r.agents[a]) && Joins(s, a, r.agents[a])
    requires r.slots[v].data == s.slots[v].data ||
             (!(s.slots[v].data.state.ValidCap? && s.slots[v].data.obj != o) &&
              !(s.slots[v].data.state.RevokedCap? && s.slots[v].cspace != c))
    requires forall p | 0 <= p < |s.objects| && p != o :: Puts(r.agents[a], p) == Puts(s.agents[a], p)
    requires forall b | 0 <= b < |s.agents| && b != a :: Undisturbed(s, r, v, o, s.agents[b])
    ensures Inv(r)
  {
    DeltaSlots(s, r, v, o, c, a);
    DeltaObjects(s, r, v, o, c, a);
    DeltaRevoked(s, r, v, o, c, a);
    DeltaAgents(s, r, v, o, c, a);
    DeltaApart(s, r, v, o, c, a);
  }

  lemma DeltaApart(s: State, r: State, v: SlotId, o: ObjectId, c: CspaceId, a: Agent)
    requires Apart(s) && Delta(s, r, v, o, c, a) && Joins(s, a, r.agents[a])
    ensures Apart(r)
  {
  }

  /** A step that moves an agent, and at most takes or gives back a slot without data. */
  lemma PlainStep(s: State, r: State, v: SlotId, a: Agent)
    requires Inv(s) && v < |s.slots| == |r.slots| && a < |s.agents| == |r.agents|
    requires r == s.(slots := s.slots[v := s.slots[v].(held := r.slots[v].held)], agents := s.agents[a := r.agents[a]])
    requires r.slots[v].held == s.slots[v].held || s.slots[v].data.state.NullCap?
    requires AgentOk(r, r.agents[a]) && Joins(s, a, r.agents[a])
    requires r.slots[v].held == s.slots[v].held || forall b | 0 <= b < |s.agents| &&
             b != a :: Private(s.agents[b]) != Some(v)
    requires forall p | 0 <= p < |s.objects| :: Puts(r.agents[a], p) == Puts(s.agents[a], p)
    ensures Inv(r)
  {
    forall u | 0 <= u < |r.slots| ensures SlotOk(r, u) { assert SlotOk(s, u); }
    forall o | 0 <= o < |r.objects| ensures ObjectOk(r, o) {
      assert ObjectOk(s, o);
      SumReplace(s.agents, a, r.agents[a], PutsOf(o));
      forall i | 0 <= i < |s.objects[o].list| ensures IsCapOf(r, s.objects[o].list[i], o) {
        assert IsCapOf(s, s.objects[o].list[i], o);
      }
    }
    forall c | 0 <= c < |r.revoked| ensures RevokedOk(r, c) { assert RevokedOk(s, c); }
    forall b | 0 <= b < |r.agents| ensures AgentOk(r, r.agents[b]) {
      if b != a { assert AgentOk(s, s.agents[b]); }
    }
  }

  // ---------------------------------------------------------- steps, one by one

  /** The master of a revocation in progress is a valid capability to its object. */
  lemma MasterIsValid(s: State, b: Agent)
    requires Inv(s) && b < |s.agents| && s.agents[b].Revoking?
    ensures var pc := s.agents[b];
            pc.master < |s.slots| && s.slots[pc.master].data.state.ValidCap? && s.slots[pc.master].data.obj == pc.obj
  {
    var pc := s.agents[b];
    assert AgentOk(s, pc) && ObjectOk(s, pc.obj);
    assert IsCapOf(s, s.objects[pc.obj].list[0], pc.obj);
  }

  lemma CreateStep(s: State, step: Step)
    requires Inv(s) && Enabled(s, step) && step.CreateMaster?
    ensures Apply(s, step).Done? && Inv(Apply(s, step).value)
  {
    var v, o, a := step.slot, step.obj, step.agent;
    assert SlotOk(s, v) && ObjectOk(s, o);
    var c := s.slots[v].cspace;
    var r := Apply(s, step).value;
    assert RevokedOk(s, c) && AgentOk(s, s.agents[a]);
    forall b | 0 <= b < |s.agents| && b != a ensures Undisturbed(s, r, v, o, s.agents[b]) {
      assert AgentOk(s, s.agents[b]);
    }
    assert r.objects[o].list == [v];
    assert s.revoked[c := s.revoked[c]] == s.revoked && s.agents[a := s.agents[a]] == s.agents;
    ListedOnce(s, v, o, c);
    DeltaKeepsInv(s, r, v, o, c, a);
  }

  lemma CopyFinishStep(s: State, step: Step)
    requires Inv(s) && Enabled(s, step) && step.CopyFinish?
    ensures Apply(s, step).Done? && Inv(Apply(s, step).value)
  {
    var a := step.agent;
    var pc := s.agents[a];
    assert AgentOk(s, pc);
    var r := Apply(s, step);
    if s.slots[pc.parent].data != pc.data {
      PlainStep(s, r.value, pc.copy, a);
    } else {
      var v, o, c := pc.copy, pc.data.obj, s.slots[pc.copy].cspace;
      assert SlotOk(s, pc.parent) && SlotOk(s, v) && ObjectOk(s, o) && RevokedOk(s, c);
      ListedOnce(s, v, o, c);
      forall u: SlotId ensures u in r.value.objects[o].list <==> u in s.objects[o].list || u == v {
        InsertFacts(s.objects[o].list, pc.parent, v, u);
      }
      CopyObject(s, r.value, a);
      assert s.revoked[c := s.revoked[c]] == s.revoked;
      forall b | 0 <= b < |s.agents| && b != a ensures Undisturbed(s, r.value, v, o, s.agents[b]) {
        assert AgentOk(s, s.agents[b]);
        if s.agents[b].Revoking? { MasterIsValid(s, b); }
      }
      DeltaKeepsInv(s, r.value, v, o, c, a);
    }
  }

  /** The copy is a capability to the same object and comes behind its parent. */
  lemma CopyObject(s: State, r: State, a: Agent)
    requires Inv(s) && Enabled(s, CopyFinish(a)) && ApplyCopyFinish(s, a) == Done(r)
    requires s.agents[a].parent < |s.slots| && s.slots[s.agents[a].parent].data == s.agents[a].data
    ensures s.agents[a].data.obj < |r.objects| && ObjectOk(r, s.agents[a].data.obj)
  {
    var pc := s.agents[a];
    assert AgentOk(s, pc) && SlotOk(s, pc.parent);
    var v, o := pc.copy, pc.data.obj;
    assert ObjectOk(s, o);
    ListedOnce(s, v, o, 0);
    SumReplace(s.agents, a, r.agents[a], PutsOf(o));
    var list := r.objects[o].list;
    InsertFacts(s.objects[o].list, pc.parent, v, v);
    assert IsCapOf(s, pc.parent, o) by {
      var i :| 0 <= i < |s.objects[o].list| && s.objects[o].list[i] == pc.parent;
    }
    forall i | 0 <= i < |list| ensures IsCapOf(r, list[i], o) && (i > 0 ==> !r.slots[list[i]].data.master) {
      assert list[i] in list;
      InsertFacts(s.objects[o].list, pc.parent, v, list[i]);
      if list[i] != v {
        var j :| 0 <= j < |s.objects[o].list| && s.objects[o].list[j] == list[i];
        assert IsCapOf(s, list[i], o);
      }
    }
  }

  /** Taking a capability out of its object's list keeps the object. */
  lemma UnlinkObject(s: State, r: State, v: SlotId, o: ObjectId, a: Agent)
    requires Inv(s) && v < |s.slots| == |r.slots| && o < |s.objects| == |r.objects| && a < |s.agents| == |r.agents|
    requires v in s.objects[o].list && !r.slots[v].data.state.ValidCap?
    requires r.slots == s.slots[v := r.slots[v]]
    requires r.objects[o] == s.objects[o].(list := Without<SlotId>(s.objects[o].list, v))
    requires r.agents == s.agents[a := r.agents[a]]
    requires Puts(s.agents[a], o) == 0 && (Puts(r.agents[a], o) == if r.objects[o].list == [] then 1 else 0)
    ensures ObjectOk(r, o)
    ensures forall u: SlotId :: u in r.objects[o].list <==> u in s.objects[o].list && u != v
  {
    assert ObjectOk(s, o);
    SumReplace(s.agents, a, r.agents[a], PutsOf(o));
    var before, list := s.objects[o].list, r.objects[o].list;
    WithoutFacts(before, v);
    forall i | 0 <= i < |list| ensures IsCapOf(r, list[i], o) && (i > 0 ==> !r.slots[list[i]].data.master) {
      assert list[i] in list;
      var j :| 0 <= j < |before| && before[j] == list[i];
      assert IsCapOf(s, before[j], o);
    }
  }

  lemma DeleteValidStep(s: State, step: Step)
    requires Inv(s) && Enabled(s, step) && step.DeleteFinish? && s.agents[step.agent].data.state.ValidCap?
    requires s.agents[step.agent].slot < |s.slots|
    requires s.slots[s.agents[step.agent].slot].data == s.agents[step.agent].data
    ensures Apply(s, step).Done? && Inv(Apply(s, step).value)
  {
    var a := step.agent;
    var pc := s.agents[a];
    assert AgentOk(s, pc) && SlotOk(s, pc.slot);
    var v, o, c := pc.slot, pc.data.obj, s.slots[pc.slot].cspace;
    assert RevokedOk(s, c);
    var r := Apply(s, step).value;
    ListedOnce(s, v, o, c);
    UnlinkObject(s, r, v, o, a);
    assert s.revoked[c := s.revoked[c]] == s.revoked;
    forall b | 0 <= b < |s.agents| && b != a
      ensures Undisturbed(s, r, v, o, s.agents[b]) && Private(s.agents[b]) != Some(v)
    {
      assert AgentOk(s, s.agents[b]);
      if s.agents[b].Revoking? { MasterIsValid(s, b); }
    }
    forall i | 0 <= i < |s.revoked[c]| ensures s.revoked[c][i] != v { assert s.revoked[c][i] in s.revoked[c]; }
    DeltaKeepsInv(s, r, v, o, c, a);
  }

  lemma DeleteRevokedStep(s: State, step: Step)
    requires Inv(s) && Enabled(s, step) && step.DeleteFinish? && s.agents[step.agent].data.state.RevokedCap?
    requires s.agents[step.agent].slot < |s.slots|
    requires s.slots[s.agents[step.agent].slot].data == s.agents[step.agent].data
    ensures Apply(s, step).Done? && Inv(Apply(s, step).value)
  {
    var a := step.agent;
    var pc := s.agents[a];
    assert AgentOk(s, pc) && SlotOk(s, pc.slot);
    var v, c := pc.slot, s.slots[pc.slot].cspace;
    assert RevokedOk(s, c);
    var r := Apply(s, step).value;
    var list := r.revoked[c];
    WithoutFacts(s.revoked[c], v);
    DeleteRevokedLists(s, r, v, c);
    forall u | 0 <= u < |r.slots| ensures SlotOk(r, u) { assert SlotOk(s, u); }
    DeleteRevokedObjects(s, r, v, a);
    forall b | 0 <= b < |r.agents| ensures AgentOk(r, r.agents[b]) && (b != a ==> Private(s.agents[b]) != Some(v)) {
      assert AgentOk(s, s.agents[b]);
      if s.agents[b].Revoking? { MasterIsValid(s, b); }
    }
  }

  lemma DeleteRevokedLists(s: State, r: State, v: SlotId, c: CspaceId)
    requires Inv(s) && v < |s.slots| && s.slots[v].data.state.RevokedCap? && s.slots[v].cspace == c < |s.revoked|
    requires r.slots == s.slots[v := s.slots[v].(data := NULL_DATA)] &&
             r.revoked == s.revoked[c := Without<SlotId>(s.revoked[c], v)]
    ensures forall d | 0 <= d < |r.revoked| :: RevokedOk(r, d)
  {
    forall d | 0 <= d < |r.revoked| ensures RevokedOk(r, d) {
      assert RevokedOk(s, d);
      var list := r.revoked[d];
      WithoutFacts(s.revoked[d], v);
      forall i | 0 <= i < |list| ensures list[i] != v && list[i] in s.revoked[d] {
        assert list[i] in list;
        ListedOnce(s, v, 0, d);
      }
    }
  }

  lemma DeleteRevokedObjects(s: State, r: State, v: SlotId, a: Agent)
    requires Inv(s) && v < |s.slots| && s.slots[v].data.state.RevokedCap? && a < |s.agents|
    requires r.slots == s.slots[v := s.slots[v].(data := NULL_DATA)] && r.objects == s.objects
    requires s.agents[a].Deleting? && r.agents == s.agents[a := Unlinked(v, None)]
    ensures forall o | 0 <= o < |r.objects| :: ObjectOk(r, o)
  {
    forall o | 0 <= o < |r.objects| ensures ObjectOk(r, o) {
      assert ObjectOk(s, o);
      SumReplace(s.agents, a, r.agents[a], PutsOf(o));
      forall i | 0 <= i < |s.objects[o].list| ensures IsCapOf(r, s.objects[o].list[i], o) {
        assert IsCapOf(s, s.objects[o].list[i], o);
      }
    }
  }

  lemma RevokeNextStep(s: State, step: Step)
    requires Inv(s) && Enabled(s, step) && step.RevokeNext?
    ensures Apply(s, step).Done? && Inv(Apply(s, step).value)
  {
    var a := step.agent;
    var o := s.agents[a].obj;
    RevokeNextFacts(s, a);
    var v := s.objects[o].list[1];
    var c := s.slots[v].cspace;
    var r := Apply(s, step).value;
    assert s.agents[a := s.agents[a]] == s.agents;
    UnlinkObject(s, r, v, o, a);
    RevokedGrows(s, r, v, c);
    forall b | 0 <= b < |s.agents| && b != a ensures Undisturbed(s, r, v, o, s.agents[b]) {
      assert AgentOk(s, s.agents[b]);
    }
    DeltaKeepsInv(s, r, v, o, c, a);
  }

  /** The capability behind the master is a valid one and not the master. */
  lemma RevokeNextFacts(s: State, a: Agent)
    requires Inv(s) && Enabled(s, RevokeNext(a))
    ensures var pc := s.agents[a];
            var list := s.objects[pc.obj].list;
            list[0] == pc.master != list[1] && list[1] in list &&
            Without<SlotId>(list, list[1]) == [list[0]] + list[2..] &&
            IsCapOf(s, list[1], pc.obj) && !s.slots[list[1]].data.master && SlotOk(s, list[1]) &&
            pc.master < |s.slots| && AgentOk(s, pc)
  {
    var pc := s.agents[a];
    assert AgentOk(s, pc) && ObjectOk(s, pc.obj);
    var list := s.objects[pc.obj].list;
    assert IsCapOf(s, list[1], pc.obj);
    assert SlotOk(s, list[1]);
    assert Without<SlotId>(list[1..], list[1]) == list[2..];
  }

  lemma RevokedGrows(s: State, r: State, v: SlotId, c: CspaceId)
    requires Inv(s) && v < |s.slots| && s.slots[v].data.state.ValidCap? &&
             s.slots[v].cspace == c < |s.revoked| == |r.revoked|
    requires r.slots == s.slots[v := s.slots[v].(data := RevokedData(s.slots[v].data))] &&
             r.revoked[c] == [v] + s.revoked[c]
    ensures RevokedOk(r, c)
  {
    assert RevokedOk(s, c);
    ListedOnce(s, v, 0, c);
    assert r.revoked[c][1..] == s.revoked[c];
  }

  lemma FreeStep(s: State, step: Step)
    requires Inv(s) && Enabled(s, step) && step.FreeSlot?
    ensures Apply(s, step).Done? && Inv(Apply(s, step).value)
  {
    var a := step.agent;
    var pc := s.agents[a];
    assert AgentOk(s, pc) && SlotOk(s, pc.slot);
    var c := s.slots[pc.slot].cspace;
    forall b | 0 <= b < |s.agents| && b != a ensures Private(s.agents[b]) != Some(pc.slot) {
      if b < a {} else {}
    }
    if pc.put.None? {
      PlainStep(s, Apply(s, step).value, pc.slot, a);
    } else {
      var o := pc.put.value;
      assert ObjectOk(s, o) && RevokedOk(s, c);
      SumReplace(s.agents, a, Idle, PutsOf(o));
      var r := Apply(s, step).value;
      assert s.revoked[c := s.revoked[c]] == s.revoked;
      forall b | 0 <= b < |s.agents| && b != a ensures Undisturbed(s, r, pc.slot, o, s.agents[b]) {
        assert AgentOk(s, s.agents[b]);
      }
      DeltaKeepsInv(s, r, pc.slot, o, c, a);
    }
  }

  lemma RevokeLockStep(s: State, step: Step)
    requires Inv(s) && Enabled(s, step) && step.RevokeLock?
    ensures Apply(s, step).Done? && Inv(Apply(s, step).value)
  {
    var a := step.agent;
    var pc := s.agents[a];
    assert AgentOk(s, pc) && SlotOk(s, pc.slot);
    if s.slots[pc.slot].data == pc.data {
      var o := pc.data.obj;
      assert ObjectOk(s, o);
      var i :| 0 <= i < |s.objects[o].list| && s.objects[o].list[i] == pc.slot;
      assert i == 0;
    }
    assert s.slots[pc.slot := s.slots[pc.slot]] == s.slots;
    PlainStep(s, Apply(s, step).value, pc.slot, a);
  }

  lemma LoadStep(s: State, step: Step)
    requires Inv(s) && Enabled(s, step)
    requires step.CopyBegin? || step.CopyLoad? || step.DeleteLoad? || step.RevokeLoad? || step.RevokeEnd?
    ensures Apply(s, step).Done? && Inv(Apply(s, step).value)
  {
    var a := step.agent;
    var pc := s.agents[a];
    assert AgentOk(s, pc);
    assert s.agents[a := pc] == s.agents;
    var v := if step.CopyBegin? || step.DeleteLoad? || step.RevokeLoad? then step.slot
             else if step.CopyLoad? then pc.copy else pc.master;
    assert s.slots[v := s.slots[v]] == s.slots;
    assert SlotOk(s, v);
    if step.CopyLoad? { assert SlotOk(s, step.parent); }
    forall b | 0 <= b < |s.agents| && b != a &&
    (step.CopyBegin? || step.CopyLoad?) ensures Private(s.agents[b]) != Some(v) {
      assert AgentOk(s, s.agents[b]);
      if b < a {} else {}
    }
    PlainStep(s, Apply(s, step).value, v, a);
  }

  /** Every step an interleaving may take keeps the invariant, and none panics. */
  lemma StepKeepsInv(s: State, step: Step)
    requires Inv(s) && Enabled(s, step)
    ensures Apply(s, step).Done? && Inv(Apply(s, step).value)
  {
    match step {
      case CreateMaster(_, _, _, _) => CreateStep(s, step);
      case CopyFinish(_) => CopyFinishStep(s, step);
      case DeleteFinish(_) => DeleteFinishStep(s, step);
      case FreeSlot(_) => FreeStep(s, step);
      case RevokeLock(_) => RevokeLockStep(s, step);
      case RevokeNext(_) => RevokeNextStep(s, step);
      case _ => LoadStep(s, step);
    }
  }

  lemma DeleteFinishStep(s: State, step: Step)
    requires Inv(s) && Enabled(s, step) && step.DeleteFinish?
    ensures Apply(s, step).Done? && Inv(Apply(s, step).value)
  {
    var pc := s.agents[step.agent];
    assert AgentOk(s, pc);
    if s.slots[pc.slot].data != pc.data {
      assert s.slots[pc.slot := s.slots[pc.slot]] == s.slots;
      PlainStep(s, Apply(s, step).value, pc.slot, step.agent);
    } else if pc.data.state.ValidCap? {
      DeleteValidStep(s, step);
    } else {
      DeleteRevokedStep(s, step);
    }
  }
}
