/** Theorems over every run of interleaved capability operations. */
module CapDerivationRuns {
  import opened Outcomes
  import opened Lists
  import opened Sums
  import opened CapDerivation
  import opened CapDerivationSafety

  lemma {:induction false} InvHolds(states: seq<State>, steps: seq<Step>, k: nat)
    requires IsRun(states, steps) && k <= |steps|
    ensures Inv(states[k])
  {
    if k > 0 {
      InvHolds(states, steps, k - 1);
      assert Follows(states, steps, k - 1);
      StepKeepsInv(states[k - 1], steps[k - 1]);
    } else {
      var s := states[0];
      assert Init(s);
      forall o | 0 <= o < |s.objects| ensures ObjectOk(s, o) { SumZero(s.agents, PutsOf(o)); }
    }
  }

  /** No list is corrupted, the revocation's master is always at the head, and no
      reference is dropped twice, in any interleaving. */
  lemma PanicsAreUnreachable(states: seq<State>, steps: seq<Step>, k: nat, step: Step)
    requires IsRun(states, steps) && k <= |steps| && Enabled(states[k], step)
    ensures Apply(states[k], step).Done?
  {
    InvHolds(states, steps, k);
    StepKeepsInv(states[k], step);
  }

  predicate IsValidCap(s: State, v: SlotId, o: ObjectId) {
    v < |s.slots| && s.slots[v].data.state.ValidCap? && s.slots[v].data.obj == o
  }

  /** An object's list holds exactly its valid capabilities, each once; a cspace's
      revoked list holds exactly its revoked ones. */
  lemma ListsAreExact(states: seq<State>, steps: seq<Step>, k: nat, v: SlotId, o: ObjectId, c: CspaceId)
    requires IsRun(states, steps) && k <= |steps| && o < |states[k].objects| && c < |states[k].revoked|
    ensures var s := states[k];
            Distinct(s.objects[o].list) && (v in s.objects[o].list <==> IsValidCap(s, v, o)) &&
            Distinct(s.revoked[c]) &&
            (v in s.revoked[c] <==> v < |s.slots| && s.slots[v].data.state.RevokedCap? && s.slots[v].cspace == c)
  {
    InvHolds(states, steps, k);
    var s := states[k];
    assert ObjectOk(s, o) && RevokedOk(s, c);
    if v < |s.slots| {
      assert SlotOk(s, v);
      ListedOnce(s, v, o, c);
    } else {
      forall i | 0 <= i < |s.objects[o].list| ensures s.objects[o].list[i] != v {
        assert IsCapOf(s, s.objects[o].list[i], o);
      }
    }
  }

  /** The master, while it is there, is at the head of the list, and no valid
      capability has a right the master lacks. */
  lemma MasterLeads(states: seq<State>, steps: seq<Step>, k: nat, m: SlotId, v: SlotId, o: ObjectId)
    requires IsRun(states, steps) && k <= |steps| && o < |states[k].objects|
    requires IsValidCap(states[k], m, o) && states[k].slots[m].data.master && IsValidCap(states[k], v, o)
    ensures var s := states[k];
            s.objects[o].list != [] && s.objects[o].list[0] == m &&
            s.slots[v].data.rights <= s.slots[m].data.rights && (s.slots[v].data.master ==> v == m)
  {
    InvHolds(states, steps, k);
    var s := states[k];
    assert ObjectOk(s, o) && SlotOk(s, m) && SlotOk(s, v);
    var list := s.objects[o].list;
    var i :| 0 <= i < |list| && list[i] == m;
    var j :| 0 <= j < |list| && list[j] == v;
    assert IsCapOf(s, list[i], o) && IsCapOf(s, list[j], o);
  }

  /** Rights never grow: a valid capability keeps within what its object's master
      was created with, even after the master is gone. */
  lemma RightsStayWithinMaster(states: seq<State>, steps: seq<Step>, k: nat, v: SlotId, o: ObjectId)
    requires IsRun(states, steps) && k <= |steps| && IsValidCap(states[k], v, o)
    ensures o < |states[k].objects| && states[k].slots[v].data.rights <= states[k].objects[o].masterRights
  {
    InvHolds(states, steps, k);
    var s := states[k];
    assert SlotOk(s, v) && ObjectOk(s, o);
    var i :| 0 <= i < |s.objects[o].list| && s.objects[o].list[i] == v;
    assert IsCapOf(s, s.objects[o].list[i], o);
  }

  /** A copy has the parent's rights cut by the mask, some at least, and stands right
      behind a parent that is valid when the copy is linked. The parent's data are then
      those that were loaded before the lock was taken; that they were the same all the
      time in between is not claimed. */
  lemma CopyNarrows(states: seq<State>, steps: seq<Step>, k: nat)
    requires IsRun(states, steps) && k < |steps| && steps[k].CopyFinish? && Enabled(states[k], steps[k])
    requires var s, pc := states[k], states[k].agents[steps[k].agent];
             pc.parent < |s.slots| && s.slots[pc.parent].data == pc.data
    ensures var s, r := states[k], states[k + 1];
            var pc := s.agents[steps[k].agent];
            pc.copy < |r.slots| && r.slots[pc.copy].data.rights != {} &&
            r.slots[pc.copy].data.rights == s.slots[pc.parent].data.rights * pc.mask &&
            !r.slots[pc.copy].data.master && IsValidCap(r, pc.copy, pc.data.obj) &&
            IsValidCap(s, pc.parent, pc.data.obj) && pc.data.obj < |r.objects| &&
            StandsBehind(r.objects[pc.data.obj].list, pc.parent, pc.copy)
  {
    InvHolds(states, steps, k);
    assert Follows(states, steps, k);
    assert AgentOk(states[k], states[k].agents[steps[k].agent]);
    assert SlotOk(states[k], states[k].agents[steps[k].agent].parent);
    var pc := states[k].agents[steps[k].agent];
    InsertedBehind(states[k].objects[pc.data.obj].list, pc.parent, pc.copy);
  }

  /** `v` follows `p` in the list. */
  ghost predicate StandsBehind(list: seq<SlotId>, p: SlotId, v: SlotId) {
    exists i | 0 <= i < |list| - 1 :: list[i] == p && list[i + 1] == v
  }

  lemma {:induction false} InsertedBehind(list: seq<SlotId>, p: SlotId, v: SlotId)
    requires p in list
    ensures StandsBehind(InsertAfter(list, p, v), p, v)
  {
    var r := InsertAfter(list, p, v);
    if list[0] == p {
      assert r[0] == p && r[0 + 1] == v;
    } else {
      InsertedBehind(list[1..], p, v);
      var i :| 0 <= i < |r[1..]| - 1 && r[1..][i] == p && r[1..][i + 1] == v;
      assert r[i + 1] == p && r[i + 1 + 1] == v;
    }
  }

  /** One round of a revocation takes the capability behind the master to the head
      of the revoked list of that capability's own cspace. */
  lemma RevocationMoves(states: seq<State>, steps: seq<Step>, k: nat)
    requires IsRun(states, steps) && k < |steps| && steps[k].RevokeNext?
    ensures var s, r := states[k], states[k + 1];
            Enabled(s, steps[k]) &&
            var pc := s.agents[steps[k].agent];
            var v := s.objects[pc.obj].list[1];
            v != pc.master && IsValidCap(s, v, pc.obj) && v < |r.slots| &&
            r.slots == s.slots[v := s.slots[v].(data := r.slots[v].data)] &&
            IsRevokedFrom(s.slots[v].data, r.slots[v].data) &&
            s.slots[v].cspace < |s.revoked| &&
            r.revoked == s.revoked[s.slots[v].cspace := [v] + s.revoked[s.slots[v].cspace]] &&
            |r.objects| == |s.objects| && r.objects == Relisted(s.objects, pc.obj, r.objects[pc.obj].list) &&
            r.objects[pc.obj].list == [pc.master] + s.objects[pc.obj].list[2..]
  {
    InvHolds(states, steps, k);
    assert Follows(states, steps, k);
    var s := states[k];
    var pc := s.agents[steps[k].agent];
    assert AgentOk(s, pc) && ObjectOk(s, pc.obj);
    assert IsCapOf(s, s.objects[pc.obj].list[1], pc.obj);
    WithoutAt<SlotId>(s.objects[pc.obj].list, 1);
  }

  /** When a revocation ends the master is the only valid capability to the object. */
  lemma OnlyMasterSurvives(states: seq<State>, steps: seq<Step>, k: nat, v: SlotId)
    requires IsRun(states, steps) && k < |steps| && steps[k].RevokeEnd?
    ensures var s, r := states[k], states[k + 1];
            Enabled(s, steps[k]) &&
            var pc := s.agents[steps[k].agent];
            IsValidCap(r, pc.master, pc.obj) && r.slots[pc.master].data.master &&
            (IsValidCap(r, v, pc.obj) <==> v == pc.master)
  {
    InvHolds(states, steps, k);
    assert Follows(states, steps, k);
    var s := states[k];
    var pc := s.agents[steps[k].agent];
    assert AgentOk(s, pc) && ObjectOk(s, pc.obj);
    MasterIsValid(s, steps[k].agent);
    if IsValidCap(s, v, pc.obj) { assert SlotOk(s, v); }
  }

  /** The creation reference of an object is dropped at most once, only after its
      last valid capability has gone, and nobody else is about to drop it then. */
  lemma ReferenceDroppedOnce(states: seq<State>, steps: seq<Step>, k: nat, o: ObjectId)
    requires IsRun(states, steps) && k <= |steps| && o < |states[k].objects|
    ensures var s := states[k];
            s.objects[o].puts + PendingPuts(s.agents, o) == (if s.objects[o].created &&
                                                             s.objects[o].list == [] then 1 else 0)
  {
    InvHolds(states, steps, k);
    assert ObjectOk(states[k], o);
  }

  lemma DeadStep(s: State, step: Step, o: ObjectId)
    requires Inv(s) && Enabled(s, step) && Apply(s, step).Done? && o < |s.objects| && s.objects[o].created &&
             s.objects[o].list == []
    ensures var r := Apply(s, step).value;
            |r.objects| == |s.objects| && r.objects[o].created && r.objects[o].list == [] &&
            r.objects[o].puts >= s.objects[o].puts
  {
    assert AgentOk(s, s.agents[step.agent]);
  }

  /** An object without capabilities never gets one again. */
  lemma {:induction false} NoResurrection(states: seq<State>, steps: seq<Step>, i: nat, j: nat, o: ObjectId)
    requires IsRun(states, steps) && i <= j <= |steps| && o < |states[i].objects|
    requires states[i].objects[o].created && states[i].objects[o].list == []
    ensures o < |states[j].objects| && states[j].objects[o].created && states[j].objects[o].list == []
    ensures states[j].objects[o].puts >= states[i].objects[o].puts
    decreases j - i
  {
    if i < j {
      NoResurrection(states, steps, i, j - 1, o);
      InvHolds(states, steps, j - 1);
      assert Follows(states, steps, j - 1);
      DeadStep(states[j - 1], steps[j - 1], o);
    }
  }

  /** An agent has the slot to itself. */
  ghost predicate IsPrivate(s: State, v: SlotId) {
    exists a | 0 <= a < |s.agents| :: Private(s.agents[a]) == Some(v)
  }

  /** The slot has a capability, or an agent is about to fill or to free it. */
  ghost predicate InUse(s: State, v: SlotId)
    requires v < |s.slots|
  {
    !s.slots[v].data.state.NullCap? || IsPrivate(s, v)
  }

  lemma OthersStay(s: State, step: Step)
    requires Enabled(s, step) && Apply(s, step).Done?
    ensures var r := Apply(s, step).value;
            |r.slots| == |s.slots| && |r.agents| == |s.agents| &&
            forall b | 0 <= b < |s.agents| && b != step.agent :: r.agents[b] == s.agents[b]
  {
  }

  /** A slot stays with its agent until it is filled or freed. */
  lemma OwnPrivate(s: State, step: Step, v: SlotId)
    requires Enabled(s, step) && Apply(s, step).Done? && v < |s.slots| && Private(s.agents[step.agent]) == Some(v)
    requires AgentOk(s, s.agents[step.agent])
    ensures var r := Apply(s, step).value;
            |r.slots| == |s.slots| && step.agent < |r.agents| &&
            (r.slots[v].held ==> !r.slots[v].data.state.NullCap? || Private(r.agents[step.agent]) == Some(v))
  {
  }

  lemma PrivateLasts(s: State, step: Step, v: SlotId)
    requires Enabled(s, step) && Apply(s, step).Done? && v < |s.slots| && IsPrivate(s, v)
    requires AgentOk(s, s.agents[step.agent])
    ensures var r := Apply(s, step).value; |r.slots| == |s.slots| && (r.slots[v].held ==> InUse(r, v))
  {
    OthersStay(s, step);
    var b :| 0 <= b < |s.agents| && Private(s.agents[b]) == Some(v);
    if b == step.agent {
      OwnPrivate(s, step, v);
    } else {
      assert Private(Apply(s, step).value.agents[b]) == Some(v);
    }
  }

  lemma UseStep(s: State, step: Step, v: SlotId)
    requires Inv(s) && Enabled(s, step) && Apply(s, step).Done? && v < |s.slots| && (s.slots[v].held ==> InUse(s, v))
    ensures var r := Apply(s, step).value; |r.slots| == |s.slots| && (r.slots[v].held ==> InUse(r, v))
  {
    var r := Apply(s, step).value;
    assert AgentOk(s, s.agents[step.agent]);
    if IsPrivate(s, v) {
      PrivateLasts(s, step, v);
    } else if r.slots[v].held && r.slots[v].data.state.NullCap? {
      assert SlotOk(s, v);
      assert Private(r.agents[step.agent]) == Some(v);
    }
  }

  /** No slot leaks: one is held exactly as long as it has a capability or an agent is
      about to fill or to free it. */
  lemma {:induction false} NoSlotLeaks(states: seq<State>, steps: seq<Step>, k: nat, v: SlotId)
    requires IsRun(states, steps) && k <= |steps| && v < |states[k].slots|
    ensures states[k].slots[v].held <==> InUse(states[k], v)
  {
    InvHolds(states, steps, k);
    if k > 0 {
      InvHolds(states, steps, k - 1);
      assert Follows(states, steps, k - 1);
      assert |states[k - 1].slots| == |states[k].slots|;
      NoSlotLeaks(states, steps, k - 1, v);
      UseStep(states[k - 1], steps[k - 1], v);
    }
    assert SlotOk(states[k], v);
    if IsPrivate(states[k], v) {
      var a :| 0 <= a < |states[k].agents| && Private(states[k].agents[a]) == Some(v);
      assert AgentOk(states[k], states[k].agents[a]);
    }
  }
}
