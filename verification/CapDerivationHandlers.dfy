/** Capability operations as imperative code, one operation at a time; every
    critical section is a step of `CapDerivation`. */
module CapDerivationHandlers {
  import opened Outcomes
  import opened Lists
  import opened CapDerivation
  import opened CapDerivationSafety
  import opened CapDerivationRuns

  predicate NoLocks(s: State) {
    forall b | 0 <= b < |s.agents| :: !s.agents[b].Revoking?
  }

  class CapSystem {
    var slots: seq<Slot>
    var objects: seq<Object>
    var revoked: seq<seq<SlotId>>
    var agents: seq<Pc>

    function View(): (s: State)
      reads this
    {
      State(slots, objects, revoked, agents)
    }

    /** The references to an object: the one it was created with, while it has not been
        dropped, and those that others hold. */
    function References(o: ObjectId, others: ObjectId -> nat): (n: nat)
      requires o < |objects|
      reads this
    {
      others(o) + if objects[o].created && objects[o].puts == 0 then 1 else 0
    }

    /** `cspace_lookup_object` on a slot, with the states of objects and the references
        of others given. It takes a reference if and only if the capability is valid, of
        the type, has the rights and, if asked for, leads to an active object. The
        attempt to take the reference does not fail then: the object's creation
        reference is still there. */
    method Lookup(v: SlotId, kind: nat, rights: set<Right>, activeOnly: bool, isActive: ObjectId -> bool,
                  others: ObjectId -> nat)
      returns (e: Error, o: ObjectId)
      requires Inv(View()) && v < |slots|
      ensures e == Ok <==> slots[v].data.state.ValidCap? && slots[v].data.kind == kind &&
                           rights <= slots[v].data.rights && (activeOnly ==> isActive(slots[v].data.obj))
      ensures e == CapNull <==> slots[v].data.state.NullCap?
      ensures e == CapRevoked <==> slots[v].data.state.RevokedCap?
      ensures e == WrongObjectType <==> slots[v].data.state.ValidCap? && slots[v].data.kind != kind
      ensures e == InsufficientRights <==>
              slots[v].data.state.ValidCap? && slots[v].data.kind == kind && !(rights <= slots[v].data.rights)
      ensures e == ObjectState <==>
              slots[v].data.state.ValidCap? && slots[v].data.kind == kind && rights <= slots[v].data.rights &&
              activeOnly && !isActive(slots[v].data.obj)
      ensures e == Ok || e == ObjectState ==>
                o < |objects| && v in objects[o].list && objects[o].kind == kind && rights <= objects[o].masterRights
      ensures e == Ok ==> References(o, others) > 0
    {
      var data := slots[v].data;
      e, o := CheckCapData(data, Some(kind), rights), data.obj;
      assert SlotOk(View(), v);
      if e == Ok {
        assert ObjectOk(View(), o);
        assert forall i | 0 <= i < |objects[o].list| :: IsCapOf(View(), objects[o].list[i], o);
        if activeOnly && !isActive(o) {
          e := ObjectState;
        } else if References(o, others) == 0 {
          e := CapNull;
        }
      }
    }

    /** `cspace_copy_cap` into slot `v`: a valid copy with the masked rights, or an
        error that leaves every capability and list as it was. */
    method Copy(a: Agent, v: SlotId, p: SlotId, mask: set<Right>) returns (e: Error)
      requires Inv(View()) && Enabled(View(), CopyBegin(a, v)) && p < |slots|
      requires NoLocks(View())
      modifies this
      ensures Inv(View()) && agents == old(agents) && |slots| == |old(slots)| && revoked == old(revoked)
      ensures e == Ok <==> old(slots)[p].data.state.ValidCap? && old(slots)[p].data.rights * mask != {}
      ensures e == CapNull <==> old(slots)[p].data.state.NullCap?
      ensures e == CapRevoked <==> old(slots)[p].data.state.RevokedCap?
      ensures e == InsufficientRights <==>
              old(slots)[p].data.state.ValidCap? && old(slots)[p].data.rights * mask == {}
      ensures e == Ok ==>
              var data := old(slots)[p].data;
              var copy := CapData(ValidCap, data.obj, data.kind, data.rights * mask, false);
              slots == old(slots)[v := Slot(old(slots)[v].cspace, true, copy)]
      ensures e == Ok ==> var o := old(slots)[p].data.obj;
                o < |old(objects)| == |objects| && objects == Relisted(old(objects), o, objects[o].list) &&
                PutBehind(old(objects)[o].list, objects[o].list, p, v)
      ensures e != Ok ==> slots == old(slots) && objects == old(objects)
    {
      assert SlotOk(View(), v) && SlotOk(View(), p);
      e := LoadParent(a, v, p, mask);
      if e == Ok {
        LinkCopy(a);
        assert agents == old(agents);
      }
    }

    /** Take the slot and load the parent's data; a parent that cannot be copied gives the
        slot back. */
    method LoadParent(a: Agent, v: SlotId, p: SlotId, mask: set<Right>) returns (e: Error)
      requires Inv(View()) && Enabled(View(), CopyBegin(a, v)) && p < |slots|
      modifies this`slots, this`agents
      ensures Inv(View())
      ensures e == Ok <==> old(slots)[p].data.state.ValidCap? && old(slots)[p].data.rights * mask != {}
      ensures e == CapNull <==> old(slots)[p].data.state.NullCap?
      ensures e == CapRevoked <==> old(slots)[p].data.state.RevokedCap?
      ensures e == InsufficientRights <==>
              old(slots)[p].data.state.ValidCap? && old(slots)[p].data.rights * mask == {}
      ensures e == Ok ==> slots == old(slots)[v := old(slots)[v].(held := true)] &&
                          agents == old(agents)[a := CopyLoaded(v, p, old(slots)[p].data, mask)]
      ensures e != Ok ==> slots == old(slots) && agents == old(agents)
    {
      StepKeepsInv(View(), CopyBegin(a, v));
      slots := slots[v := slots[v].(held := true)];
      agents := agents[a := CopySlot(v)];
      StepKeepsInv(View(), CopyLoad(a, p, mask));
      var data := slots[p].data;
      e := CheckCapData(data, None, {});
      if e == Ok && data.rights * mask == {} {
        e := InsufficientRights;
      }
      if e != Ok {
        slots := slots[v := slots[v].(held := false)];
        agents := agents[a := Idle];
        assert slots == old(slots);
        assert agents == old(agents);
        return;
      }
      agents := agents[a := CopyLoaded(v, p, data, mask)];
    }

    /** Under the cap-list lock: publish the copy and link it behind its parent. */
    method LinkCopy(a: Agent)
      requires Inv(View()) && Enabled(View(), CopyFinish(a))
      requires agents[a].parent < |slots| && slots[agents[a].parent].data == agents[a].data
      modifies this
      ensures Inv(View()) && agents == old(agents)[a := Idle] && revoked == old(revoked)
      ensures var pc := old(agents)[a];
              pc.copy < |old(slots)| && pc.data.obj < |old(objects)| &&
              var data := CapData(ValidCap, pc.data.obj, pc.data.kind, pc.data.rights * pc.mask, false);
              slots == old(slots)[pc.copy := old(slots)[pc.copy].(data := data)] &&
              var o := pc.data.obj;
              |objects| == |old(objects)| && objects == Relisted(old(objects), o, objects[o].list) &&
              PutBehind(old(objects)[o].list, objects[o].list, pc.parent, pc.copy)
    {
      StepKeepsInv(View(), CopyFinish(a));
      var pc := agents[a];
      assert AgentOk(View(), pc);
      InsertPuts(objects[pc.data.obj].list, pc.parent, pc.copy);
      slots := slots[pc.copy := slots[pc.copy].(data := pc.data.(rights := pc.data.rights * pc.mask, master := false))];
      objects := Relisted(objects, pc.data.obj, InsertAfter(objects[pc.data.obj].list, pc.parent, pc.copy));
      agents := agents[a := Idle];
    }

    /** `cspace_delete_cap`: the slot is free, and the object's creation reference
        goes exactly with its last valid capability. */
    method Delete(a: Agent, v: SlotId) returns (e: Error)
      requires Inv(View()) && Enabled(View(), DeleteLoad(a, v))
      requires NoLocks(View())
      modifies this
      ensures Inv(View()) && agents == old(agents) && |objects| == |old(objects)|
      ensures e == (if old(slots)[v].data.state.NullCap? then CapNull else Ok)
      ensures e == Ok ==> slots == old(slots)[v := old(slots)[v].(held := false, data := NULL_DATA)]
      ensures e != Ok ==> View() == old(View())
      ensures e == Ok ==> TakenOut(old(View()), View(), v)
    {
      var data := slots[v].data;
      if data.state.NullCap? {
        return CapNull;
      }
      StepKeepsInv(View(), DeleteLoad(a, v));
      agents := agents[a := Deleting(v, data)];
      UnlinkAndFree(a);
      assert agents == old(agents);
      e := Ok;
    }

    method UnlinkAndFree(a: Agent)
      requires Inv(View()) && Enabled(View(), DeleteFinish(a)) && agents[a].slot < |slots| &&
               slots[agents[a].slot].data == agents[a].data
      modifies this
      ensures var v := old(agents)[a].slot;
              Inv(View()) && agents == old(agents)[a := Idle] && TakenOut(old(View()), View(), v) &&
              slots == old(slots)[v := old(slots)[v].(held := false, data := NULL_DATA)]
    {
      Unlink(a);
      FreeUnlinked(a);
      assert agents == old(agents)[a := Idle];
    }

    /** Under the lock of the list the capability is in: clear it and unlink it. */
    method Unlink(a: Agent)
      requires Inv(View()) && Enabled(View(), DeleteFinish(a)) && agents[a].slot < |slots| &&
               slots[agents[a].slot].data == agents[a].data
      modifies this
      ensures var pc, v := old(agents)[a], old(agents)[a].slot;
              Inv(View()) && |agents| == |old(agents)| && agents[a].Unlinked? &&
              agents == old(agents)[a := Unlinked(v, agents[a].put)] &&
              slots == old(slots)[v := old(slots)[v].(data := NULL_DATA)] &&
              if pc.data.state.ValidCap?
              then var o := pc.data.obj;
                   o < |old(objects)| == |objects| && revoked == old(revoked) &&
                   objects == Relisted(old(objects), o, objects[o].list) &&
                   Dropped<SlotId>(old(objects)[o].list, objects[o].list, v) &&
                   agents[a].put == if objects[pc.data.obj].list == [] then Some(pc.data.obj) else None
              else var c := old(slots)[v].cspace;
                   objects == old(objects) && agents[a].put.None? && c < |old(revoked)| == |revoked| &&
                   revoked == old(revoked)[c := revoked[c]] && Dropped<SlotId>(old(revoked)[c], revoked[c], v)
    {
      StepKeepsInv(View(), DeleteFinish(a));
      var v, data := agents[a].slot, agents[a].data;
      assert AgentOk(View(), agents[a]) && SlotOk(View(), v);
      ListedDrops(View(), v);
      var put := None;
      if data.state.ValidCap? {
        objects := objects[data.obj := objects[data.obj].(list := Without<SlotId>(objects[data.obj].list, v))];
        if objects[data.obj].list == [] {
          put := Some(data.obj);
        }
      } else {
        revoked := revoked[slots[v].cspace := Without<SlotId>(revoked[slots[v].cspace], v)];
      }
      slots := slots[v := slots[v].(data := NULL_DATA)];
      agents := agents[a := Unlinked(v, put)];
    }

    /** Free the slot and drop the object's creation reference if it is due. */
    method FreeUnlinked(a: Agent)
      requires Inv(View()) && Enabled(View(), FreeSlot(a))
      modifies this
      ensures var pc := old(agents)[a];
              Inv(View()) && agents == old(agents)[a := Idle] && revoked == old(revoked) &&
              pc.slot < |old(slots)| && slots == old(slots)[pc.slot := old(slots)[pc.slot].(held := false)] &&
              if pc.put.Some?
              then pc.put.value < |old(objects)| &&
                   var x := old(objects)[pc.put.value];
                   objects == old(objects)[pc.put.value := x.(puts := x.puts + 1)]
              else objects == old(objects)
    {
      StepKeepsInv(View(), FreeSlot(a));
      var pc := agents[a];
      assert AgentOk(View(), pc);
      slots := slots[pc.slot := slots[pc.slot].(held := false)];
      if pc.put.Some? {
        objects := objects[pc.put.value := objects[pc.put.value].(puts := objects[pc.put.value].puts + 1)];
      }
      agents := agents[a := Idle];
    }

    /** One round of the revocation loop. */
    method RevokeOne(a: Agent) returns (v: SlotId)
      requires Inv(View()) && Enabled(View(), RevokeNext(a))
      modifies this`slots, this`objects, this`revoked
      ensures Inv(View()) && |objects| == |old(objects)| && |slots| == |old(slots)| && |revoked| == |old(revoked)|
      ensures v == old(objects)[agents[a].obj].list[1] && v < |slots| &&
              slots == old(slots)[v := old(slots)[v].(data := RevokedData(old(slots)[v].data))]
      ensures objects ==
              old(objects)[agents[a].obj := old(objects)[agents[a].obj].(list := objects[agents[a].obj].list)]
      ensures objects[agents[a].obj].list ==
              [old(objects)[agents[a].obj].list[0]] + old(objects)[agents[a].obj].list[2..]
      ensures slots[v].cspace < |revoked|
      ensures revoked == old(revoked)[slots[v].cspace := [v] + old(revoked)[slots[v].cspace]]
    {
      RevokeNextFacts(View(), a);
      StepKeepsInv(View(), RevokeNext(a));
      var o := agents[a].obj;
      v := objects[o].list[1];
      slots := slots[v := slots[v].(data := RevokedData(slots[v].data))];
      objects := objects[o := objects[o].(list := Without<SlotId>(objects[o].list, v))];
      revoked := revoked[slots[v].cspace := [v] + revoked[slots[v].cspace]];
    }

    /** `cspace_revoke_caps`: only the master stays valid; every other capability to
        the object is revoked and joins its own cspace's revoked list in front. */
    method Revoke(a: Agent, m: SlotId) returns (e: Error)
      requires Inv(View()) && Enabled(View(), RevokeLoad(a, m))
      requires NoLocks(View())
      modifies this
      ensures Inv(View()) && agents == old(agents) && |slots| == |old(slots)| && |objects| == |old(objects)|
      ensures e == Ok <==> old(slots)[m].data.state.ValidCap? && old(slots)[m].data.master
      ensures e == CapNull <==> old(slots)[m].data.state.NullCap?
      ensures e == CapRevoked <==> old(slots)[m].data.state.RevokedCap?
      ensures e == InsufficientRights <==> old(slots)[m].data.state.ValidCap? && !old(slots)[m].data.master
      ensures e != Ok ==> View() == old(View())
      ensures e == Ok ==>
              var o := old(slots)[m].data.obj;
              o < |objects| && objects == old(objects)[o := old(objects)[o].(list := [m])]
      ensures e == Ok ==> forall v | 0 <= v < |slots| :: RevokedFrom(old(View()), View(), old(slots)[m].data.obj, m, v)
      ensures e == Ok ==> |revoked| == |old(revoked)| &&
                          forall c | 0 <= c < |revoked| :: IsSuffix(old(revoked)[c], revoked[c])
    {
      var data := slots[m].data;
      e := CheckCapData(data, None, {});
      if e == Ok && !data.master {
        e := InsufficientRights;
      }
      if e != Ok {
        return;
      }
      TakeLock(a, m);
      RevokeChildren(a);
      ReleaseLock(a);
      assert agents == old(agents);
      AllRevoked(old(View()), View(), data.obj, m);
    }

    /** The loop over the object's list, with its lock held. */
    method RevokeChildren(a: Agent)
      requires Inv(View()) && a < |agents| && agents[a].Revoking? && agents[a].obj < |objects|
      modifies this`slots, this`objects, this`revoked
      ensures var o, m := agents[a].obj, agents[a].master;
              Inv(View()) && |slots| == |old(slots)| && |revoked| == |old(revoked)| &&
              old(objects)[o].list != [] && old(objects)[o].list[0] == m &&
              objects == old(objects)[o := old(objects)[o].(list := [m])] &&
              (forall v | 0 <= v < |slots| :: Swept(old(slots)[v], slots[v], v in old(objects)[o].list[1..])) &&
              forall c | 0 <= c < |revoked| :: IsSuffix(old(revoked)[c], revoked[c])
    {
      var o, m := agents[a].obj, agents[a].master;
      assert AgentOk(View(), agents[a]);
      ghost var all := objects[o].list;
      ghost var n := 1;
      assert all == [m] + all[1..] && objects == objects[o := objects[o].(list := all)];
      while |objects[o].list| > 1
        invariant Inv(View()) && SweptTo(old(View()), View(), o, m, n)
        decreases |objects[o].list|
      {
        ghost var s := View();
        var v := RevokeOne(a);
        SweptOn(old(View()), s, View(), o, m, n);
        n := n + 1;
      }
      assert n == |all| && [m] + all[n..] == [m] && all[1..n] == all[1..];
    }

    method TakeLock(a: Agent, m: SlotId)
      requires Inv(View()) && Enabled(View(), RevokeLoad(a, m)) && slots[m].data.state.ValidCap? && slots[m].data.master
      requires NoLocks(View())
      modifies this`agents
      ensures Inv(View()) && agents == old(agents)[a := Revoking(slots[m].data.obj, m)]
      ensures slots[m].data.obj < |objects| && objects[slots[m].data.obj].list != [] &&
              objects[slots[m].data.obj].list[0] == m
    {
      StepKeepsInv(View(), RevokeLoad(a, m));
      assert SlotOk(View(), m);
      agents := agents[a := RevokeLoaded(m, slots[m].data)];
      StepKeepsInv(View(), RevokeLock(a));
      agents := agents[a := Revoking(slots[m].data.obj, m)];
      assert AgentOk(View(), agents[a]);
    }

    method ReleaseLock(a: Agent)
      requires Inv(View()) && Enabled(View(), RevokeEnd(a))
      modifies this`agents
      ensures Inv(View()) && agents == old(agents)[a := Idle]
    {
      StepKeepsInv(View(), RevokeEnd(a));
      agents := agents[a := Idle];
    }
  }

  /** The capability is out of the one list it was in: a valid one out of its object's,
      whose creation reference goes exactly with the last one, a revoked one out of its
      cspace's. */
  ghost predicate TakenOut(s: State, r: State, v: SlotId)
    requires v < |s.slots|
  {
    var data, c := s.slots[v].data, s.slots[v].cspace;
    |r.objects| == |s.objects| && |r.revoked| == |s.revoked| &&
    if data.state.ValidCap? then
      var o := data.obj;
      o < |s.objects| && Dropped<SlotId>(s.objects[o].list, r.objects[o].list, v) && r.revoked == s.revoked &&
      r.objects == s.objects[o := s.objects[o].(list := r.objects[o].list, puts := r.objects[o].puts)] &&
      r.objects[o].puts == s.objects[o].puts + (if r.objects[o].list == [] then 1 else 0)
    else
      r.objects == s.objects && c < |s.revoked| && r.revoked == s.revoked[c := r.revoked[c]] &&
      Dropped<SlotId>(s.revoked[c], r.revoked[c], v)
  }

  /** A capability is in the list it is unlinked from. */
  lemma ListedDrops(s: State, v: SlotId)
    requires Inv(s) && v < |s.slots| && !s.slots[v].data.state.NullCap?
    ensures var data := s.slots[v].data;
            if data.state.ValidCap?
            then data.obj < |s.objects| &&
                 Dropped<SlotId>(s.objects[data.obj].list, Without<SlotId>(s.objects[data.obj].list, v), v)
            else s.slots[v].cspace < |s.revoked| &&
                 Dropped<SlotId>(s.revoked[s.slots[v].cspace], Without<SlotId>(s.revoked[s.slots[v].cspace], v), v)
  {
    assert SlotOk(s, v);
    var data := s.slots[v].data;
    WithoutDrops<SlotId>(if data.state.ValidCap? then s.objects[data.obj].list else s.revoked[s.slots[v].cspace], v);
  }

  ghost predicate IsSuffix(before: seq<SlotId>, after: seq<SlotId>) {
    |before| <= |after| && after[|after| - |before|..] == before
  }

  /** A slot before and after the sweep of a revocation. */
  predicate Swept(before: Slot, after: Slot, child: bool) {
    after == if child then before.(data := RevokedData(before.data)) else before
  }

  /** Since `s0`, the first `n` capabilities of the object's list but the master have been revoked. */
  ghost predicate SweptTo(s0: State, s: State, o: ObjectId, m: SlotId, n: nat) {
    |s.slots| == |s0.slots| && o < |s0.objects| == |s.objects| && |s.revoked| == |s0.revoked| &&
    var all := s0.objects[o].list;
    1 <= n <= |all| && all[0] == m && s.objects == Relisted(s0.objects, o, [m] + all[n..]) &&
    (forall v | 0 <= v < |s.slots| :: Swept(s0.slots[v], s.slots[v], v in all[1..n])) &&
    forall c | 0 <= c < |s.revoked| :: IsSuffix(s0.revoked[c], s.revoked[c])
  }

  lemma SweptOn(s0: State, s: State, r: State, o: ObjectId, m: SlotId, n: nat)
    requires Inv(s0) && SweptTo(s0, s, o, m, n) && |s.objects[o].list| > 1
    requires |r.slots| == |s.slots| && |r.revoked| == |s.revoked|
    requires var v := s.objects[o].list[1];
             v < |s.slots| && r.slots == s.slots[v := s.slots[v].(data := RevokedData(s.slots[v].data))] &&
             r.objects == Relisted(s.objects, o, [s.objects[o].list[0]] + s.objects[o].list[2..]) &&
             r.slots[v].cspace < |s.revoked| &&
             r.revoked == s.revoked[r.slots[v].cspace := [v] + s.revoked[r.slots[v].cspace]]
    ensures SweptTo(s0, r, o, m, n + 1)
  {
    var all := s0.objects[o].list;
    assert s.objects[o].list == [m] + all[n..] && n < |all|;
    SecondGone(m, all, n);
    NotEarlier(s0, o, n);
  }

  /** What is left of the rest of a list behind `m` when its first element goes. */
  lemma SecondGone(m: SlotId, all: seq<SlotId>, n: nat)
    requires 1 <= n < |all|
    ensures ([m] + all[n..])[1] == all[n] && ([m] + all[n..])[2..] == all[n + 1..]
    ensures all[1..n + 1] == all[1..n] + [all[n]]
  {
    var rest := [m] + all[n..];
    assert rest == [m, all[n]] + all[n + 1..];
  }

  /** How slot `v` fares in a revocation by master `m` of object `o`. */
  ghost predicate RevokedFrom(s: State, r: State, o: ObjectId, m: SlotId, v: SlotId)
    requires v < |s.slots| == |r.slots|
  {
    if IsValidCap(s, v, o) && v != m
    then r.slots[v] == s.slots[v].(data := r.slots[v].data) && IsRevokedFrom(s.slots[v].data, r.slots[v].data) &&
    r.slots[v].cspace < |r.revoked| && v in r.revoked[r.slots[v].cspace]
    else r.slots[v] == s.slots[v]
  }

  /** A capability occurs once in its object's list. */
  lemma NotEarlier(s: State, o: ObjectId, n: nat)
    requires Inv(s) && o < |s.objects| && 0 < n < |s.objects[o].list|
    ensures s.objects[o].list[n] !in s.objects[o].list[..n]
  {
    assert ObjectOk(s, o);
  }

  lemma AllRevoked(s: State, r: State, o: ObjectId, m: SlotId)
    requires Inv(s) && Inv(r) && |r.slots| == |s.slots| && o < |s.objects|
    requires var all := s.objects[o].list;
             all != [] && all[0] == m &&
             forall v | 0 <= v < |s.slots| :: Swept(s.slots[v], r.slots[v], v in all[1..])
    ensures forall v | 0 <= v < |s.slots| :: RevokedFrom(s, r, o, m, v)
  {
    var all := s.objects[o].list;
    assert ObjectOk(s, o) && all == [m] + all[1..];
    forall v | 0 <= v < |s.slots| ensures RevokedFrom(s, r, o, m, v) {
      assert SlotOk(s, v) && SlotOk(r, v);
      ListedOnce(s, v, o, 0);
    }
  }
}
