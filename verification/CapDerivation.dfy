/** Creation, copying, deletion and revocation of capabilities, `cspace_twolevel.c`.

    Each operation loads a capability's data without a lock, takes the cap-list
    lock of the object later, and re-checks the data with a compare-exchange; a
    revocation keeps that lock for its whole loop. Agents interleave at all of
    these points. Linking next to a capability that is not in the list, unlinking
    one that is not, a master that is not at the head, and dropping a reference
    that is gone are the outcome `Panic`. */
module CapDerivation {
  import opened Outcomes
  import opened Lists

  type SlotId = nat
  type ObjectId = nat
  type CspaceId = nat
  type Agent = nat
  type Right = nat

  datatype CapState = NullCap | ValidCap | RevokedCap

  /** `obj` and `kind` mean nothing unless the capability is valid. */
  datatype CapData = CapData(state: CapState, obj: ObjectId, kind: nat, rights: set<Right>, master: bool)

  const NULL_DATA := CapData(NullCap, 0, 0, {}, false)

  /** `held` is the slot's bit in its table. */
  datatype Slot = Slot(cspace: CspaceId, held: bool, data: CapData)

  /** `list` is the object's cap list; `puts` counts drops of the reference it was
      created with, and `masterRights` is what its master was created with. */
  datatype Object = Object(kind: nat, created: bool, list: seq<SlotId>, puts: nat, masterRights: set<Right>)

  datatype Pc =
    | Idle
    | CopySlot(copy: SlotId)
    | CopyLoaded(copy: SlotId, parent: SlotId, data: CapData, mask: set<Right>)
    | Deleting(slot: SlotId, data: CapData)
    | Unlinked(slot: SlotId, put: Option<ObjectId>)
    | RevokeLoaded(slot: SlotId, data: CapData)
    | Revoking(obj: ObjectId, master: SlotId)

  /** `revoked` holds the `revoked_cap_list` of each cspace. */
  datatype State = State(slots: seq<Slot>, objects: seq<Object>, revoked: seq<seq<SlotId>>, agents: seq<Pc>)

  // -------------------------------------------------------------------- errors

  datatype Error = Ok | CapNull | CapRevoked | WrongObjectType | InsufficientRights | ObjectState | Busy

  /** `cspace_check_cap_data`; no kind stands for `OBJECT_TYPE_ANY`. */
  function CheckCapData(data: CapData, kind: Option<nat>, rights: set<Right>): (e: Error) {
    match data.state
    case NullCap => CapNull
    case RevokedCap => CapRevoked
    case ValidCap =>
      if kind.Some? && kind.value != data.kind then WrongObjectType
      else if !(rights <= data.rights) then InsufficientRights
      else Ok
  }

  /** What a copy with the given mask holds. */
  function Derived(data: CapData, mask: set<Right>): (r: CapData) {
    data.(rights := data.rights * mask, master := false)
  }

  // -------------------------------------------------------------------- lists

  /** The objects with another list for object `o`. */
  function Relisted(objects: seq<Object>, o: ObjectId, list: seq<SlotId>): (r: seq<Object>)
    requires o < |objects|
  {
    objects[o := objects[o].(list := list)]
  }

  function InsertAfter(list: seq<SlotId>, p: SlotId, v: SlotId): (r: seq<SlotId>) {
    if list == [] then [] else if list[0] == p then [p, v] + list[1..] else [list[0]] + InsertAfter(list[1..], p, v)
  }

  /** `v` has been put right behind `p`, and nothing else has moved. */
  ghost predicate PutBehind(before: seq<SlotId>, after: seq<SlotId>, p: SlotId, v: SlotId) {
    exists k | 0 <= k < |before| :: before[k] == p && after == before[..k + 1] + [v] + before[k + 1..]
  }

  lemma InsertPuts(list: seq<SlotId>, p: SlotId, v: SlotId)
    requires p in list
    ensures PutBehind(list, InsertAfter(list, p, v), p, v)
  {
    var k := ParentPlace(list, p, v);
  }

  lemma {:induction false} ParentPlace(list: seq<SlotId>, p: SlotId, v: SlotId) returns (k: nat)
    requires p in list
    ensures k < |list| && list[k] == p && InsertAfter(list, p, v) == list[..k + 1] + [v] + list[k + 1..]
  {
    if list[0] == p {
      k := 0;
    } else {
      var rest := list[1..];
      var j := ParentPlace(rest, p, v);
      k := j + 1;
      assert [list[0]] + (rest[..j + 1] + [v] + rest[j + 1..]) == list[..k + 1] + [v] + list[k + 1..];
    }
  }

  lemma WithoutFacts(list: seq<SlotId>, v: SlotId)
    requires Distinct(list)
    ensures var r := Without<SlotId>(list, v);
            Distinct(r) && (v in list ==> |r| == |list| - 1) &&
            (list != [] && list[0] != v ==> r != [] && r[0] == list[0]) &&
            forall u :: u in r <==> u in list && u != v
  {
    WithoutMembers<SlotId>(list, v);
    WithoutDistinct<SlotId>(list, v);
  }

  lemma {:induction false} InsertFacts(list: seq<SlotId>, p: SlotId, v: SlotId, u: SlotId)
    requires Distinct(list) && p in list && v !in list
    ensures var r := InsertAfter(list, p, v);
            Distinct(r) && (u in r <==> u in list || u == v) && r != [] && r[0] == list[0] && |r| == |list| + 1
  {
    assert list == [list[0]] + list[1..];
    if list[0] == p {
      var r := [p, v] + list[1..];
      assert r[1..] == [v] + list[1..] && r[1..][1..] == list[1..];
    } else {
      InsertFacts(list[1..], p, v, u);
      InsertFacts(list[1..], p, v, list[0]);
    }
  }

  // -------------------------------------------------------------------- steps

  datatype Step =
    | CreateMaster(agent: Agent, slot: SlotId, obj: ObjectId, rights: set<Right>)
    | CopyBegin(agent: Agent, slot: SlotId)
    | CopyLoad(agent: Agent, parent: SlotId, mask: set<Right>)
    | CopyFinish(agent: Agent)
    | DeleteLoad(agent: Agent, slot: SlotId)
    | DeleteFinish(agent: Agent)
    | FreeSlot(agent: Agent)
    | RevokeLoad(agent: Agent, slot: SlotId)
    | RevokeLock(agent: Agent)
    | RevokeNext(agent: Agent)
    | RevokeEnd(agent: Agent)

  /** Nobody holds the cap-list lock of the object. */
  predicate LockFree(s: State, o: ObjectId) {
    forall a | 0 <= a < |s.agents| :: !(s.agents[a].Revoking? && s.agents[a].obj == o)
  }

  predicate FreshSlot(s: State, v: SlotId) {
    v < |s.slots| && !s.slots[v].held
  }

  /** An object gets its one master capability when it is created. */
  predicate Enabled(s: State, step: Step) {
    var a := step.agent;
    a < |s.agents| &&
    var pc := s.agents[a];
    match step
    case CreateMaster(_, v, o, _) => pc.Idle? && FreshSlot(s, v) && o < |s.objects| && !s.objects[o].created
    case CopyBegin(_, v) => pc.Idle? && FreshSlot(s, v)
    case CopyLoad(_, p, _) => pc.CopySlot? && p < |s.slots|
    case CopyFinish(_) => pc.CopyLoaded? && LockFree(s, pc.data.obj)
    case DeleteLoad(_, v) => pc.Idle? && v < |s.slots|
    case DeleteFinish(_) => pc.Deleting? && (pc.data.state.ValidCap? ==> LockFree(s, pc.data.obj))
    case FreeSlot(_) => pc.Unlinked?
    case RevokeLoad(_, v) => pc.Idle? && v < |s.slots|
    case RevokeLock(_) => pc.RevokeLoaded? && LockFree(s, pc.data.obj)
    case RevokeNext(_) => pc.Revoking? && pc.obj < |s.objects| && |s.objects[pc.obj].list| > 1
    case RevokeEnd(_) => pc.Revoking? && pc.obj < |s.objects| && |s.objects[pc.obj].list| <= 1
  }

  function SetPc(s: State, a: Agent, pc: Pc): (r: State)
    requires a < |s.agents|
  {
    s.(agents := s.agents[a := pc])
  }

  function SetData(s: State, v: SlotId, data: CapData): (r: State)
    requires v < |s.slots|
  {
    s.(slots := s.slots[v := s.slots[v].(data := data)])
  }

  function SetList(s: State, o: ObjectId, list: seq<SlotId>): (r: State)
    requires o < |s.objects|
  {
    s.(objects := s.objects[o := s.objects[o].(list := list)])
  }

  /** Give the slot of a failed copy back. */
  function Abandon(s: State, a: Agent, v: SlotId): (r: Result<State>)
    requires a < |s.agents|
  {
    if v >= |s.slots| then Panic else Done(SetPc(s, a, Idle).(slots := s.slots[v := s.slots[v].(held := false)]))
  }

  function ApplyCreate(s: State, a: Agent, v: SlotId, o: ObjectId, rights: set<Right>): (r: Result<State>)
    requires Enabled(s, CreateMaster(a, v, o, rights))
  {
    var x := s.objects[o];
    Done(s.(slots := s.slots[v := s.slots[v].(held := true, data := CapData(ValidCap, o, x.kind, rights, true))],
            objects := s.objects[o := x.(created := true, list := [v] + x.list, masterRights := rights)]))
  }

  function ApplyCopyLoad(s: State, a: Agent, p: SlotId, mask: set<Right>): (r: Result<State>)
    requires Enabled(s, CopyLoad(a, p, mask))
  {
    var v := s.agents[a].copy;
    var data := s.slots[p].data;
    if CheckCapData(data, None, {}) != Ok || data.rights * mask == {} then Abandon(s, a, v)
    else Done(SetPc(s, a, CopyLoaded(v, p, data, mask)))
  }

  function ApplyCopyFinish(s: State, a: Agent): (r: Result<State>)
    requires Enabled(s, CopyFinish(a))
  {
    var pc := s.agents[a];
    var o := pc.data.obj;
    if pc.parent >= |s.slots| || pc.copy >= |s.slots| then Panic
    else if s.slots[pc.parent].data != pc.data then Abandon(s, a, pc.copy)
    else if o >= |s.objects| || pc.parent !in s.objects[o].list then Panic
    else
      var data := Derived(pc.data, pc.mask);
      Done(SetPc(SetList(SetData(s, pc.copy, data), o, InsertAfter(s.objects[o].list, pc.parent, pc.copy)), a, Idle))
  }

  function ApplyDeleteFinish(s: State, a: Agent): (r: Result<State>)
    requires Enabled(s, DeleteFinish(a))
  {
    var pc := s.agents[a];
    var v := pc.slot;
    if v >= |s.slots| then Panic
    else if s.slots[v].data != pc.data then Done(SetPc(s, a, Idle))
    else if pc.data.state.ValidCap? then
      var o := pc.data.obj;
      if o >= |s.objects| || v !in s.objects[o].list then Panic
      else
        var list := Without<SlotId>(s.objects[o].list, v);
        Done(SetPc(SetList(SetData(s, v, NULL_DATA), o, list), a, Unlinked(v, if list == [] then Some(o) else None)))
    else
      var c := s.slots[v].cspace;
      if c >= |s.revoked| || v !in s.revoked[c] then Panic
      else
        var revoked := s.revoked[c := Without<SlotId>(s.revoked[c], v)];
        Done(SetPc(SetData(s, v, NULL_DATA).(revoked := revoked), a, Unlinked(v, None)))
  }

  function ApplyFree(s: State, a: Agent): (r: Result<State>)
    requires Enabled(s, FreeSlot(a))
  {
    var pc := s.agents[a];
    if pc.slot >= |s.slots| then Panic
    else
      var r := SetPc(s, a, Idle).(slots := s.slots[pc.slot := s.slots[pc.slot].(held := false)]);
      if pc.put.None? then Done(r)
      else if pc.put.value >= |s.objects| || s.objects[pc.put.value].puts > 0 then Panic
      else
        var x := s.objects[pc.put.value];
        Done(r.(objects := s.objects[pc.put.value := x.(puts := x.puts + 1)]))
  }

  function ApplyRevokeLock(s: State, a: Agent): (r: Result<State>)
    requires Enabled(s, RevokeLock(a))
  {
    var pc := s.agents[a];
    var o := pc.data.obj;
    if pc.slot >= |s.slots| then Panic
    else if s.slots[pc.slot].data != pc.data then Done(SetPc(s, a, Idle))
    else if o >= |s.objects| || s.objects[o].list == [] || s.objects[o].list[0] != pc.slot then Panic
    else Done(SetPc(s, a, Revoking(o, pc.slot)))
  }

  /** What revocation leaves of a capability's data. */
  function RevokedData(data: CapData): (r: CapData) {
    data.(state := RevokedCap, obj := 0)
  }

  /** The capability is revoked: it leads nowhere, and its type, rights and kind of
      capability can still be told. */
  predicate IsRevokedFrom(before: CapData, after: CapData) {
    after.state.RevokedCap? && after.obj == 0 && after.kind == before.kind && after.rights == before.rights &&
    after.master == before.master
  }

  function ApplyRevokeNext(s: State, a: Agent): (r: Result<State>)
    requires Enabled(s, RevokeNext(a))
  {
    var o := s.agents[a].obj;
    var v := s.objects[o].list[1];
    if v >= |s.slots| || s.slots[v].cspace >= |s.revoked| then Panic
    else
      var c := s.slots[v].cspace;
      Done(SetList(SetData(s, v, RevokedData(s.slots[v].data)), o, Without<SlotId>(s.objects[o].list, v))
           .(revoked := s.revoked[c := [v] + s.revoked[c]]))
  }

  function Apply(s: State, step: Step): (r: Result<State>)
    requires Enabled(s, step)
  {
    var a := step.agent;
    match step
    case CreateMaster(_, v, o, rights) => ApplyCreate(s, a, v, o, rights)
    case CopyBegin(_, v) => Done(SetPc(s, a, CopySlot(v)).(slots := s.slots[v := s.slots[v].(held := true)]))
    case CopyLoad(_, p, mask) => ApplyCopyLoad(s, a, p, mask)
    case CopyFinish(_) => ApplyCopyFinish(s, a)
    case DeleteLoad(_, v) =>
      Done(if s.slots[v].data.state.NullCap? then s else SetPc(s, a, Deleting(v, s.slots[v].data)))
    case DeleteFinish(_) => ApplyDeleteFinish(s, a)
    case FreeSlot(_) => ApplyFree(s, a)
    case RevokeLoad(_, v) =>
      Done(if CheckCapData(s.slots[v].data, None, {}) != Ok || !s.slots[v].data.master then s
           else SetPc(s, a, RevokeLoaded(v, s.slots[v].data)))
    case RevokeLock(_) => ApplyRevokeLock(s, a)
    case RevokeNext(_) => ApplyRevokeNext(s, a)
    case RevokeEnd(_) => Done(SetPc(s, a, Idle))
  }

  predicate Init(s: State) {
    (forall v | 0 <= v < |s.slots| :: s.slots[v].cspace < |s.revoked| && !s.slots[v].held &&
                                      s.slots[v].data == NULL_DATA) &&
    (forall o | 0 <= o < |s.objects| :: !s.objects[o].created && s.objects[o].list == [] && s.objects[o].puts == 0) &&
    (forall c | 0 <= c < |s.revoked| :: s.revoked[c] == []) &&
    (forall a | 0 <= a < |s.agents| :: s.agents[a].Idle?)
  }

  ghost predicate Follows(states: seq<State>, steps: seq<Step>, i: nat)
    requires i < |steps| < |states|
  {
    Enabled(states[i], steps[i]) && Apply(states[i], steps[i]) == Done(states[i + 1])
  }

  ghost predicate IsRun(states: seq<State>, steps: seq<Step>) {
    |states| == |steps| + 1 && Init(states[0]) && forall i | 0 <= i < |steps| :: Follows(states, steps, i)
  }
}
