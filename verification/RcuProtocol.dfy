/** The read-copy-update protocol of `rcu_bitmap.c` as a transition system.

    Every CPU owns three batches of updates and takes part in a global grace
    period: a generation number together with the set of CPUs that have not yet
    acknowledged it. Each step below is one atomic access of the code, so the
    compare-exchange loops of `rcu_bitmap_quiesce` and
    `rcu_bitmap_request_grace_period` may be interrupted between any two accesses.
    Generations are unbounded here; `SerialNumbers` treats the 32-bit comparison. */
module RcuProtocol {
  import opened Outcomes
  import opened Sums

  type Cpu = nat

  /** A read-side critical section. */
  datatype Section = Section(id: nat)

  /** A queued update. `readers` and `cls` are history: the sections that were open, on
      any CPU, when the update was enqueued, and the class it was enqueued in. */
  datatype Update = Update(id: nat, readers: set<Section>, cls: nat)

  /** `current_period`: the pair that is compare-exchanged as one word. */
  datatype Period = Period(generation: nat, waitingFor: set<Cpu>)

  /** One list of updates for each update class. */
  type Batch = seq<seq<Update>>

  /** Where a CPU stands inside an RCU handler. */
  datatype Pc =
    | AtRest
    | QuiesceLoaded(seen: Period)
    | QuiesceWantsNew(seen: Period)
    | QuiesceReady(seen: Period, next: Period, starts: bool)
    | Requesting(generation: nat)
    | RequestStored(target: nat)
    | RequestUnmet(target: nat)
    | RequestLoop(target: nat, oldMax: nat)
    | Updating(cls: nat, rest: seq<Update>, done: nat)

  datatype CpuState = CpuState(
    isActive: bool,
    target: nat,
    updateCount: nat,
    readyUpdates: bool,
    next: Batch,
    waiting: Batch,
    ready: Batch,
    pc: Pc,
    section: Option<Section>)

  /** `executed` and `served` log which updates have run, and the class whose handler
      was called for each of them. */
  datatype State = State(
    period: Period,
    active: set<Cpu>,
    maxTarget: nat,
    waiterCount: nat,
    cpus: seq<CpuState>,
    sections: nat,
    enqueued: seq<Update>,
    executed: seq<Update>,
    served: seq<nat>)

  // ------------------------------------------------------------------ batches

  /** How many members of `q` match `key`: a particular update, or any update at all. */
  function Hits(q: seq<Update>, key: Option<Update>): (n: nat) {
    match key
    case None => |q|
    case Some(u) => multiset(q)[u]
  }

  function HitsOf(key: Option<Update>): (f: seq<Update> -> nat) {
    q => Hits(q, key)
  }

  function BatchHits(b: Batch, key: Option<Update>): (n: nat) {
    Sum(b, HitsOf(key))
  }

  function EmptyBatch(classes: nat): (b: Batch) {
    seq(classes, _ => [])
  }

  lemma BatchReplace(b: Batch, k: nat, q: seq<Update>, key: Option<Update>)
    requires k < |b|
    ensures BatchHits(b[k := q], key) == BatchHits(b, key) - Hits(b[k], key) + Hits(q, key)
  {
    SumReplace(b, k, q, HitsOf(key));
  }

  lemma BatchEmpty(b: Batch)
    ensures BatchHits(b, None) == 0 <==> forall k | 0 <= k < |b| :: b[k] == []
  {
    SumZero(b, HitsOf(None));
    assert forall k | 0 <= k < |b| :: HitsOf(None)(b[k]) == |b[k]|;
  }

  /** Updates taken off the ready batch whose callbacks have not run yet. */
  function Rest(pc: Pc): (q: seq<Update>) {
    if pc.Updating? then pc.rest else []
  }

  /** Callbacks already run whose count has not been subtracted yet. */
  function Finished(pc: Pc): (n: nat) {
    if pc.Updating? then pc.done else 0
  }

  function CpuHits(x: CpuState, key: Option<Update>): (n: nat) {
    BatchHits(x.next, key) + BatchHits(x.waiting, key) + BatchHits(x.ready, key) + Hits(Rest(x.pc), key)
  }

  function CpuHitsOf(key: Option<Update>): (f: CpuState -> nat) {
    x => CpuHits(x, key)
  }

  /** The updates matching `key` that are queued somewhere and not run yet. */
  function Pending(cpus: seq<CpuState>, key: Option<Update>): (n: nat) {
    Sum(cpus, CpuHitsOf(key))
  }

  function HasUpdates(x: CpuState): (n: nat) {
    if x.updateCount > 0 then 1 else 0
  }

  /** The number of CPUs with a nonzero update count. */
  function Waiters(cpus: seq<CpuState>): (n: nat) {
    Sum(cpus, HasUpdates)
  }

  // -------------------------------------------------------------------- steps

  datatype Step =
    | ReadStart(cpu: Cpu)
    | ReadFinish(cpu: Cpu)
    | Enqueue(cpu: Cpu, cls: nat)
    | Activate(cpu: Cpu)
    | Deactivate(cpu: Cpu)
    | QuiesceLoad(cpu: Cpu)
    | QuiesceDecide(cpu: Cpu)
    | QuiesceReadActive(cpu: Cpu)
    | QuiesceExchange(cpu: Cpu)
    | Notify(cpu: Cpu)
    | RequestStore(cpu: Cpu)
    | RequestRecheck(cpu: Cpu)
    | RequestReadMax(cpu: Cpu)
    | RequestExchange(cpu: Cpu, spurious: bool)
    | UpdateBegin(cpu: Cpu)
    | UpdateRun(cpu: Cpu)
    | UpdateNextClass(cpu: Cpu)
    | UpdateEnd(cpu: Cpu)

  predicate Enabled(s: State, step: Step) {
    step.cpu < |s.cpus| &&
    var x := s.cpus[step.cpu];
    match step
    // A section needs an active CPU; update callbacks may contain sections.
    case ReadStart(_) => (x.pc.AtRest? || x.pc.Updating?) && x.isActive && x.section.None?
    case ReadFinish(_) => x.section.Some?
    case Enqueue(_, cls) => (x.pc.AtRest? || x.pc.Updating?) && cls < |x.next|
    case Activate(_) => x.pc.AtRest?
    case Deactivate(_) => x.pc.AtRest? && x.section.None?
    case QuiesceLoad(_) => x.pc.AtRest? && x.section.None?
    case QuiesceDecide(_) => x.pc.QuiesceLoaded?
    case QuiesceReadActive(_) => x.pc.QuiesceWantsNew?
    case QuiesceExchange(_) => x.pc.QuiesceReady?
    // `rcu_bitmap_notify` empties the ready batch first and advances the batches
    // only when the awaited generation has been reached.
    case Notify(_) => x.pc.AtRest? && !x.readyUpdates && x.target <= s.period.generation
    case RequestStore(_) => x.pc.Requesting?
    case RequestRecheck(_) => x.pc.RequestStored?
    case RequestReadMax(_) => x.pc.RequestUnmet?
    case RequestExchange(_, _) => x.pc.RequestLoop?
    case UpdateBegin(_) => x.pc.AtRest? && x.readyUpdates && x.ready != []
    case UpdateRun(_) => x.pc.Updating? && x.pc.rest != []
    case UpdateNextClass(_) => x.pc.Updating? && x.pc.rest == [] && x.pc.cls + 1 < |x.ready|
    case UpdateEnd(_) =>
      x.pc.Updating? && x.pc.rest == [] && x.pc.cls + 1 == |x.ready| &&
      x.pc.done <= x.updateCount && (0 < x.pc.done == x.updateCount ==> 1 <= s.waiterCount)
  }

  function SetCpu(s: State, c: Cpu, x: CpuState): (r: State)
    requires c < |s.cpus|
  {
    s.(cpus := s.cpus[c := x])
  }

  /** The sections open anywhere, the history an enqueued update is stamped with. */
  function OpenSections(s: State): (r: set<Section>) {
    set c | 0 <= c < |s.cpus| && s.cpus[c].section.Some? :: s.cpus[c].section.value
  }

  function DoEnqueue(s: State, c: Cpu, cls: nat): (r: State)
    requires Enabled(s, Enqueue(c, cls))
  {
    var x := s.cpus[c];
    var u := Update(|s.enqueued|, OpenSections(s), cls);
    SetCpu(s, c, x.(updateCount := x.updateCount + 1, next := x.next[cls := [u] + x.next[cls]]))
      .(waiterCount := s.waiterCount + if x.updateCount == 0 then 1 else 0,
        enqueued := s.enqueued + [u])
  }

  function DoQuiesceDecide(s: State, c: Cpu): (pc: Pc)
    requires Enabled(s, QuiesceDecide(c))
  {
    var seen := s.cpus[c].pc.seen;
    var left := seen.waitingFor - {c};
    if left != {} || s.maxTarget == seen.generation
    then QuiesceReady(seen, Period(seen.generation, left), false)
    else QuiesceWantsNew(seen)
  }

  function DoNotify(s: State, c: Cpu): (x': CpuState)
    requires Enabled(s, Notify(c))
  {
    var x := s.cpus[c];
    x.(ready := x.waiting, waiting := x.next, next := EmptyBatch(|x.next|),
       readyUpdates := exists k | 0 <= k < |x.waiting| :: x.waiting[k] != [],
       pc := if exists k | 0 <= k < |x.next| :: x.next[k] != [] then Requesting(s.period.generation) else AtRest)
  }

  function DoUpdateEnd(s: State, c: Cpu): (r: State)
    requires Enabled(s, UpdateEnd(c))
  {
    var x := s.cpus[c];
    var left := x.updateCount - x.pc.done;
    SetCpu(s, c, x.(updateCount := left, readyUpdates := false, pc := AtRest))
      .(waiterCount := s.waiterCount - if x.pc.done != 0 && left == 0 then 1 else 0)
  }

  function Apply(s: State, step: Step): (r: State)
    requires Enabled(s, step)
  {
    var c := step.cpu;
    var x := s.cpus[c];
    match step
    case ReadStart(_) =>
      SetCpu(s, c, x.(section := Some(Section(s.sections)))).(sections := s.sections + 1)
    case ReadFinish(_) => SetCpu(s, c, x.(section := None))
    case Enqueue(_, cls) => DoEnqueue(s, c, cls)
    case Activate(_) => SetCpu(s, c, x.(isActive := true)).(active := s.active + {c})
    case Deactivate(_) => SetCpu(s, c, x.(isActive := false)).(active := s.active - {c})
    case QuiesceLoad(_) => SetCpu(s, c, x.(pc := QuiesceLoaded(s.period)))
    case QuiesceDecide(_) => SetCpu(s, c, x.(pc := DoQuiesceDecide(s, c)))
    case QuiesceReadActive(_) =>
      SetCpu(s, c, x.(pc := QuiesceReady(x.pc.seen, Period(x.pc.seen.generation + 1, s.active), true)))
    case QuiesceExchange(_) =>
      if s.period == x.pc.seen
      then SetCpu(s, c, x.(pc := AtRest)).(period := x.pc.next)
      else SetCpu(s, c, x.(pc := QuiesceLoaded(s.period)))
    case Notify(_) => SetCpu(s, c, DoNotify(s, c))
    case RequestStore(_) =>
      SetCpu(s, c, x.(target := x.pc.generation + 2, pc := RequestStored(x.pc.generation + 2)))
    case RequestRecheck(_) =>
      SetCpu(s, c, x.(pc := if s.period.generation < x.pc.target then RequestUnmet(x.pc.target) else AtRest))
    case RequestReadMax(_) => SetCpu(s, c, x.(pc := RequestLoop(x.pc.target, s.maxTarget)))
    case RequestExchange(_, spurious) =>
      if x.pc.target < x.pc.oldMax then SetCpu(s, c, x.(pc := AtRest))
      else if s.maxTarget == x.pc.oldMax && !spurious
      then SetCpu(s, c, x.(pc := AtRest)).(maxTarget := x.pc.target)
      else SetCpu(s, c, x.(pc := RequestLoop(x.pc.target, s.maxTarget)))
    case UpdateBegin(_) => SetCpu(s, c, x.(pc := Updating(0, x.ready[0], 0), ready := x.ready[0 := []]))
    case UpdateRun(_) =>
      SetCpu(s, c, x.(pc := x.pc.(rest := x.pc.rest[1..], done := x.pc.done + 1)))
        .(executed := s.executed + [x.pc.rest[0]], served := s.served + [x.pc.cls])
    case UpdateNextClass(_) =>
      var k := x.pc.cls + 1;
      SetCpu(s, c, x.(pc := x.pc.(cls := k, rest := x.ready[k]), ready := x.ready[k := []]))
    case UpdateEnd(_) => DoUpdateEnd(s, c)
  }

  // --------------------------------------------------------------------- runs

  /** Cold boot: zeroed state, nothing queued, every CPU inactive. */
  predicate Init(s: State) {
    s.period == Period(0, {}) && s.active == {} && s.maxTarget == 0 && s.waiterCount == 0 &&
    s.sections == 0 && s.enqueued == [] && s.executed == [] && s.served == [] &&
    forall c | 0 <= c < |s.cpus| ::
      var x := s.cpus[c];
      !x.isActive && x.target == 0 && x.updateCount == 0 && !x.readyUpdates && x.pc == AtRest && x.section == None &&
      |x.next| >= 1 && x.next == x.waiting == x.ready == EmptyBatch(|x.next|)
  }

  /** Step `i` leads from state `i` to the next one. */
  ghost predicate Follows(states: seq<State>, steps: seq<Step>, i: nat)
    requires i < |steps| < |states|
  {
    Enabled(states[i], steps[i]) && states[i + 1] == Apply(states[i], steps[i])
  }

  ghost predicate IsPath(states: seq<State>, steps: seq<Step>) {
    |states| == |steps| + 1 && forall i | 0 <= i < |steps| :: Follows(states, steps, i)
  }

  /** `states` are the successive states of the run that takes `steps`. */
  ghost predicate IsRun(states: seq<State>, steps: seq<Step>) {
    IsPath(states, steps) && Init(states[0])
  }

  /** `t` can be reached from `s` by steps of the protocol. */
  ghost predicate Leads(s: State, t: State) {
    exists states, steps :: IsPath(states, steps) && states[0] == s && states[|steps|] == t
  }

  lemma LeadsToSelf(s: State)
    ensures Leads(s, s)
  {
    assert IsPath([s], []);
  }

  lemma LeadsOn(s: State, t: State, step: Step)
    requires Leads(s, t) && Enabled(t, step)
    ensures Leads(s, Apply(t, step))
  {
    var states, steps :| IsPath(states, steps) && states[0] == s && states[|steps|] == t;
    var states', steps' := states + [Apply(t, step)], steps + [step];
    forall i | 0 <= i < |steps'| ensures Follows(states', steps', i) {
      if i < |steps| { assert Follows(states, steps, i); }
    }
    assert IsPath(states', steps');
  }

  lemma LeadsJoin(s: State, t: State, u: State)
    requires Leads(s, t) && Leads(t, u)
    ensures Leads(s, u)
  {
    var states, steps :| IsPath(states, steps) && states[0] == s && states[|steps|] == t;
    var states', steps' :| IsPath(states', steps') && states'[0] == t && states'[|steps'|] == u;
    var all, both := states[..|steps|] + states', steps + steps';
    forall i | 0 <= i < |both| ensures Follows(all, both, i) {
      if i < |steps| {
        assert Follows(states, steps, i);
      } else {
        assert Follows(states', steps', i - |steps|);
        assert all[i] == states'[i - |steps|] && all[i + 1] == states'[i + 1 - |steps|];
      }
    }
    assert IsPath(all, both);
  }

  /** Only what callbacks on CPU `c` may change has changed. */
  ghost predicate SameBut(s: State, t: State, c: Cpu) {
    t.period == s.period && t.active == s.active && t.maxTarget == s.maxTarget && |t.cpus| == |s.cpus| &&
    c < |s.cpus| && t.cpus[c].waiting == s.cpus[c].waiting && t.cpus[c].target == s.cpus[c].target &&
    t.cpus[c].isActive == s.cpus[c].isActive && t.cpus[c].section == s.cpus[c].section &&
    t.cpus == s.cpus[c := t.cpus[c]]
  }

  /** The period after CPU `c` has acknowledged it, when nobody intervenes. */
  function Quiesced(s: State, c: Cpu): (p: Period) {
    var left := s.period.waitingFor - {c};
    if left != {} || s.maxTarget == s.period.generation then Period(s.period.generation, left)
    else Period(s.period.generation + 1, s.active)
  }
}
