/** The condition of the grace-period guarantee is exact. From every reachable state
    in which a period is about to start over a section that a waiting update awaits,
    the protocol can go on to run an update under that section. The proof drives the
    CPUs that the new period waits for, one by one, through a quiescent state. */
module RcuOvertaking {
  import opened Outcomes
  import opened Sums
  import opened RcuProtocol
  import opened RcuSafety
  import opened RcuGrace

  // -------------------------------------------------------------- reachable states

  ghost predicate Reachable(s: State) {
    exists states: seq<State>, steps: seq<Step> :: IsRun(states, steps) && states[|steps|] == s
  }

  ghost predicate Present(n: nat, cpus: set<Cpu>) {
    forall c | c in cpus :: c < n
  }

  ghost predicate PassInRange(n: nat, pc: Pc) {
    match pc
    case QuiesceLoaded(seen) => Present(n, seen.waitingFor)
    case QuiesceReady(_, next, _) => Present(n, next.waitingFor)
    case _ => true
  }

  /** Every set of CPUs that is stored or held by a pass consists of CPUs that exist. */
  ghost predicate InRange(s: State) {
    Present(|s.cpus|, s.active) && Present(|s.cpus|, s.period.waitingFor) &&
    forall c | 0 <= c < |s.cpus| :: PassInRange(|s.cpus|, s.cpus[c].pc)
  }

  /** What holds of every reachable state, overtaking or not. */
  ghost predicate Steady(s: State) {
    Accounting(s) && Bounded(s) && Sound(s) && InRange(s)
  }

  lemma InRangeStep(s: State, step: Step)
    requires InRange(s) && Enabled(s, step)
    ensures InRange(Apply(s, step))
  {
    OneCpu(s, step);
    OwnInRange(s, step);
  }

  /** What the step does to the shared sets and to its own CPU. */
  lemma OwnInRange(s: State, step: Step)
    requires InRange(s) && Enabled(s, step)
    ensures var r := Apply(s, step);
            |r.cpus| == |s.cpus| && Present(|s.cpus|, r.active) && Present(|s.cpus|, r.period.waitingFor) &&
            PassInRange(|s.cpus|, r.cpus[step.cpu].pc)
  {
    assert PassInRange(|s.cpus|, s.cpus[step.cpu].pc);
  }

  lemma SteadyStep(s: State, step: Step)
    requires Steady(s) && Enabled(s, step)
    ensures Steady(Apply(s, step))
  {
    AccountingStep(s, step);
    BoundedStep(s, step);
    SoundStep(s, step);
    InRangeStep(s, step);
  }

  lemma {:induction false} SteadyHolds(states: seq<State>, steps: seq<Step>, i: nat)
    requires IsRun(states, steps) && i < |states|
    ensures Steady(states[i])
  {
    if i == 0 {
      InitAccounting(states[0]);
    } else {
      SteadyHolds(states, steps, i - 1);
      assert Follows(states, steps, i - 1);
      SteadyStep(states[i - 1], steps[i - 1]);
    }
  }

  /** One step further on a path from `s0`. */
  lemma Go(s0: State, s: State, step: Step) returns (t: State)
    requires Leads(s0, s) && Reachable(s) && Enabled(s, step)
    ensures t == Apply(s, step) && Leads(s0, t) && Reachable(t)
  {
    t := Apply(s, step);
    LeadsOn(s0, s, step);
    ReachableOn(s, step);
  }

  lemma ReachableOn(s: State, step: Step)
    requires Reachable(s) && Enabled(s, step)
    ensures Reachable(Apply(s, step))
  {
    var states: seq<State>, steps: seq<Step> :| IsRun(states, steps) && states[|steps|] == s;
    var states', steps' := states + [Apply(s, step)], steps + [step];
    forall i | 0 <= i < |steps'| ensures Follows(states', steps', i) {
      if i < |steps| { assert Follows(states, steps, i); }
    }
    assert IsRun(states', steps');
  }

  lemma IsSteady(s: State)
    requires Reachable(s)
    ensures Steady(s)
  {
    var states: seq<State>, steps: seq<Step> :| IsRun(states, steps) && states[|steps|] == s;
    SteadyHolds(states, steps, |steps|);
  }

  lemma CpuFacts(s: State, p: Cpu)
    requires Reachable(s) && p < |s.cpus|
    ensures CpuBound(s, s.cpus[p]) && PassSound(s, p) && Shape(s.cpus[p])
  {
    IsSteady(s);
    assert Accounted(s.cpus[p]);
  }

  // ---------------------------------------------------- bringing one CPU to rest

  /** CPU `p` has finished its request, and nothing else has changed but `max_target`. */
  ghost predicate Requested(s: State, t: State, p: Cpu) {
    p < |s.cpus| && s.maxTarget <= t.maxTarget &&
    t == SetCpu(s, p, s.cpus[p].(target := Due(s.cpus[p]), pc := AtRest)).(maxTarget := t.maxTarget)
  }

  lemma LeaveLoop(s0: State, s: State, p: Cpu) returns (t: State)
    requires Leads(s0, s) && Reachable(s) && p < |s.cpus| && s.cpus[p].pc.RequestLoop?
    ensures Leads(s0, t) && Reachable(t) && Requested(s, t, p)
  {
    CpuFacts(s, p);
    t := Go(s0, s, RequestExchange(p, false));
    if t.cpus[p].pc.RequestLoop? {
      t := Go(s0, t, RequestExchange(p, false));
    }
    assert t.cpus == s.cpus[p := s.cpus[p].(pc := AtRest)];
  }

  lemma LeaveUnmet(s0: State, s: State, p: Cpu) returns (t: State)
    requires Leads(s0, s) && Reachable(s) && p < |s.cpus| && s.cpus[p].pc.RequestUnmet?
    ensures Leads(s0, t) && Reachable(t) && Requested(s, t, p)
  {
    var r := Go(s0, s, RequestReadMax(p));
    t := LeaveLoop(s0, r, p);
    assert t.cpus == s.cpus[p := t.cpus[p]];
  }

  lemma LeaveStored(s0: State, s: State, p: Cpu) returns (t: State)
    requires Leads(s0, s) && Reachable(s) && p < |s.cpus| && s.cpus[p].pc.RequestStored?
    ensures Leads(s0, t) && Reachable(t) && Requested(s, t, p)
  {
    var r := Go(s0, s, RequestRecheck(p));
    if r.cpus[p].pc.AtRest? {
      t := r;
    } else {
      t := LeaveUnmet(s0, r, p);
    }
    assert t.cpus == s.cpus[p := t.cpus[p]];
  }

  lemma LeaveRequesting(s0: State, s: State, p: Cpu) returns (t: State)
    requires Leads(s0, s) && Reachable(s) && p < |s.cpus| && s.cpus[p].pc.Requesting?
    ensures Leads(s0, t) && Reachable(t) && Requested(s, t, p)
  {
    var r := Go(s0, s, RequestStore(p));
    t := LeaveStored(s0, r, p);
    assert t.cpus == s.cpus[p := t.cpus[p]];
  }

  lemma FinishRequest(s0: State, s: State, p: Cpu) returns (t: State)
    requires Leads(s0, s) && Reachable(s) && p < |s.cpus|
    requires s.cpus[p].pc.Requesting? || s.cpus[p].pc.RequestStored? || s.cpus[p].pc.RequestUnmet? ||
             s.cpus[p].pc.RequestLoop?
    ensures Leads(s0, t) && Reachable(t) && Requested(s, t, p)
  {
    match s.cpus[p].pc
    case Requesting(_) => t := LeaveRequesting(s0, s, p);
    case RequestStored(_) => t := LeaveStored(s0, s, p);
    case RequestUnmet(_) => t := LeaveUnmet(s0, s, p);
    case RequestLoop(_, _) => t := LeaveLoop(s0, s, p);
  }

  lemma {:induction false} FinishUpdates(s0: State, s: State, p: Cpu) returns (t: State)
    requires Leads(s0, s) && Reachable(s) && p < |s.cpus| && s.cpus[p].pc.Updating?
    ensures Leads(s0, t) && Reachable(t) && SameBut(s, t, p) && t.cpus[p].pc.AtRest? && !t.cpus[p].readyUpdates
    decreases |s.cpus[p].ready| - s.cpus[p].pc.cls, |s.cpus[p].pc.rest|
  {
    CpuFacts(s, p);
    var pc := s.cpus[p].pc;
    if pc.rest != [] {
      var r := Go(s0, s, UpdateRun(p));
      t := FinishUpdates(s0, r, p);
    } else if pc.cls + 1 < |s.cpus[p].ready| {
      var r := Go(s0, s, UpdateNextClass(p));
      t := FinishUpdates(s0, r, p);
    } else {
      EndIsEnabled(s, p);
      t := Go(s0, s, UpdateEnd(p));
    }
    assert t.cpus == s.cpus[p := t.cpus[p]];
  }

  lemma EndIsEnabled(s: State, p: Cpu)
    requires Reachable(s) && p < |s.cpus| && s.cpus[p].pc.Updating?
    requires s.cpus[p].pc.rest == [] && s.cpus[p].pc.cls + 1 == |s.cpus[p].ready|
    ensures Enabled(s, UpdateEnd(p))
  {
    IsSteady(s);
    EndAccounted(s.cpus[p]);
    if s.cpus[p].pc.done > 0 {
      UpdateEndIsEnabled(s, p);
    }
  }

  /** A pass that has loaded the current period runs to its exchange undisturbed. */
  lemma FreshPass(s0: State, s: State, p: Cpu) returns (t: State)
    requires Leads(s0, s) && Reachable(s) && p < |s.cpus| && s.cpus[p].pc == QuiesceLoaded(s.period)
    ensures Leads(s0, t) && Reachable(t) && t == SetCpu(s, p, s.cpus[p].(pc := AtRest)).(period := Quiesced(s, p))
  {
    var r := Go(s0, s, QuiesceDecide(p));
    if r.cpus[p].pc.QuiesceWantsNew? {
      r := Go(s0, r, QuiesceReadActive(p));
    }
    t := Go(s0, r, QuiesceExchange(p));
    assert t.cpus == s.cpus[p := s.cpus[p].(pc := AtRest)];
  }

  /** The period is `s`'s with fewer CPUs to wait for, or a later one. */
  ghost predicate Later(s: State, t: State) {
    s.period.generation <= t.period.generation &&
    (s.period.generation == t.period.generation ==> t.period.waitingFor <= s.period.waitingFor)
  }

  /** CPU `p` has finished its pass, and nothing else has changed but the period. */
  ghost predicate Passed(s: State, t: State, p: Cpu) {
    p < |s.cpus| && Later(s, t) && t == SetCpu(s, p, s.cpus[p].(pc := AtRest)).(period := t.period)
  }

  lemma LeaveReady(s0: State, s: State, p: Cpu) returns (t: State)
    requires Leads(s0, s) && Reachable(s) && p < |s.cpus| && s.cpus[p].pc.QuiesceReady?
    ensures Leads(s0, t) && Reachable(t) && Passed(s, t, p)
  {
    CpuFacts(s, p);
    t := Go(s0, s, QuiesceExchange(p));
    if !t.cpus[p].pc.AtRest? {
      t := FreshPass(s0, t, p);
    }
    assert t.cpus == s.cpus[p := s.cpus[p].(pc := AtRest)];
  }

  lemma LeaveWanting(s0: State, s: State, p: Cpu) returns (t: State)
    requires Leads(s0, s) && Reachable(s) && p < |s.cpus| && s.cpus[p].pc.QuiesceWantsNew?
    ensures Leads(s0, t) && Reachable(t) && Passed(s, t, p)
  {
    var r := Go(s0, s, QuiesceReadActive(p));
    t := LeaveReady(s0, r, p);
    assert t.cpus == s.cpus[p := s.cpus[p].(pc := AtRest)];
  }

  lemma LeaveLoaded(s0: State, s: State, p: Cpu) returns (t: State)
    requires Leads(s0, s) && Reachable(s) && p < |s.cpus| && s.cpus[p].pc.QuiesceLoaded?
    ensures Leads(s0, t) && Reachable(t) && Passed(s, t, p)
  {
    var r := Go(s0, s, QuiesceDecide(p));
    if r.cpus[p].pc.QuiesceWantsNew? {
      t := LeaveWanting(s0, r, p);
    } else {
      t := LeaveReady(s0, r, p);
    }
    assert t.cpus == s.cpus[p := s.cpus[p].(pc := AtRest)];
  }

  lemma FinishPass(s0: State, s: State, p: Cpu) returns (t: State)
    requires Leads(s0, s) && Reachable(s) && p < |s.cpus|
    requires s.cpus[p].pc.QuiesceLoaded? || s.cpus[p].pc.QuiesceWantsNew? || s.cpus[p].pc.QuiesceReady?
    ensures Leads(s0, t) && Reachable(t) && Passed(s, t, p)
  {
    match s.cpus[p].pc
    case QuiesceLoaded(_) => t := LeaveLoaded(s0, s, p);
    case QuiesceWantsNew(_) => t := LeaveWanting(s0, s, p);
    case QuiesceReady(_, _, _) => t := LeaveReady(s0, s, p);
  }

  /** On the way from `s` to `t` the section of CPU `c` has stayed open, no waiting
      batch has moved, and the period has only made progress. */
  ghost predicate Kept(s: State, t: State, c: Cpu) {
    Leads(s, t) && Reachable(t) && Later(s, t) && s.maxTarget <= t.maxTarget && c < |s.cpus| == |t.cpus| &&
    t.cpus[c].section == s.cpus[c].section &&
    forall x | 0 <= x < |s.cpus| :: t.cpus[x].waiting == s.cpus[x].waiting && Due(t.cpus[x]) == Due(s.cpus[x])
  }

  /** CPU `p` has come to rest and no other CPU has moved. */
  ghost predicate Rested(s: State, t: State, p: Cpu) {
    p < |s.cpus| == |t.cpus| && Later(s, t) && s.maxTarget <= t.maxTarget && t.cpus == s.cpus[p := t.cpus[p]] &&
    t.cpus[p].pc.AtRest? && t.cpus[p].section == s.cpus[p].section && t.cpus[p].waiting == s.cpus[p].waiting &&
    Due(t.cpus[p]) == Due(s.cpus[p])
  }

  lemma ComeToRest(s: State, p: Cpu) returns (t: State)
    requires Reachable(s) && p < |s.cpus|
    ensures Leads(s, t) && Reachable(t) && Rested(s, t, p)
  {
    LeadsToSelf(s);
    var pc := s.cpus[p].pc;
    if pc.AtRest? {
      t := s;
    } else if pc.Updating? {
      t := FinishUpdates(s, s, p);
    } else if pc.QuiesceLoaded? || pc.QuiesceWantsNew? || pc.QuiesceReady? {
      t := FinishPass(s, s, p);
    } else {
      t := FinishRequest(s, s, p);
    }
  }

  lemma Settle(s: State, p: Cpu, c: Cpu) returns (t: State)
    requires Reachable(s) && p < |s.cpus| && c < |s.cpus|
    ensures Kept(s, t, c) && t.cpus[p].pc.AtRest? && t.cpus == s.cpus[p := t.cpus[p]]
  {
    t := ComeToRest(s, p);
  }

  // ------------------------------------------------------- the next generation

  lemma KeptJoin(s: State, t: State, u: State, c: Cpu)
    requires Kept(s, t, c) && Kept(t, u, c)
    ensures Kept(s, u, c)
  {
    LeadsJoin(s, t, u);
  }

  lemma CloseSection(s: State, p: Cpu) returns (t: State)
    requires Reachable(s) && p < |s.cpus|
    ensures Leads(s, t) && Reachable(t) && t == SetCpu(s, p, s.cpus[p].(section := None))
  {
    LeadsToSelf(s);
    if s.cpus[p].section.Some? {
      t := Go(s, s, ReadFinish(p));
    } else {
      t := s;
      assert s.cpus[p := s.cpus[p].(section := None)] == s.cpus;
    }
  }

  /** CPU `p`, brought to rest and out of its section, acknowledges the period. */
  lemma PassThrough(s: State, p: Cpu, c: Cpu) returns (t: State)
    requires Reachable(s) && p < |s.cpus| && c < |s.cpus| && p != c && s.cpus[p].pc.AtRest?
    ensures Kept(s, t, c) && t.period == Quiesced(s, p)
  {
    var r := CloseSection(s, p);
    var r' := Go(s, r, QuiesceLoad(p));
    t := FreshPass(s, r', p);
    assert t.cpus == s.cpus[p := s.cpus[p].(section := None)];
  }

  lemma Acknowledge(s: State, p: Cpu, c: Cpu) returns (t: State)
    requires Reachable(s) && p < |s.cpus| && c < |s.cpus| && p != c
    ensures Kept(s, t, c)
    ensures t.period.generation > s.period.generation || p !in t.period.waitingFor
    ensures s.period.waitingFor <= {p} && s.period.generation < s.maxTarget ==>
            t.period.generation > s.period.generation
  {
    var r := Settle(s, p, c);
    t := PassThrough(r, p, c);
    KeptJoin(s, r, t, c);
    assert r.period.waitingFor <= {p} ==> r.period.waitingFor - {p} == {};
  }

  /** A period that does not wait for CPU `c` can end, and the next one start, while
      `c` does nothing. */
  lemma {:induction false} NextGeneration(s: State, c: Cpu, q: Cpu) returns (t: State)
    requires Reachable(s) && c < |s.cpus| && q < |s.cpus| && q != c
    requires c !in s.period.waitingFor && s.period.generation < s.maxTarget
    ensures Kept(s, t, c) && s.period.generation < t.period.generation
    decreases |s.period.waitingFor|
  {
    if s.period.waitingFor == {} {
      t := Acknowledge(s, q, c);
    } else {
      var p :| p in s.period.waitingFor;
      IsSteady(s);
      var r := Acknowledge(s, p, c);
      if r.period.generation == s.period.generation {
        Shrinks(r.period.waitingFor, s.period.waitingFor, p);
        t := NextGeneration(r, c, q);
        KeptJoin(s, r, t, c);
      } else {
        t := r;
      }
    }
  }

  lemma Shrinks(a: set<Cpu>, b: set<Cpu>, p: Cpu)
    requires a <= b && p in b && p !in a
    ensures |a| < |b|
  {
    SubsetSize(a, b - {p});
  }

  // ------------------------------------------------------------ running the update

  /** Among the detached updates, or in a class still to be detached, one awaits `sec`. */
  ghost predicate Loaded(x: CpuState, sec: Section) {
    x.pc.Updating? && (Awaits(x.pc.rest, sec) || exists k | x.pc.cls < k < |x.ready| :: Awaits(x.ready[k], sec))
  }

  lemma AwaitsRest(q: seq<Update>, sec: Section)
    requires Awaits(q, sec) && sec !in q[0].readers
    ensures Awaits(q[1..], sec)
  {
    var i :| 0 <= i < |q| && sec in q[i].readers;
    assert q[1..][i - 1] == q[i];
  }

  lemma LoadedRun(s: State, d: Cpu, sec: Section)
    requires Enabled(s, UpdateRun(d)) && Loaded(s.cpus[d], sec) && sec !in s.cpus[d].pc.rest[0].readers
    ensures Loaded(Apply(s, UpdateRun(d)).cpus[d], sec)
  {
    var x, x' := s.cpus[d], Apply(s, UpdateRun(d)).cpus[d];
    assert x'.ready == x.ready && x'.pc.cls == x.pc.cls && x'.pc.rest == x.pc.rest[1..];
    if Awaits(x.pc.rest, sec) {
      AwaitsRest(x.pc.rest, sec);
    }
  }

  lemma LoadedNext(s: State, d: Cpu, sec: Section)
    requires d < |s.cpus| && Loaded(s.cpus[d], sec) && s.cpus[d].pc.rest == []
    ensures Enabled(s, UpdateNextClass(d)) && Loaded(Apply(s, UpdateNextClass(d)).cpus[d], sec)
  {
    var x, x' := s.cpus[d], Apply(s, UpdateNextClass(d)).cpus[d];
    var k :| x.pc.cls < k < |x.ready| && Awaits(x.ready[k], sec);
    assert k > x.pc.cls + 1 ==> x'.ready[k] == x.ready[k];
  }

  lemma RunsTooEarly(s: State, c: Cpu, d: Cpu, sec: Section)
    requires Enabled(s, UpdateRun(d)) && c < |s.cpus| && s.cpus[c].section == Some(sec)
    requires sec in s.cpus[d].pc.rest[0].readers
    ensures RanTooEarly(Apply(s, UpdateRun(d)))
  {
    var r := Apply(s, UpdateRun(d));
    assert r.executed[|s.executed|] == s.cpus[d].pc.rest[0] && r.cpus[c].section == Some(sec);
  }

  /** Callbacks run in order, so the one that awaits `sec` comes up. */
  lemma {:induction false} RunOn(s0: State, s: State, c: Cpu, d: Cpu, sec: Section) returns (t: State)
    requires Leads(s0, s) && Reachable(s) && c < |s.cpus| && d < |s.cpus|
    requires s.cpus[c].section == Some(sec) && Loaded(s.cpus[d], sec) && s.cpus[d].pc.cls < |s.cpus[d].ready|
    ensures Leads(s0, t) && RanTooEarly(t)
    decreases |s.cpus[d].ready| - s.cpus[d].pc.cls, |s.cpus[d].pc.rest|
  {
    if s.cpus[d].pc.rest == [] {
      LoadedNext(s, d, sec);
      var r := Go(s0, s, UpdateNextClass(d));
      t := RunOn(s0, r, c, d, sec);
    } else if sec in s.cpus[d].pc.rest[0].readers {
      RunsTooEarly(s, c, d, sec);
      t := Go(s0, s, UpdateRun(d));
    } else {
      LoadedRun(s, d, sec);
      var r := Go(s0, s, UpdateRun(d));
      t := RunOn(s0, r, c, d, sec);
    }
  }

  lemma RunReadyBatch(s0: State, s: State, c: Cpu, d: Cpu, sec: Section) returns (t: State)
    requires Leads(s0, s) && Reachable(s) && c < |s.cpus| && d < |s.cpus|
    requires s.cpus[c].section == Some(sec) && s.cpus[d].pc.AtRest? && s.cpus[d].readyUpdates
    requires BatchAwaits(s.cpus[d].ready, sec)
    ensures Leads(s0, t) && RanTooEarly(t)
  {
    var r := Go(s0, s, UpdateBegin(d));
    var k :| 0 <= k < |s.cpus[d].ready| && Awaits(s.cpus[d].ready[k], sec);
    assert k > 0 ==> r.cpus[d].ready[k] == s.cpus[d].ready[k];
    CpuFacts(r, d);
    t := RunOn(s0, r, c, d, sec);
  }

  /** An empty ready batch takes over a waiting batch that is due. */
  lemma TakeOver(s0: State, s: State, d: Cpu, sec: Section) returns (t: State)
    requires Leads(s0, s) && Reachable(s) && Enabled(s, Notify(d)) && BatchAwaits(s.cpus[d].waiting, sec)
    ensures Leads(s0, t) && Reachable(t) && |t.cpus| == |s.cpus|
    ensures t.cpus[d].pc.AtRest? && t.cpus[d].readyUpdates && BatchAwaits(t.cpus[d].ready, sec)
    ensures forall c | 0 <= c < |s.cpus| :: t.cpus[c].section == s.cpus[c].section
  {
    var k :| 0 <= k < |s.cpus[d].waiting| && Awaits(s.cpus[d].waiting[k], sec);
    assert s.cpus[d].waiting[k] != [];
    t := Go(s0, s, Notify(d));
    if t.cpus[d].pc.Requesting? {
      t := FinishRequest(s0, t, d);
    }
  }

  lemma EmptyReady(s0: State, s: State, d: Cpu) returns (t: State)
    requires Leads(s0, s) && Reachable(s) && d < |s.cpus| && s.cpus[d].pc.AtRest?
    ensures Leads(s0, t) && Reachable(t) && SameBut(s, t, d) && t.cpus[d].pc.AtRest? && !t.cpus[d].readyUpdates
  {
    t := s;
    if s.cpus[d].readyUpdates {
      CpuFacts(s, d);
      var r := Go(s0, s, UpdateBegin(d));
      t := FinishUpdates(s0, r, d);
      assert t.cpus == s.cpus[d := t.cpus[d]];
    }
  }

  /** What awaits an open section runs under it once its batch is due. */
  lemma RunDue(s: State, c: Cpu, d: Cpu, sec: Section) returns (t: State)
    requires Reachable(s) && c < |s.cpus| && d < |s.cpus| && s.cpus[c].section == Some(sec)
    requires BatchAwaits(s.cpus[d].waiting, sec) && Due(s.cpus[d]) <= s.period.generation
    ensures Leads(s, t) && RanTooEarly(t)
  {
    var r := Settle(s, d, c);
    var r' := EmptyReady(s, r, d);
    var r'' := TakeOver(s, r', d, sec);
    t := RunReadyBatch(s, r'', c, d, sec);
  }

  /** The started period overlooks the section; one more generation makes the update
      due, and that one can come before the section closes. */
  lemma RunOverlooked(s: State, c: Cpu, d: Cpu, q: Cpu, sec: Section) returns (t: State)
    requires Reachable(s) && c < |s.cpus| && d < |s.cpus| && q < |s.cpus| && q != c && s.cpus[c].section == Some(sec)
    requires c !in s.period.waitingFor && BatchAwaits(s.cpus[d].waiting, sec)
    requires Due(s.cpus[d]) <= s.period.generation + 1
    ensures Leads(s, t) && RanTooEarly(t)
  {
    var r := Settle(s, d, c);
    CpuFacts(r, d);
    if r.period.generation < Due(r.cpus[d]) {
      var r' := NextGeneration(r, c, q);
      KeptJoin(s, r, r', c);
      r := r';
    }
    t := RunDue(r, c, d, sec);
    LeadsJoin(s, r, t);
  }

  /** The converse of the guarantee: whenever a step overtakes, in whatever reachable
      state, some continuation runs an update before a section it has to wait for has
      closed. */
  lemma OvertakenUpdateRunsEarly(s: State, step: Step)
    requires Reachable(s) && Enabled(s, step) && Overtakes(s, step)
    ensures exists t :: Leads(Apply(s, step), t) && RanTooEarly(t)
  {
    var c: Cpu, d: Cpu :| Overlooks(s, step, c, d);
    var r := Apply(s, step);
    ReachableOn(s, step);
    CpuFacts(s, step.cpu);
    CpuFacts(s, d);
    var t := RunOverlooked(r, c, d, step.cpu, s.cpus[c].section.value);
  }

  // ------------------------------------------------------------ overtaking happens

  /** Three CPUs with one update class: CPU 0 drives the grace periods, CPU 1
      reads, CPU 2 updates. */
  ghost predicate At(s: State, active: set<Cpu>, max: nat, x0: CpuState, x1: CpuState, x2: CpuState) {
    Reachable(s) && s.period == Period(0, {}) && s.active == active && s.maxTarget == max && s.cpus == [x0, x1, x2]
  }

  function Busy(target: nat, next: seq<Update>, waiting: seq<Update>, pc: Pc): (x: CpuState) {
    CpuState(true, target, 1, false, [next], [waiting], [[]], pc, None)
  }

  const SECTION := Section(0)
  const FIRST := Update(0, {}, 0)
  const LATE := Update(1, {SECTION}, 0)
  const IDLE := CpuState(false, 0, 0, false, [[]], [[]], [[]], AtRest, None)
  const READER := IDLE.(isActive := true, section := Some(SECTION))
  const DRIVER := CpuState(false, 2, 1, false, [[]], [[FIRST]], [[]], AtRest, None)
  const STARTING := DRIVER.(pc := QuiesceReady(Period(0, {}), Period(1, {}), true))

  lemma Take(s: State, step: Step) returns (t: State)
    requires Reachable(s) && Enabled(s, step)
    ensures t == Apply(s, step) && Reachable(t)
  {
    LeadsToSelf(s);
    t := Go(s, s, step);
  }

  /** A CPU queues its first update and moves it to its waiting batch. */
  lemma QueueAndMove(s: State, c: Cpu, u: Update) returns (t: State)
    requires Reachable(s) && c < |s.cpus| && s.cpus[c] == IDLE && u == Update(|s.enqueued|, OpenSections(s), 0)
    ensures Reachable(t) && t.period == s.period && t.active == s.active + {c} && t.maxTarget == s.maxTarget
    ensures t.cpus == s.cpus[c := Busy(0, [], [u], Requesting(s.period.generation))]
    ensures t.sections == s.sections && t.enqueued == s.enqueued + [u]
  {
    var r := Take(s, Activate(c));
    assert OpenSections(r) == OpenSections(s) by {
      assert forall d | 0 <= d < |r.cpus| :: r.cpus[d].section == s.cpus[d].section;
    }
    r := Take(r, Enqueue(c, 0));
    assert r.cpus[c] == Busy(0, [u], [], AtRest) by {
      assert [u] + IDLE.next[0] == [u] && IDLE.next[0 := [u]] == [[u]];
    }
    assert r.cpus[c].next[0] != [] && forall k | 0 <= k < 1 :: r.cpus[c].waiting[k] == [];
    assert EmptyBatch(1) == [[]];
    t := Take(r, Notify(c));
  }

  lemma StartState() returns (s: State)
    ensures Reachable(s) && s == State(Period(0, {}), {}, 0, 0, [IDLE, IDLE, IDLE], 0, [], [], [])
  {
    s := State(Period(0, {}), {}, 0, 0, [IDLE, IDLE, IDLE], 0, [], [], []);
    assert EmptyBatch(1) == [[]];
    assert IsRun([s], []);
  }

  lemma RequestedTwo(s: State)
    requires Reachable(s) && s.period.generation == 0 && 0 < |s.cpus| && s.cpus[0].pc.AtRest? && s.cpus[0].target == 2
    ensures s.maxTarget == 2
  {
    CpuFacts(s, 0);
    IsSteady(s);
  }

  /** CPU 0 queues an update and asks for two grace periods, then turns inactive. */
  lemma FirstRequest() returns (t: State)
    ensures At(t, {}, 2, DRIVER, IDLE, IDLE) && t.sections == 0 && t.enqueued == [FIRST]
  {
    var s := StartState();
    assert OpenSections(s) == {};
    var r := QueueAndMove(s, 0, FIRST);
    assert r.cpus[0] == Busy(0, [], [FIRST], Requesting(0));
    LeadsToSelf(r);
    var r' := FinishRequest(r, r, 0);
    RequestedTwo(r');
    assert {0} - {0} == {};
    t := Take(r', Deactivate(0));
  }

  /** CPU 0 loads the active set while nobody is active. */
  lemma LoadActive(s: State) returns (t: State)
    requires At(s, {}, 2, DRIVER, IDLE, IDLE)
    ensures At(t, {}, 2, STARTING, IDLE, IDLE) && t.sections == s.sections && t.enqueued == s.enqueued
  {
    var r := Take(s, QuiesceLoad(0));
    assert {} - {0} == {};
    r := Take(r, QuiesceDecide(0));
    t := Take(r, QuiesceReadActive(0));
  }

  /** Only now does CPU 1 become active and open a section, and CPU 2 queues an
      update that has to wait for it. */
  lemma OpenAndQueue(s: State) returns (t: State)
    requires At(s, {}, 2, STARTING, IDLE, IDLE) && s.sections == 0 && |s.enqueued| == 1
    ensures At(t, {1, 2}, 2, STARTING, READER, Busy(0, [], [LATE], Requesting(0)))
  {
    var r := Take(s, Activate(1));
    r := Take(r, ReadStart(1));
    assert OpenSections(r) == {SECTION} by { assert r.cpus[1].section.value == SECTION; }
    t := QueueAndMove(r, 2, LATE);
    assert {1} + {2} == {1, 2};
  }

  /** The guarantee can fail: such a state, with the exchange that overtakes, is
      reached when a CPU becomes active and opens a section between another CPU's load
      of the active set and its exchange. */
  lemma OvertakingHappens()
    ensures exists s, step :: Reachable(s) && Enabled(s, step) && Overtakes(s, step)
    ensures exists t :: Reachable(t) && RanTooEarly(t)
  {
    var s := FirstRequest();
    s := LoadActive(s);
    s := OpenAndQueue(s);
    var step := QuiesceExchange(0);
    assert s.cpus[2].waiting[0][0] == LATE && Awaits(s.cpus[2].waiting[0], SECTION);
    assert Overlooks(s, step, 1, 2);
    OvertakenUpdateRunsEarly(s, step);
    ReachableOn(s, step);
    var t :| Leads(Apply(s, step), t) && RanTooEarly(t);
    ReachableLeads(Apply(s, step), t);
  }

  lemma ReachableLeads(s: State, t: State)
    requires Reachable(s) && Leads(s, t)
    ensures Reachable(t)
  {
    var states, steps :| IsRun(states, steps) && states[|steps|] == s;
    assert Leads(states[0], s);
    LeadsJoin(states[0], s, t);
  }
}
