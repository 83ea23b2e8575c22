/** The grace-period guarantee of the protocol of `RcuProtocol`.

    An open section holds the generation back once the current period waits for its
    CPU, and until then only the start of the next period can overlook it. The
    guarantee needs nothing but that no starting period overlooks a section that an
    update already in a waiting batch has to wait for; `RcuOvertaking` shows that
    nothing less is enough. */
module RcuGrace {
  import opened Outcomes
  import opened RcuProtocol
  import opened RcuSafety

  // ------------------------------------------------------------- what is awaited

  /** Some update of `q` has to wait for `sec`. */
  ghost predicate Awaits(q: seq<Update>, sec: Section) {
    exists i | 0 <= i < |q| :: sec in q[i].readers
  }

  ghost predicate BatchAwaits(b: Batch, sec: Section) {
    exists k | 0 <= k < |b| :: Awaits(b[k], sec)
  }

  /** The generation that makes the waiting batch of a CPU ready. */
  function Due(x: CpuState): (g: nat) {
    if x.pc.Requesting? then x.pc.generation + 2 else x.target
  }

  /** The last generation that can come while CPU `c` keeps its section open,
      provided the next period does not overlook it. */
  function Horizon(s: State, c: Cpu): (g: nat) {
    s.period.generation + if c in s.period.waitingFor then 0 else 1
  }

  /** On this CPU nothing that awaits `sec` has left the waiting batch, or will
      before the generation passes `horizon`. */
  ghost predicate Held(x: CpuState, sec: Section, horizon: nat) {
    !Awaits(Rest(x.pc), sec) && !BatchAwaits(x.ready, sec) && (BatchAwaits(x.waiting, sec) ==> horizon < Due(x))
  }

  /** The section CPU `c` has open, if any, holds back every update that awaits it. */
  ghost predicate HoldsBack(s: State, c: Cpu)
    requires c < |s.cpus|
  {
    s.cpus[c].section.Some? ==>
      var sec := s.cpus[c].section.value;
      !Awaits(s.executed, sec) && forall d | 0 <= d < |s.cpus| :: Held(s.cpus[d], sec, Horizon(s, c))
  }

  /** Only sections that have been opened are awaited. */
  ghost predicate Existing(q: seq<Update>, sections: nat) {
    forall i, r | 0 <= i < |q| && r in q[i].readers :: r.id < sections
  }

  ghost predicate ExistingBatch(b: Batch, sections: nat) {
    forall k | 0 <= k < |b| :: Existing(b[k], sections)
  }

  ghost predicate Numbered(s: State, c: Cpu)
    requires c < |s.cpus|
  {
    var x := s.cpus[c];
    (x.section.Some? ==> x.section.value.id < s.sections) &&
    ExistingBatch(x.next, s.sections) && ExistingBatch(x.waiting, s.sections) && ExistingBatch(x.ready, s.sections) &&
    Existing(Rest(x.pc), s.sections)
  }

  /** A pass of `rcu_bitmap_quiesce` in flight runs outside sections; it proposes the
      period it saw without its own CPU, or the next one if nobody else was left. */
  ghost predicate PassSound(s: State, c: Cpu)
    requires c < |s.cpus|
  {
    var x := s.cpus[c];
    match x.pc
    case QuiesceLoaded(_) => x.section.None?
    case QuiesceWantsNew(seen) => x.section.None? && seen.waitingFor <= {c}
    case QuiesceReady(seen, next, starts) =>
      x.section.None? &&
      if starts then next.generation == seen.generation + 1 && seen.waitingFor <= {c}
      else next == Period(seen.generation, seen.waitingFor - {c})
    case _ => true
  }

  ghost predicate Sound(s: State) {
    Existing(s.executed, s.sections) &&
    forall c | 0 <= c < |s.cpus| :: Numbered(s, c) && PassSound(s, c)
  }

  ghost predicate Guarded(s: State) {
    Sound(s) && forall c | 0 <= c < |s.cpus| :: HoldsBack(s, c)
  }

  /** This exchange of CPU `q` starts a period. */
  ghost predicate Starts(s: State, q: Cpu) {
    q < |s.cpus| && s.cpus[q].pc.QuiesceReady? && s.cpus[q].pc.starts && s.cpus[q].pc.seen == s.period
  }

  /** The period that `step` starts does not wait for CPU `c`, although an update in
      the waiting batch of CPU `d` awaits the section that `c` has open. */
  ghost predicate Overlooks(s: State, step: Step, c: Cpu, d: Cpu) {
    step.QuiesceExchange? && Starts(s, step.cpu) && c < |s.cpus| && d < |s.cpus| && s.cpus[c].section.Some? &&
    c !in s.cpus[step.cpu].pc.next.waitingFor && BatchAwaits(s.cpus[d].waiting, s.cpus[c].section.value)
  }

  ghost predicate Overtakes(s: State, step: Step) {
    exists c: Cpu, d: Cpu :: Overlooks(s, step, c, d)
  }

  // ------------------------------------------------------------ passes and numbers

  lemma OpenedSections(s: State)
    requires Sound(s)
    ensures forall r | r in OpenSections(s) :: r.id < s.sections
  {
    forall r | r in OpenSections(s) ensures r.id < s.sections {
      var c :| 0 <= c < |s.cpus| && s.cpus[c].section == Some(r);
      assert Numbered(s, c);
    }
  }

  lemma EnqueueNumbered(s: State, c: Cpu, cls: nat)
    requires Sound(s) && Enabled(s, Enqueue(c, cls))
    ensures Numbered(DoEnqueue(s, c, cls), c)
  {
    assert Numbered(s, c);
    OpenedSections(s);
  }

  lemma UpdateNumbered(s: State, step: Step)
    requires Sound(s) && Enabled(s, step)
    requires step.UpdateBegin? || step.UpdateNextClass? || step.UpdateRun? || step.UpdateEnd?
    ensures Numbered(Apply(s, step), step.cpu)
  {
    var x := s.cpus[step.cpu];
    assert Numbered(s, step.cpu);
    if step.UpdateBegin? || step.UpdateNextClass? {
      assert Existing(x.ready[if step.UpdateBegin? then 0 else x.pc.cls + 1], s.sections);
    }
  }

  /** Sections are numbered as they open, and an update lists only sections that are open. */
  lemma NumberedStep(s: State, step: Step)
    requires Sound(s) && Enabled(s, step)
    ensures s.sections <= Apply(s, step).sections && Numbered(Apply(s, step), step.cpu)
  {
    assert Numbered(s, step.cpu);
    match step
    case Enqueue(c, cls) => EnqueueNumbered(s, c, cls);
    case UpdateBegin(_) => UpdateNumbered(s, step);
    case UpdateNextClass(_) => UpdateNumbered(s, step);
    case UpdateRun(_) => UpdateNumbered(s, step);
    case UpdateEnd(_) => UpdateNumbered(s, step);
    case Notify(_) =>
    case _ => QuietStep(s, step);
  }

  lemma SoundStep(s: State, step: Step)
    requires Sound(s) && Enabled(s, step)
    ensures Sound(Apply(s, step))
  {
    var r := Apply(s, step);
    NumberedStep(s, step);
    OneCpu(s, step);
    assert Numbered(s, step.cpu) && PassSound(s, step.cpu);
    assert PassSound(r, step.cpu);
    forall c | 0 <= c < |r.cpus| ensures Numbered(r, c) && PassSound(r, c) {
      assert Numbered(s, c) && PassSound(s, c);
    }
  }

  lemma OneCpu(s: State, step: Step)
    requires Enabled(s, step)
    ensures |Apply(s, step).cpus| == |s.cpus|
    ensures Apply(s, step).cpus == s.cpus[step.cpu := Apply(s, step).cpus[step.cpu]]
    ensures s.executed == Apply(s, step).executed ||
            (step.UpdateRun? && Apply(s, step).executed == s.executed + [s.cpus[step.cpu].pc.rest[0]])
  {
  }

  // ------------------------------------------------------------------------ steps

  lemma HeldCallback(s: State, d: Cpu, sec: Section, horizon: nat)
    requires Enabled(s, UpdateRun(d)) && Held(s.cpus[d], sec, horizon)
    ensures Held(Apply(s, UpdateRun(d)).cpus[d], sec, horizon) && sec !in s.cpus[d].pc.rest[0].readers
  {
    var x, x' := s.cpus[d], Apply(s, UpdateRun(d)).cpus[d];
    forall i | 0 <= i < |x'.pc.rest| ensures sec !in x'.pc.rest[i].readers {
      assert x'.pc.rest[i] == x.pc.rest[i + 1];
    }
  }

  /** Detaching the list of a class. */
  lemma HeldDetach(x: CpuState, x': CpuState, k: nat, sec: Section, horizon: nat)
    requires Held(x, sec, horizon) && k < |x.ready| && !x.pc.Requesting?
    requires x'.pc.Updating? && x'.pc.rest == x.ready[k] && x'.ready == x.ready[k := []]
    requires x'.waiting == x.waiting && x'.target == x.target
    ensures Held(x', sec, horizon)
  {
    assert !Awaits(x.ready[k], sec);
    ClearedClass(x.ready, k, sec);
  }

  /** A CPU's own steps move nothing that awaits `sec` past the waiting batch; only
      `rcu_bitmap_notify` could, and not before the horizon. */
  lemma HeldStep(s: State, step: Step, sec: Section, horizon: nat)
    requires Enabled(s, step) && Held(s.cpus[step.cpu], sec, horizon) && !step.Notify?
    ensures Held(Apply(s, step).cpus[step.cpu], sec, horizon)
    ensures step.UpdateRun? ==> sec !in s.cpus[step.cpu].pc.rest[0].readers
  {
    var x := s.cpus[step.cpu];
    match step
    case UpdateRun(d) => HeldCallback(s, d, sec, horizon);
    case UpdateBegin(_) => HeldDetach(x, Apply(s, step).cpus[step.cpu], 0, sec, horizon);
    case UpdateNextClass(_) => HeldDetach(x, Apply(s, step).cpus[step.cpu], x.pc.cls + 1, sec, horizon);
    case Enqueue(_, _) =>
    case UpdateEnd(_) =>
    case _ => HeldQuiet(s, step, sec, horizon);
  }

  lemma HeldQuiet(s: State, step: Step, sec: Section, horizon: nat)
    requires Enabled(s, step) && Held(s.cpus[step.cpu], sec, horizon)
    requires !step.Enqueue? && !step.Notify? && !step.UpdateBegin? && !step.UpdateNextClass? && !step.UpdateRun? &&
             !step.UpdateEnd?
    ensures Held(Apply(s, step).cpus[step.cpu], sec, horizon)
  {
    QuietStep(s, step);
    assert Due(Apply(s, step).cpus[step.cpu]) == Due(s.cpus[step.cpu]);
  }

  lemma ClearedClass(b: Batch, k: nat, sec: Section)
    requires k < |b| && !BatchAwaits(b, sec)
    ensures !BatchAwaits(b[k := []], sec)
  {
    var b' := b[k := []];
    forall j | 0 <= j < |b'| ensures !Awaits(b'[j], sec) {
      assert !Awaits(b[j], sec);
    }
  }

  lemma HeldNotify(s: State, d: Cpu, c: Cpu, sec: Section)
    requires Enabled(s, Notify(d)) && Held(s.cpus[d], sec, Horizon(s, c))
    ensures Held(DoNotify(s, d), sec, Horizon(s, c))
  {
  }

  lemma LocalHoldsBack(s: State, step: Step, c: Cpu)
    requires Guarded(s) && Enabled(s, step) && c < |s.cpus| && !step.QuiesceExchange?
    requires Apply(s, step).cpus[c].section == s.cpus[c].section
    ensures HoldsBack(Apply(s, step), c)
  {
    var r, d := Apply(s, step), step.cpu;
    OneCpu(s, step);
    assert HoldsBack(s, c);
    if r.cpus[c].section.Some? {
      var sec := r.cpus[c].section.value;
      assert Held(s.cpus[d], sec, Horizon(s, c));
      if step.Notify? {
        HeldNotify(s, d, c, sec);
      } else {
        HeldStep(s, step, sec, Horizon(s, c));
      }
    }
  }

  /** Nobody awaits a section that has just been opened. */
  lemma OpeningHoldsBack(s: State, c: Cpu)
    requires Sound(s) && Enabled(s, ReadStart(c))
    ensures HoldsBack(Apply(s, ReadStart(c)), c)
  {
    var r := Apply(s, ReadStart(c));
    var sec := r.cpus[c].section.value;
    forall d | 0 <= d < |r.cpus| ensures Held(r.cpus[d], sec, Horizon(r, c)) {
      assert Numbered(s, d);
    }
  }

  /** The exchange is where generations change. What the old period waited for has
      passed through a quiescent state, so no open section is waited for any more;
      the new period waits for it, or nothing that awaits it is due before long. */
  lemma ExchangeHoldsBack(s: State, q: Cpu, c: Cpu)
    requires Guarded(s) && Bounded(s) && Enabled(s, QuiesceExchange(q)) && c < |s.cpus|
    requires !Overtakes(s, QuiesceExchange(q))
    ensures HoldsBack(Apply(s, QuiesceExchange(q)), c)
  {
    var r := Apply(s, QuiesceExchange(q));
    assert HoldsBack(s, c) && PassSound(s, q);
    if r.cpus[c].section.Some? {
      var sec := r.cpus[c].section.value;
      forall d | 0 <= d < |r.cpus| ensures Held(r.cpus[d], sec, Horizon(r, c)) {
        assert Held(s.cpus[d], sec, Horizon(s, c));
        assert !Overlooks(s, QuiesceExchange(q), c, d);
      }
    }
  }

  lemma GuardedStep(s: State, step: Step)
    requires Guarded(s) && Bounded(s) && Enabled(s, step) && !Overtakes(s, step)
    ensures Guarded(Apply(s, step))
  {
    var r := Apply(s, step);
    SoundStep(s, step);
    OneCpu(s, step);
    forall c | 0 <= c < |r.cpus| ensures HoldsBack(r, c) {
      if step.QuiesceExchange? {
        ExchangeHoldsBack(s, step.cpu, c);
      } else if step.ReadStart? && step.cpu == c {
        OpeningHoldsBack(s, c);
      } else if r.cpus[c].section.Some? {
        LocalHoldsBack(s, step, c);
      }
    }
  }

  // ------------------------------------------------------------------------- runs

  /** No step of the run starts a period over a section that is awaited. */
  ghost predicate Orderly(states: seq<State>, steps: seq<Step>)
    requires |states| == |steps| + 1
  {
    forall i | 0 <= i < |steps| :: !Overtakes(states[i], steps[i])
  }

  lemma {:induction false} SoundHolds(states: seq<State>, steps: seq<Step>, i: nat)
    requires IsRun(states, steps) && i < |states|
    ensures Sound(states[i])
  {
    if i > 0 {
      SoundHolds(states, steps, i - 1);
      assert Follows(states, steps, i - 1);
      SoundStep(states[i - 1], steps[i - 1]);
    }
  }

  lemma {:induction false} GuardedHolds(states: seq<State>, steps: seq<Step>, i: nat)
    requires IsRun(states, steps) && Orderly(states, steps) && i < |states|
    ensures Guarded(states[i])
  {
    SoundHolds(states, steps, i);
    if i > 0 {
      GuardedHolds(states, steps, i - 1);
      GenerationBounds(states, steps, i - 1, i - 1);
      assert Follows(states, steps, i - 1);
      GuardedStep(states[i - 1], steps[i - 1]);
    }
  }

  /** An update has run although a section it had to wait for is open. */
  ghost predicate RanTooEarly(s: State) {
    exists c | 0 <= c < |s.cpus| :: s.cpus[c].section.Some? && Awaits(s.executed, s.cpus[c].section.value)
  }

  lemma {:induction false} ExecutedGrows(states: seq<State>, steps: seq<Step>, i: nat, j: nat)
    requires IsPath(states, steps) && i <= j < |states|
    ensures states[i].executed <= states[j].executed
    decreases j
  {
    if i < j {
      ExecutedGrows(states, steps, i, j - 1);
      assert Follows(states, steps, j - 1);
      OneCpu(states[j - 1], steps[j - 1]);
    }
  }

  /** The grace-period guarantee. An update enqueued by step `i` and run by step `j`
      runs after every section that was open at `i`, on any CPU, has closed for good. */
  lemma GracePeriod(states: seq<State>, steps: seq<Step>, u: Update, i: nat, j: nat, k: nat)
    requires IsRun(states, steps) && Orderly(states, steps)
    requires i < |steps| && j < |steps| && j <= k < |states|
    requires steps[i].Enqueue? && states[i + 1].enqueued == states[i].enqueued + [u]
    requires steps[j].UpdateRun? && states[j + 1].executed == states[j].executed + [u]
    ensures forall c, d | 0 <= c < |states[i].cpus| && 0 <= d < |states[k].cpus| && states[i].cpus[c].section.Some? ::
              states[k].cpus[d].section != states[i].cpus[c].section
    ensures OpenSections(states[i]) !! OpenSections(states[k])
    ensures !RanTooEarly(states[k])
  {
    var s := states[k];
    EnqueuedStamp(states, steps, u, i);
    GuardedHolds(states, steps, k);
    assert Follows(states, steps, j);
    var d := steps[j].cpu;
    assert states[j + 1].executed[|states[j].executed|] == u == states[j].cpus[d].pc.rest[0];
    if j < k {
      ExecutedGrows(states, steps, j + 1, k);
      assert s.executed[|states[j].executed|] == u;
    }
    forall c | 0 <= c < |s.cpus| && s.cpus[c].section.Some?
      ensures s.cpus[c].section.value !in u.readers && !Awaits(s.executed, s.cpus[c].section.value)
    {
      assert HoldsBack(s, c);
      if j == k { assert Held(s.cpus[d], s.cpus[c].section.value, Horizon(s, c)); }
    }
    assert forall c | 0 <= c < |states[i].cpus| && states[i].cpus[c].section.Some? ::
             states[i].cpus[c].section.value in OpenSections(states[i]);
  }

  lemma EnqueuedStamp(states: seq<State>, steps: seq<Step>, u: Update, i: nat)
    requires IsPath(states, steps) && i < |steps| && steps[i].Enqueue?
    requires states[i + 1].enqueued == states[i].enqueued + [u]
    ensures u.readers == OpenSections(states[i])
  {
    assert Follows(states, steps, i);
    assert states[i + 1].enqueued[|states[i].enqueued|] == u;
  }

  /** Only `rcu_read_start` opens sections, and it gives each a new identity. */
  lemma SectionStep(s: State, step: Step)
    requires Enabled(s, step)
    ensures s.sections <= Apply(s, step).sections
    ensures forall sec | sec in OpenSections(Apply(s, step)) :: sec in OpenSections(s) || sec.id == s.sections
    ensures step.ReadStart? || Apply(s, step).sections == s.sections
    ensures step.ReadStart? ==> Apply(s, step).sections == s.sections + 1
    ensures !step.ReadStart? ==> OpenSections(Apply(s, step)) <= OpenSections(s)
  {
    var r := Apply(s, step);
    assert |r.cpus| == |s.cpus|;
    forall c | 0 <= c < |r.cpus| && r.cpus[c].section.Some?
      ensures r.cpus[c].section == s.cpus[c].section || (step.ReadStart? && r.cpus[c].section.value.id == s.sections)
    {}
  }

  lemma ClosedStep(s: State, step: Step, r: State, sec: Section)
    requires Enabled(s, step) && r == Apply(s, step) && sec.id < s.sections && sec !in OpenSections(s)
    ensures sec.id < r.sections && sec !in OpenSections(r)
  {
    SectionStep(s, step);
  }

  /** A section that has closed never opens again. */
  lemma {:induction false} ClosedStaysClosed(states: seq<State>, steps: seq<Step>, sec: Section, j: nat, k: nat)
    requires IsPath(states, steps) && j <= k < |states|
    requires sec.id < states[j].sections && sec !in OpenSections(states[j])
    ensures sec.id < states[k].sections && sec !in OpenSections(states[k])
    decreases k
  {
    if j < k {
      ClosedStaysClosed(states, steps, sec, j, k - 1);
      assert Follows(states, steps, k - 1);
      ClosedStep(states[k - 1], steps[k - 1], states[k], sec);
    }
  }

  // ------------------------------------------------------------- a sufficient rule

  /** `seen` was the current period at some earlier point or still is: bits are
      only cleared within a generation, so a stale value never becomes current again. */
  ghost predicate Past(s: State, seen: Period) {
    seen.generation < s.period.generation ||
    (seen.generation == s.period.generation && s.period.waitingFor <= seen.waitingFor)
  }

  /** A pass whose exchange is still going to start a period covers every open section. */
  ghost predicate Covers(s: State, q: Cpu)
    requires q < |s.cpus|
  {
    var pc := s.cpus[q].pc;
    (pc.QuiesceLoaded? || pc.QuiesceWantsNew? || pc.QuiesceReady? ==> Past(s, pc.seen)) &&
    (Starts(s, q) ==> forall c | 0 <= c < |s.cpus| && s.cpus[c].section.Some? :: c in pc.next.waitingFor)
  }

  ghost predicate Covered(s: State) {
    ActiveOk(s) && forall q | 0 <= q < |s.cpus| :: Covers(s, q)
  }

  /** No CPU opens a section while a pass is about to start a period that was
      composed when that CPU was not yet active. */
  ghost predicate Calm(s: State, step: Step) {
    step.ReadStart? ==> forall q | 0 <= q < |s.cpus| && Starts(s, q) :: step.cpu in s.cpus[q].pc.next.waitingFor
  }

  lemma ExchangeCovered(s: State, q: Cpu, p: Cpu)
    requires Covered(s) && Sound(s) && Enabled(s, QuiesceExchange(q)) && p < |s.cpus|
    ensures Covers(Apply(s, QuiesceExchange(q)), p)
  {
    assert Covers(s, q) && Covers(s, p) && PassSound(s, q) && PassSound(s, p);
  }

  lemma LocalCovered(s: State, step: Step, p: Cpu)
    requires Covered(s) && Enabled(s, step) && Calm(s, step) && !step.QuiesceExchange? && p < |s.cpus|
    ensures Covers(Apply(s, step), p)
  {
    if step.QuiesceLoad? || step.QuiesceDecide? || step.QuiesceReadActive? {
      if step.cpu == p {
        PassCovered(s, step);
      } else {
        OtherCovered(s, step, p);
      }
    } else {
      OtherCovered(s, step, p);
    }
  }

  /** Only `rcu_read_start` opens a section, and only an exchange changes the period. */
  lemma OpensOnly(s: State, step: Step)
    requires Enabled(s, step) && !step.QuiesceExchange?
    ensures Apply(s, step).period == s.period && |Apply(s, step).cpus| == |s.cpus|
    ensures forall c | 0 <= c < |s.cpus| ::
              Apply(s, step).cpus[c].section.Some? ==> s.cpus[c].section.Some? || step == ReadStart(c)
  {
  }

  /** A pass that does not move itself stays covered by what it loaded. */
  lemma OtherCovered(s: State, step: Step, p: Cpu)
    requires Covered(s) && Enabled(s, step) && Calm(s, step) && !step.QuiesceExchange? && p < |s.cpus|
    requires step.cpu == p ==> !step.QuiesceLoad? && !step.QuiesceDecide? && !step.QuiesceReadActive?
    ensures Covers(Apply(s, step), p)
  {
    OpensOnly(s, step);
    OneCpu(s, step);
    assert Covers(s, p);
    assert Starts(Apply(s, step), p) ==> Starts(s, p) && Apply(s, step).cpus[p].pc == s.cpus[p].pc;
  }

  /** The loads of a pass: the active set covers every open section. */
  lemma PassCovered(s: State, step: Step)
    requires Covered(s) && Enabled(s, step) && (step.QuiesceLoad? || step.QuiesceDecide? || step.QuiesceReadActive?)
    ensures Covers(Apply(s, step), step.cpu)
  {
    assert Covers(s, step.cpu);
  }

  /** A CPU is in the active set exactly while it says so, and reads only then. */
  ghost predicate ActiveOk(s: State) {
    forall c | 0 <= c < |s.cpus| ::
      (s.cpus[c].isActive <==> c in s.active) && (s.cpus[c].section.Some? ==> s.cpus[c].isActive)
  }

  lemma ActiveStep(s: State, step: Step)
    requires ActiveOk(s) && Enabled(s, step)
    ensures ActiveOk(Apply(s, step))
  {
    OneCpu(s, step);
    OwnActive(s, step);
  }

  lemma OwnActive(s: State, step: Step)
    requires ActiveOk(s) && Enabled(s, step)
    ensures var r := Apply(s, step);
            |r.cpus| == |s.cpus| && (r.cpus[step.cpu].isActive <==> step.cpu in r.active) &&
            (r.cpus[step.cpu].section.Some? ==> r.cpus[step.cpu].isActive) &&
            forall c | 0 <= c < |s.cpus| && c != step.cpu :: c in r.active <==> c in s.active
  {
  }

  lemma CoveredStep(s: State, step: Step)
    requires Covered(s) && Sound(s) && Enabled(s, step) && Calm(s, step)
    ensures Covered(Apply(s, step)) && !Overtakes(s, step)
  {
    OneCpu(s, step);
    assert Covers(s, step.cpu);
    ActiveStep(s, step);
    forall p | 0 <= p < |s.cpus| ensures Covers(Apply(s, step), p) {
      if step.QuiesceExchange? {
        ExchangeCovered(s, step.cpu, p);
      } else {
        LocalCovered(s, step, p);
      }
    }
  }

  /** While sections open only on CPUs that the period about to start waits for, no
      step overtakes, so the guarantee holds. An activation alone does no harm. */
  lemma {:induction false} CalmIsOrderly(states: seq<State>, steps: seq<Step>, n: nat)
    requires IsRun(states, steps) && n <= |steps|
    requires forall i | 0 <= i < n :: Calm(states[i], steps[i])
    ensures Covered(states[n]) && forall i | 0 <= i < n :: !Overtakes(states[i], steps[i])
  {
    if n > 0 {
      CalmIsOrderly(states, steps, n - 1);
      SoundHolds(states, steps, n - 1);
      assert Follows(states, steps, n - 1);
      CoveredStep(states[n - 1], steps[n - 1]);
    }
  }
}
