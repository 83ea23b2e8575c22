/** Inter-processor interrupts with fast wake-up, `ipi.c`: a word of pending
    reasons per CPU with a flag for waiting in idle. A sender that finds the flag
    set sends no hardware interrupt. Every atomic access is a step. */
module IpiProtocol {
  import opened Outcomes

  type Cpu = nat
  type Reason = nat

  /** The pending bits; `waiting` is `IPI_WAITING_IN_IDLE`. */
  datatype Word = Word(reasons: set<Reason>, waiting: bool)

  /** `picked` is the reason a relaxed drain has chosen and not yet cleared.
      `Irq` is an interrupt taken while waiting: `cleared` once the handler of
      `preempt_interrupt` has run. `Collected` holds what the idle loop took. */
  datatype Pc =
    | Active(picked: Option<Reason>)
    | Waiting
    | Irq(cleared: bool, picked: Option<Reason>)
    | Collected(bits: set<Reason>)

  /** `hardware` is the hardware interrupt line; `handled` logs delivered reasons. */
  datatype CpuState = CpuState(word: Word, pc: Pc, hardware: bool, handled: seq<Reason>)

  /** `max` is `IPI_REASON__MAX`. */
  datatype State = State(max: nat, cpus: seq<CpuState>)

  /** The highest of the reasons below `n`. */
  function Highest(bits: set<Reason>, n: nat): (r: Option<Reason>) {
    if n == 0 then None else if n - 1 in bits then Some(n - 1) else Highest(bits, n - 1)
  }

  /** The reasons below `n`, highest first. */
  function Descending(bits: set<Reason>, n: nat): (r: seq<Reason>) {
    if n == 0 then [] else (if n - 1 in bits then [n - 1] else []) + Descending(bits, n - 1)
  }

  datatype Step =
    | Post(cpu: Cpu, reason: Reason, relaxed: bool)
    | WaitBegin(cpu: Cpu)
    | Interrupt(cpu: Cpu)
    | PreemptInterrupt(cpu: Cpu)
    | RelaxedLoad(cpu: Cpu)
    | RelaxedClear(cpu: Cpu)
    | PlatformIpi(cpu: Cpu)
    | InterruptReturn(cpu: Cpu)
    | Collect(cpu: Cpu)
    | Handle(cpu: Cpu)

  /** The idle wait ends unless the flag is the only bit of the word. */
  predicate ExitCondition(w: Word) {
    w != Word({}, true)
  }

  /** Running handlers of this CPU with nothing picked. */
  predicate AtRest(pc: Pc) {
    pc == Active(None) || pc == Irq(true, None)
  }

  predicate EnabledCpu(max: nat, x: CpuState, step: Step) {
    match step
    case Post(_, i, _) => i <= max
    case WaitBegin(_) => x.pc == Active(None)
    case Interrupt(_) => x.pc.Waiting?
    case PreemptInterrupt(_) => x.pc == Irq(false, None)
    case RelaxedLoad(_) => AtRest(x.pc)
    case RelaxedClear(_) => (x.pc.Active? || x.pc.Irq?) && x.pc.picked.Some?
    case PlatformIpi(_) => AtRest(x.pc)
    case InterruptReturn(_) => x.pc == Irq(true, None)
    case Collect(_) => x.pc.Waiting? && ExitCondition(x.word)
    case Handle(_) => x.pc.Collected?
  }

  predicate Enabled(s: State, step: Step) {
    step.cpu < |s.cpus| && EnabledCpu(s.max, s.cpus[step.cpu], step)
  }

  function ApplyCpu(max: nat, x: CpuState, step: Step): (r: Result<CpuState>)
    requires EnabledCpu(max, x, step)
  {
    match step
    case Post(_, i, relaxed) =>
      Done(x.(word := x.word.(reasons := x.word.reasons + {i}),
              hardware := x.hardware || (!relaxed && !x.word.waiting)))
    case WaitBegin(_) => Done(x.(word := x.word.(waiting := true), pc := Waiting))
    case Interrupt(_) => Done(x.(pc := Irq(false, None)))
    case PreemptInterrupt(_) => Done(x.(word := x.word.(waiting := false), pc := Irq(true, None)))
    case RelaxedLoad(_) =>
      if x.word.waiting then Panic
      else Done(x.(pc := x.pc.(picked := Highest(x.word.reasons, max + 1))))
    case RelaxedClear(_) =>
      var i := x.pc.picked.value;
      var y := x.(pc := x.pc.(picked := None), word := x.word.(reasons := x.word.reasons - {i}));
      Done(if i in x.word.reasons then y.(handled := x.handled + [i]) else y)
    case PlatformIpi(_) =>
      Done(x.(word := Word({}, false), hardware := false, handled := x.handled + Descending(x.word.reasons, max + 1)))
    case InterruptReturn(_) => Done(x.(pc := Waiting))
    case Collect(_) => Done(x.(word := Word({}, false), pc := Collected(x.word.reasons)))
    case Handle(_) =>
      var i := Highest(x.pc.bits, max + 1);
      if i.None? then Done(x.(pc := Active(None)))
      else Done(x.(pc := Collected(x.pc.bits - {i.value}), handled := x.handled + [i.value]))
  }

  function Apply(s: State, step: Step): (r: Result<State>)
    requires Enabled(s, step)
  {
    var x := ApplyCpu(s.max, s.cpus[step.cpu], step);
    if x.Panic? then Panic else Done(s.(cpus := s.cpus[step.cpu := x.value]))
  }

  predicate Init(s: State) {
    forall c | 0 <= c < |s.cpus| :: s.cpus[c] == CpuState(Word({}, false), Active(None), false, [])
  }

  ghost predicate Follows(states: seq<State>, steps: seq<Step>, i: nat)
    requires i < |steps| < |states|
  {
    Enabled(states[i], steps[i]) && Apply(states[i], steps[i]) == Done(states[i + 1])
  }

  ghost predicate IsRun(states: seq<State>, steps: seq<Step>) {
    |states| == |steps| + 1 && Init(states[0]) && forall i | 0 <= i < |steps| :: Follows(states, steps, i)
  }

  // ---------------------------------------------------------------- invariant

  predicate InWait(pc: Pc) {
    pc.Waiting? || pc.Irq?
  }

  /** The flag is set only in the idle wait, up to the first handler of an interrupt. */
  predicate CpuOk(max: nat, x: CpuState) {
    (x.word.waiting ==> x.pc.Waiting? || x.pc == Irq(false, None)) &&
    (x.pc.Irq? && !x.pc.cleared ==> x.pc.picked.None?) &&
    (forall i | i in x.word.reasons :: i <= max) &&
    (x.pc.Collected? ==> forall i | i in x.pc.bits :: i <= max)
  }

  predicate Inv(s: State) {
    forall c | 0 <= c < |s.cpus| :: CpuOk(s.max, s.cpus[c])
  }

  lemma {:induction false} HighestIsMax(bits: set<Reason>, n: nat)
    ensures var r := Highest(bits, n);
            (r.None? ==> forall i | i in bits :: i >= n) &&
            (r.Some? ==> r.value in bits && r.value < n && forall i | i in bits && i < n :: i <= r.value)
  {
    if n > 0 && n - 1 !in bits { HighestIsMax(bits, n - 1); }
  }

  /** Draining lists each reason exactly once, highest first. */
  lemma {:induction false} DescendingIsExact(bits: set<Reason>, n: nat)
    ensures var r := Descending(bits, n);
            (forall i: nat :: i in r <==> i in bits && i < n) && (forall i, j | 0 <= i < j < |r| :: r[i] > r[j])
  {
    if n > 0 {
      DescendingIsExact(bits, n - 1);
      var rest := Descending(bits, n - 1);
      assert forall j | 0 <= j < |rest| :: rest[j] in rest;
    }
  }

  lemma StepKeepsInv(s: State, step: Step)
    requires Inv(s) && Enabled(s, step)
    ensures Apply(s, step).Done? && Inv(Apply(s, step).value)
  {
    assert CpuOk(s.max, s.cpus[step.cpu]);
  }

  lemma {:induction false} InvHolds(states: seq<State>, steps: seq<Step>, k: nat)
    requires IsRun(states, steps) && k <= |steps|
    ensures Inv(states[k]) && |states[k].cpus| == |states[0].cpus| && states[k].max == states[0].max
  {
    if k > 0 {
      InvHolds(states, steps, k - 1);
      assert Follows(states, steps, k - 1);
      StepKeepsInv(states[k - 1], steps[k - 1]);
    }
  }

  /** The relaxed drain never meets the idle flag, so what it picks is always a reason. */
  lemma DrainAssertionHolds(states: seq<State>, steps: seq<Step>, k: nat, c: Cpu)
    requires IsRun(states, steps) && k <= |steps| && Enabled(states[k], RelaxedLoad(c))
    ensures var r := Apply(states[k], RelaxedLoad(c));
            r.Done? && c < |r.value.cpus| &&
            var pc := r.value.cpus[c].pc;
            (pc.Active? || pc.Irq?) && (pc.picked.Some? ==> pc.picked.value <= states[k].max) &&
            (pc.picked.None? <==> states[k].cpus[c].word.reasons == {})
  {
    InvHolds(states, steps, k);
    StepKeepsInv(states[k], RelaxedLoad(c));
    assert CpuOk(states[k].max, states[k].cpus[c]);
    HighestIsMax(states[k].cpus[c].word.reasons, states[k].max + 1);
  }

  // ---------------------------------------------------------------- lost wakeup

  /** A posted reason leaves the word only by a step of its own CPU. */
  lemma ReasonStays(s: State, step: Step, c: Cpu, i: Reason)
    requires Inv(s) && Enabled(s, step) && c < |s.cpus| && i in s.cpus[c].word.reasons
    requires step.cpu != c || !(step.RelaxedClear? || step.PlatformIpi? || step.Collect?)
    ensures Apply(s, step).Done? && c < |Apply(s, step).value.cpus| && i in Apply(s, step).value.cpus[c].word.reasons
  {
    StepKeepsInv(s, step);
  }

  /** The target is in the idle wait, and what ends the wait is true. */
  predicate WillWake(x: CpuState) {
    InWait(x.pc) && ExitCondition(x.word)
  }

  lemma WakeStays(s: State, step: Step, c: Cpu)
    requires Inv(s) && Enabled(s, step) && c < |s.cpus| && WillWake(s.cpus[c]) && step != Collect(c)
    ensures Apply(s, step).Done? && c < |Apply(s, step).value.cpus| && WillWake(Apply(s, step).value.cpus[c])
  {
    assert CpuOk(s.max, s.cpus[c]);
    StepKeepsInv(s, step);
  }

  /** No lost wake-up: when a sender skips the hardware interrupt, the target is in
      the idle wait with the wait's exit condition true, and both stay so, through
      interrupts that preempt the wait and drain the word, until the target has
      left the wait and collected its bits. */
  lemma {:induction false} SkippedInterruptStillWakes(states: seq<State>, steps: seq<Step>, i: nat, j: nat)
    requires IsRun(states, steps) && i < j <= |steps| && steps[i].Post?
    requires steps[i].cpu < |states[i].cpus| && states[i].cpus[steps[i].cpu].word.waiting
    requires forall k | i < k < j :: steps[k] != Collect(steps[i].cpu)
    ensures steps[i].cpu < |states[j].cpus| && WillWake(states[j].cpus[steps[i].cpu])
    decreases j
  {
    InvHolds(states, steps, j - 1);
    assert Follows(states, steps, j - 1);
    var c := steps[i].cpu;
    if j == i + 1 {
      assert CpuOk(states[i].max, states[i].cpus[c]);
    } else {
      SkippedInterruptStillWakes(states, steps, i, j - 1);
      WakeStays(states[j - 1], steps[j - 1], c);
    }
  }

  /** The target is sure to look at its word: the hardware interrupt is pending, or it
      is in the idle wait and about to leave it. */
  predicate WillNotice(x: CpuState) {
    x.hardware || WillWake(x)
  }

  lemma NoticeStays(s: State, step: Step, c: Cpu)
    requires Inv(s) && Enabled(s, step) && c < |s.cpus| && WillNotice(s.cpus[c])
    requires step != Collect(c) && step != PlatformIpi(c)
    ensures Apply(s, step).Done? && c < |Apply(s, step).value.cpus| && WillNotice(Apply(s, step).value.cpus[c])
  {
    StepKeepsInv(s, step);
    if WillWake(s.cpus[c]) {
      WakeStays(s, step, c);
    }
  }

  /** An urgent post never goes unnoticed, whether or not the sender found the idle
      flag: from the post until the target takes its bits, in the idle wait or in the
      interrupt, the target is sure to look at them. */
  lemma {:induction false} UrgentPostIsNoticed(states: seq<State>, steps: seq<Step>, i: nat, j: nat)
    requires IsRun(states, steps) && i < j <= |steps| && steps[i].Post? && !steps[i].relaxed
    requires steps[i].cpu < |states[i].cpus|
    requires forall k | i < k < j :: steps[k] != Collect(steps[i].cpu) && steps[k] != PlatformIpi(steps[i].cpu)
    ensures steps[i].cpu < |states[j].cpus| && WillNotice(states[j].cpus[steps[i].cpu])
    decreases j
  {
    InvHolds(states, steps, j - 1);
    assert Follows(states, steps, j - 1);
    var c := steps[i].cpu;
    if j == i + 1 {
      assert CpuOk(states[i].max, states[i].cpus[c]);
    } else {
      UrgentPostIsNoticed(states, steps, i, j - 1);
      NoticeStays(states[j - 1], steps[j - 1], c);
    }
  }

  /** Where a reason can be on its way to its handler. */
  predicate OnItsWay(x: CpuState, i: Reason, since: nat) {
    i in x.word.reasons || (x.pc.Collected? && i in x.pc.bits) || (since <= |x.handled| && i in x.handled[since..])
  }

  lemma LogGrows(log: seq<Reason>, more: seq<Reason>, since: nat, i: Reason)
    requires since <= |log|
    ensures i in log[since..] || i in more <==> i in (log + more)[since..]
  {
    assert (log + more)[since..] == log[since..] + more;
  }

  lemma OnItsWayCpu(max: nat, x: CpuState, step: Step, i: Reason, since: nat)
    requires CpuOk(max, x) && EnabledCpu(max, x, step) && ApplyCpu(max, x, step).Done?
    requires since <= |x.handled| && OnItsWay(x, i, since)
    ensures var y := ApplyCpu(max, x, step).value; since <= |y.handled| && OnItsWay(y, i, since)
  {
    match step {
      case PlatformIpi(_) =>
        DescendingIsExact(x.word.reasons, max + 1);
        LogGrows(x.handled, Descending(x.word.reasons, max + 1), since, i);
      case Handle(_) =>
        HighestIsMax(x.pc.bits, max + 1);
        var top := Highest(x.pc.bits, max + 1);
        if top.Some? { LogGrows(x.handled, [top.value], since, i); }
      case RelaxedClear(_) => LogGrows(x.handled, [x.pc.picked.value], since, i);
      case _ =>
    }
  }

  lemma OnItsWayStep(s: State, step: Step, c: Cpu, i: Reason, since: nat)
    requires Inv(s) && Enabled(s, step) && c < |s.cpus| && since <= |s.cpus[c].handled| && OnItsWay(s.cpus[c], i, since)
    ensures var r := Apply(s, step);
            r.Done? && |r.value.cpus| == |s.cpus| && since <= |r.value.cpus[c].handled| &&
            OnItsWay(r.value.cpus[c], i, since)
  {
    StepKeepsInv(s, step);
    assert CpuOk(s.max, s.cpus[c]);
    if c == step.cpu { OnItsWayCpu(s.max, s.cpus[c], step, i, since); }
  }

  /** No reason is lost: at any time after it was posted it is still pending, or
      collected, or has been handled since. */
  lemma {:induction false} NoReasonIsLost(states: seq<State>, steps: seq<Step>, i: nat, j: nat)
    requires IsRun(states, steps) && i < j <= |steps| && steps[i].Post? && steps[i].cpu < |states[i].cpus|
    ensures var c := steps[i].cpu;
            c < |states[j].cpus| && |states[i].cpus[c].handled| <= |states[j].cpus[c].handled| &&
            OnItsWay(states[j].cpus[c], steps[i].reason, |states[i].cpus[c].handled|)
    decreases j
  {
    InvHolds(states, steps, j - 1);
    assert Follows(states, steps, j - 1);
    if j > i + 1 {
      NoReasonIsLost(states, steps, i, j - 1);
      OnItsWayStep(states[j - 1], steps[j - 1], steps[i].cpu, steps[i].reason, |states[i].cpus[steps[i].cpu].handled|);
    }
  }

  // -------------------------------------------------------------- conservation

  /** How often the reason is pending, collected or in the log. */
  function Copies(x: CpuState, i: Reason): (n: nat) {
    (if i in x.word.reasons then 1 else 0) + (if x.pc.Collected? && i in x.pc.bits then 1 else 0) +
    multiset(x.handled)[i]
  }

  /** The step posts a reason that is not pending. */
  predicate SetsBit(s: State, step: Step, c: Cpu, i: Reason) {
    step.Post? && step.cpu == c && step.reason == i && c < |s.cpus| && i !in s.cpus[c].word.reasons
  }

  lemma {:induction false} DescendingOnce(bits: set<Reason>, n: nat, i: Reason)
    ensures multiset(Descending(bits, n))[i] == if i in bits && i < n then 1 else 0
  {
    if n > 0 { DescendingOnce(bits, n - 1, i); }
  }

  lemma CopiesCpu(max: nat, x: CpuState, step: Step, i: Reason)
    requires CpuOk(max, x) && EnabledCpu(max, x, step) && ApplyCpu(max, x, step).Done?
    ensures Copies(ApplyCpu(max, x, step).value, i) ==
            Copies(x, i) + if step.Post? && step.reason == i && i !in x.word.reasons then 1 else 0
  {
    match step {
      case PlatformIpi(_) =>
        DescendingOnce(x.word.reasons, max + 1, i);
        MoreLogged(x.handled, Descending(x.word.reasons, max + 1), i);
      case Handle(_) =>
        HighestIsMax(x.pc.bits, max + 1);
        var top := Highest(x.pc.bits, max + 1);
        if top.Some? { MoreLogged(x.handled, [top.value], i); }
      case RelaxedClear(_) => MoreLogged(x.handled, [x.pc.picked.value], i);
      case _ =>
    }
  }

  lemma MoreLogged(log: seq<Reason>, more: seq<Reason>, i: Reason)
    ensures multiset(log + more)[i] == multiset(log)[i] + multiset(more)[i]
  {
  }

  /** How many of the first `k` steps posted reason `i` to CPU `c` while it was not pending. */
  ghost function Settings(states: seq<State>, steps: seq<Step>, k: nat, c: Cpu, i: Reason): (n: nat)
    requires k <= |steps| < |states|
  {
    if k == 0 then 0
    else Settings(states, steps, k - 1, c, i) + if SetsBit(states[k - 1], steps[k - 1], c, i) then 1 else 0
  }

  /** Each post that sets a bit is handled once: nothing is handled twice, and nothing
      is handled, collected or pending that was not posted. */
  lemma {:induction false} HandledOnce(states: seq<State>, steps: seq<Step>, k: nat, c: Cpu, i: Reason)
    requires IsRun(states, steps) && k <= |steps| && c < |states[k].cpus|
    ensures Copies(states[k].cpus[c], i) == Settings(states, steps, k, c, i)
  {
    InvHolds(states, steps, k);
    if k > 0 {
      InvHolds(states, steps, k - 1);
      assert Follows(states, steps, k - 1);
      HandledOnce(states, steps, k - 1, c, i);
      var s := states[k - 1];
      assert CpuOk(s.max, s.cpus[c]);
      if steps[k - 1].cpu == c { CopiesCpu(s.max, s.cpus[c], steps[k - 1], i); }
    }
  }
}
