/** CPU power voting and the online counter of `power.c`, without suspend.

    A CPU that goes offline holds its own voting lock from the decrement of the
    counter until it is marked offline, waiting while the counter is zero; it is
    still running for a while after that, so that a power-on can race with it. */
module PowerProtocol {
  import opened Outcomes
  import opened Sums

  type Cpu = nat

  const MAX_CPU_ON_RETRIES := 2

  datatype PowerState = ColdBoot | Off | Started | Online | Offline

  /** Where the CPU itself is. `Marking` is between the two sections of its warm
      init, `Leaving` the wait loop with the voting lock held, `Stopping` between
      releasing that lock and losing power. */
  datatype Pc = Down | Booting | Marking(from: PowerState) | Up | Leaving | Stopping

  /** `pending` counts expiries of the retry timer whose action has yet to run. */
  datatype CpuState = CpuState(
    power: PowerState,
    pc: Pc,
    votes: nat,
    retries: nat,
    timerQueued: bool,
    pending: nat)

  datatype State = State(cpus: seq<CpuState>, online: nat, running: set<Cpu>, present: set<Cpu>, functional: set<Cpu>)

  /** What `platform_cpu_on` reports. */
  datatype Platform = PlatformOk | PlatformRetry | PlatformFailure

  datatype Error = Ok | ArgumentInvalid | Failure

  /** The voting lock of a CPU is held over several steps only while it leaves. */
  predicate LockFree(s: State, c: Cpu)
    requires c < |s.cpus|
  {
    !s.cpus[c].pc.Leaving?
  }

  /** `power_try_cpu_on`: the new state of the CPU and what the caller is told. */
  function TryCpuOn(s: State, c: Cpu, platform: Platform): (r: (CpuState, Error))
    requires c < |s.cpus|
  {
    var x := s.cpus[c];
    if c !in s.present then (x, ArgumentInvalid)
    else if c !in s.functional then (x, Failure)
    else if !x.power.Off? && !x.power.Offline? then (x, Ok)
    else
      match platform
      case PlatformOk => (x.(power := Started, pc := Booting, retries := 0), Ok)
      case PlatformRetry => if x.retries < MAX_CPU_ON_RETRIES then (x.(timerQueued := true), Ok) else (x, Failure)
      case PlatformFailure => (x, Failure)
  }

  datatype Step =
    | VoteOn(cpu: Cpu, platform: Platform)
    | VoteOff(cpu: Cpu)
    | TimerExpire(cpu: Cpu)
    | TimerAction(cpu: Cpu, platform: Platform)
    | WarmInit(cpu: Cpu)
    | WarmMark(cpu: Cpu)
    | IdleOff(cpu: Cpu, mayIdle: bool)
    | Leave(cpu: Cpu)
    | PowerOff(cpu: Cpu)

  /** The platform starts a CPU only when it has lost power. */
  predicate Honest(x: CpuState, platform: Platform) {
    platform.PlatformOk? && (x.power.Off? || x.power.Offline?) ==> x.pc.Down?
  }

  predicate Enabled(s: State, step: Step) {
    var c := step.cpu;
    c < |s.cpus| &&
    var x := s.cpus[c];
    match step
    case VoteOn(_, p) => LockFree(s, c) && Honest(x, p)
    case VoteOff(_) => LockFree(s, c) && x.votes > 0
    case TimerExpire(_) => x.timerQueued
    case TimerAction(_, p) => LockFree(s, c) && x.pending > 0 && Honest(x, p)
    case WarmInit(_) => x.pc.Booting? && !x.power.Off?
    case WarmMark(_) => x.pc.Marking?
    case IdleOff(_, _) => x.pc.Up? && x.votes == 0
    case Leave(_) => x.pc.Leaving? && s.online > 0
    case PowerOff(_) => x.pc.Stopping?
  }

  function SetCpu(s: State, c: Cpu, x: CpuState): (r: State)
    requires c < |s.cpus|
  {
    s.(cpus := s.cpus[c := x])
  }

  function Apply(s: State, step: Step): (r: Result<State>)
    requires Enabled(s, step)
  {
    var c := step.cpu;
    var x := s.cpus[c];
    match step
    case VoteOn(_, p) =>
      if x.votes > 0 then Done(SetCpu(s, c, x.(votes := x.votes + 1)))
      else
        var (y, e) := TryCpuOn(s, c, p);
        Done(SetCpu(s, c, if e.Ok? then y.(votes := 1) else y))
    case VoteOff(_) =>
      Done(SetCpu(s, c,
                  if x.votes > 1 then x.(votes := x.votes - 1) else x.(votes := 0, retries := 0, timerQueued := false)))
    case TimerExpire(_) => Done(SetCpu(s, c, x.(timerQueued := false, pending := x.pending + 1)))
    case TimerAction(_, p) =>
      if x.votes == 0 then Done(SetCpu(s, c, x.(pending := x.pending - 1)))
      else
        var m := SetCpu(s, c, x.(retries := x.retries + 1, pending := x.pending - 1));
        var (y, e) := TryCpuOn(m, c, p);
        if e.Ok? then Done(SetCpu(s, c, y)) else Panic
    case WarmInit(_) =>
      if !x.power.ColdBoot? && !x.power.Started? then Panic
      else
        Done(SetCpu(s, c, x.(power := Online, pc := Marking(x.power)))
               .(online := if x.power.Started? then s.online + 1 else s.online))
    case WarmMark(_) =>
      if s.running == {} && !x.pc.from.Started? then Panic
      else Done(SetCpu(s, c, x.(pc := Up)).(running := s.running + {c}))
    case IdleOff(_, mayIdle) =>
      if s.running - {c} == {} && !mayIdle then Done(s)
      else if !x.power.Online? || s.online == 0 then Panic
      else Done(SetCpu(s, c, x.(pc := Leaving)).(running := s.running - {c}, online := s.online - 1))
    case Leave(_) => Done(SetCpu(s, c, x.(power := Offline, pc := Stopping)))
    case PowerOff(_) => Done(SetCpu(s, c, x.(pc := Down)))
  }

  const BOOT_CPU := CpuState(ColdBoot, Booting, 1, 0, false, 0)
  const OFF_CPU := CpuState(Off, Down, 0, 0, false, 0)

  predicate Init(s: State) {
    s.online == 1 &&
    exists boot | 0 <= boot < |s.cpus| ::
      s.running == {boot} && forall c | 0 <= c < |s.cpus| :: s.cpus[c] == if c == boot then BOOT_CPU else OFF_CPU
  }

  ghost predicate Follows(states: seq<State>, steps: seq<Step>, i: nat)
    requires i < |steps| < |states|
  {
    Enabled(states[i], steps[i]) && Apply(states[i], steps[i]) == Done(states[i + 1])
  }

  ghost predicate IsRun(states: seq<State>, steps: seq<Step>) {
    |states| == |steps| + 1 && Init(states[0]) && forall i | 0 <= i < |steps| :: Follows(states, steps, i)
  }

  // ---------------------------------------------------------------- invariant

  /** A CPU the online counter stands for: booting cold or online, and not past its decrement. */
  function Counted(x: CpuState): (n: nat) {
    if x.power.ColdBoot? || (x.power.Online? && !x.pc.Leaving?) then 1 else 0
  }

  function Waits(x: CpuState): (n: nat) {
    if x.pc.Leaving? then 1 else 0
  }

  function CountedCpus(cpus: seq<CpuState>): (n: nat) {
    Sum(cpus, Counted)
  }

  function WaitingCpus(cpus: seq<CpuState>): (n: nat) {
    Sum(cpus, Waits)
  }

  lemma CountReplace(cpus: seq<CpuState>, c: Cpu, x: CpuState)
    requires c < |cpus|
    ensures CountedCpus(cpus[c := x]) == CountedCpus(cpus) - Counted(cpus[c]) + Counted(x)
    ensures WaitingCpus(cpus[c := x]) == WaitingCpus(cpus) - Waits(cpus[c]) + Waits(x)
    ensures CountedCpus(cpus) >= Counted(cpus[c])
  {
    SumReplace(cpus, c, x, Counted);
    SumReplace(cpus, c, x, Waits);
  }

  predicate CpuOk(s: State, c: Cpu)
    requires c < |s.cpus|
  {
    var x := s.cpus[c];
    (match x.pc
     case Down => x.power.Off? || x.power.Offline?
     case Booting => x.power.ColdBoot? || x.power.Started?
     case Marking(from) => x.power.Online? && (from.ColdBoot? || from.Started?)
     case Up => x.power.Online?
     case Leaving => x.power.Online? && x.votes == 0
     case Stopping => x.power.Offline?) &&
    (x.power.ColdBoot? || x.pc == Marking(ColdBoot) || x.pc.Up? <==> c in s.running) &&
    (x.votes > 0 && (x.power.Off? || x.power.Offline?) ==> x.timerQueued || x.pending > 0)
  }

  predicate Inv(s: State) {
    s.online == CountedCpus(s.cpus) && s.online + WaitingCpus(s.cpus) >= 1 &&
    (forall c | c in s.running :: c < |s.cpus|) && forall c | 0 <= c < |s.cpus| :: CpuOk(s, c)
  }

  /** A step panics only when the retries of a power-on have run out or the
      platform refuses to start a CPU that has votes. */
  predicate MayPanic(s: State, step: Step)
    requires Enabled(s, step)
  {
    step.TimerAction? && s.cpus[step.cpu].votes > 0 &&
    (step.cpu !in s.present || step.cpu !in s.functional ||
     ((s.cpus[step.cpu].power.Off? || s.cpus[step.cpu].power.Offline?) &&
      (step.platform.PlatformFailure? ||
       (step.platform.PlatformRetry? && s.cpus[step.cpu].retries + 1 >= MAX_CPU_ON_RETRIES))))
  }

  lemma PanicIff(s: State, step: Step)
    requires Inv(s) && Enabled(s, step)
    ensures Apply(s, step).Panic? <==> MayPanic(s, step)
  {
    assert CpuOk(s, step.cpu);
    CountReplace(s.cpus, step.cpu, s.cpus[step.cpu]);
  }

  lemma StepKeepsInv(s: State, step: Step)
    requires Inv(s) && Enabled(s, step) && Apply(s, step).Done?
    ensures Inv(Apply(s, step).value)
  {
    var c := step.cpu;
    var r := Apply(s, step).value;
    CountsStep(s, step);
    CpuStep(s, step);
    forall d | 0 <= d < |r.cpus| ensures CpuOk(r, d) {
      if d != c { assert CpuOk(s, d); }
    }
  }

  /** The counter follows the CPUs, and the sum with the waiting ones stays positive. */
  lemma CountsStep(s: State, step: Step)
    requires Inv(s) && Enabled(s, step) && Apply(s, step).Done?
    ensures var r := Apply(s, step).value;
            |r.cpus| == |s.cpus| && r.cpus == s.cpus[step.cpu := r.cpus[step.cpu]] &&
            r.online == CountedCpus(r.cpus) && r.online + WaitingCpus(r.cpus) >= 1
  {
    var c := step.cpu;
    var r := Apply(s, step).value;
    assert CpuOk(s, c);
    assert s.cpus[c := s.cpus[c]] == s.cpus;
    CountReplace(s.cpus, c, r.cpus[c]);
  }

  /** The CPU that is acted on keeps its place consistent with its power state. */
  lemma CpuStep(s: State, step: Step)
    requires Inv(s) && Enabled(s, step) && Apply(s, step).Done?
    ensures step.cpu < |Apply(s, step).value.cpus| && CpuOk(Apply(s, step).value, step.cpu)
  {
    assert CpuOk(s, step.cpu);
  }

  // ---------------------------------------------------------------- whole runs

  lemma {:induction false} InitCounts(cpus: seq<CpuState>, boot: Cpu, k: nat)
    requires boot < |cpus| && k <= |cpus|
    requires forall c | 0 <= c < |cpus| :: cpus[c] == if c == boot then BOOT_CPU else OFF_CPU
    ensures CountedCpus(cpus[..k]) == (if boot < k then 1 else 0)
  {
    if k > 0 {
      InitCounts(cpus, boot, k - 1);
      assert cpus[..k][..k - 1] == cpus[..k - 1];
    }
  }

  lemma {:induction false} InvHolds(states: seq<State>, steps: seq<Step>, k: nat)
    requires IsRun(states, steps) && k <= |steps|
    ensures Inv(states[k])
  {
    if k > 0 {
      InvHolds(states, steps, k - 1);
      assert Follows(states, steps, k - 1);
      StepKeepsInv(states[k - 1], steps[k - 1]);
    } else {
      var s := states[0];
      var boot :| 0 <= boot < |s.cpus| && s.running == {boot} &&
                  forall c | 0 <= c < |s.cpus| :: s.cpus[c] == if c == boot then BOOT_CPU else OFF_CPU;
      InitCounts(s.cpus, boot, |s.cpus|);
      assert s.cpus[..|s.cpus|] == s.cpus;
    }
  }

  /** The counter is the number of CPUs in cold boot or online that have not
      decremented it, and together with the CPUs held in the wait loop it is never zero. */
  lemma NeverAllOff(states: seq<State>, steps: seq<Step>, k: nat)
    requires IsRun(states, steps) && k <= |steps|
    ensures states[k].online == CountedCpus(states[k].cpus)
    ensures states[k].online + WaitingCpus(states[k].cpus) >= 1
    ensures exists c | 0 <= c < |states[k].cpus| :: Counted(states[k].cpus[c]) == 1 || states[k].cpus[c].pc.Leaving?
  {
    InvHolds(states, steps, k);
    SomeoneIsUp(states[k].cpus);
  }

  lemma {:induction false} SomeoneIsUp(cpus: seq<CpuState>)
    requires CountedCpus(cpus) + WaitingCpus(cpus) >= 1
    ensures exists c | 0 <= c < |cpus| :: Counted(cpus[c]) == 1 || cpus[c].pc.Leaving?
  {
    var n := |cpus| - 1;
    if Counted(cpus[n]) == 0 && Waits(cpus[n]) == 0 {
      SomeoneIsUp(cpus[..n]);
      var c :| 0 <= c < n && (Counted(cpus[..n][c]) == 1 || cpus[..n][c].pc.Leaving?);
      assert Counted(cpus[c]) == 1 || cpus[c].pc.Leaving?;
    } else {
      assert Counted(cpus[n]) == 1 || cpus[n].pc.Leaving?;
    }
  }

  /** A CPU that completes its power-off leaves another one behind that is online
      or cold booting. */
  lemma LastCpuStays(states: seq<State>, steps: seq<Step>, k: nat)
    requires IsRun(states, steps) && k < |steps| && steps[k].Leave?
    ensures exists c | 0 <= c < |states[k].cpus| :: c != steps[k].cpu && Counted(states[k].cpus[c]) == 1
  {
    InvHolds(states, steps, k);
    assert Follows(states, steps, k);
    SomeoneCounted(states[k].cpus);
    var c :| 0 <= c < |states[k].cpus| && Counted(states[k].cpus[c]) == 1;
    assert CpuOk(states[k], steps[k].cpu);
  }

  /** The system is never asked to idle: no idle event is granted before step `k`. */
  ghost predicate NeverIdles(steps: seq<Step>, k: nat)
    requires k <= |steps|
  {
    forall i | 0 <= i < k :: steps[i].IdleOff? ==> !steps[i].mayIdle
  }

  /** While no idle event is granted some CPU is always running: up, or booting cold. */
  lemma {:induction false} SomeoneRuns(states: seq<State>, steps: seq<Step>, k: nat)
    requires IsRun(states, steps) && k <= |steps| && NeverIdles(steps, k)
    ensures states[k].running != {}
    ensures exists c | 0 <= c < |states[k].cpus| :: c in states[k].running && Counted(states[k].cpus[c]) == 1
  {
    InvHolds(states, steps, k);
    if k > 0 {
      SomeoneRuns(states, steps, k - 1);
      assert Follows(states, steps, k - 1);
      RunningStep(states[k - 1], steps[k - 1]);
    }
    var c :| c in states[k].running;
    assert CpuOk(states[k], c) && Counted(states[k].cpus[c]) == 1;
  }

  lemma RunningStep(s: State, step: Step)
    requires Enabled(s, step) && Apply(s, step).Done? && s.running != {} && (step.IdleOff? ==> !step.mayIdle)
    ensures Apply(s, step).value.running != {}
  {
    var c :| c in s.running;
  }

  /** So a CPU enters the wait loop only while another one is running. */
  lemma LeavesOthersRunning(states: seq<State>, steps: seq<Step>, k: nat)
    requires IsRun(states, steps) && k < |steps| && NeverIdles(steps, k + 1)
    requires steps[k].IdleOff? && steps[k].cpu < |states[k + 1].cpus| && states[k + 1].cpus[steps[k].cpu].pc.Leaving?
    ensures exists d | 0 <= d < |states[k + 1].cpus| ::
              d != steps[k].cpu && d in states[k].running && Counted(states[k + 1].cpus[d]) == 1
  {
    assert Follows(states, steps, k);
    SomeoneRuns(states, steps, k + 1);
    InvHolds(states, steps, k);
    InvHolds(states, steps, k + 1);
    var d :| 0 <= d < |states[k + 1].cpus| && d in states[k + 1].running && Counted(states[k + 1].cpus[d]) == 1;
    assert CpuOk(states[k + 1], steps[k].cpu) && CpuOk(states[k], steps[k].cpu);
    assert d in states[k].running;
  }

  lemma {:induction false} SomeoneCounted(cpus: seq<CpuState>)
    requires CountedCpus(cpus) >= 1
    ensures exists c | 0 <= c < |cpus| :: Counted(cpus[c]) == 1
  {
    var n := |cpus| - 1;
    if Counted(cpus[n]) == 0 {
      SomeoneCounted(cpus[..n]);
      var c :| 0 <= c < n && Counted(cpus[..n][c]) == 1;
      assert Counted(cpus[c]) == 1;
    }
  }

  /** The step is a vote that counts: one that is not turned down. */
  predicate VotesFor(s: State, step: Step, c: Cpu) {
    step.VoteOn? && step.cpu == c && c < |s.cpus| &&
    (s.cpus[c].votes > 0 ||
     (c in s.present && c in s.functional &&
      (s.cpus[c].power.Off? || s.cpus[c].power.Offline? ==>
         step.platform.PlatformOk? || (step.platform.PlatformRetry? && s.cpus[c].retries < MAX_CPU_ON_RETRIES))))
  }

  /** Votes for CPU `c` in the first `k` steps, less those taken back. */
  ghost function VoteBalance(states: seq<State>, steps: seq<Step>, k: nat, c: Cpu): (n: int)
    requires k <= |steps| < |states|
  {
    if k == 0 then 0
    else VoteBalance(states, steps, k - 1, c) +
         if VotesFor(states[k - 1], steps[k - 1], c) then 1 else if steps[k - 1] == VoteOff(c) then -1 else 0
  }

  /** Expiries of the retry timer of CPU `c` in the first `k` steps, less its actions. */
  ghost function ExpiryBalance(steps: seq<Step>, k: nat, c: Cpu): (n: int)
    requires k <= |steps|
  {
    if k == 0 then 0
    else ExpiryBalance(steps, k - 1, c) +
         if steps[k - 1] == TimerExpire(c) then 1
         else if steps[k - 1].TimerAction? && steps[k - 1].cpu == c then -1 else 0
  }

  /** The count is that of the votes that stand: a failed vote leaves none behind, and
      the boot CPU starts with one. Every expiry of the retry timer is acted on once. */
  lemma {:induction false} VotesBalance(states: seq<State>, steps: seq<Step>, k: nat, c: Cpu)
    requires IsRun(states, steps) && k <= |steps| && c < |states[k].cpus|
    ensures c < |states[0].cpus| &&
            states[k].cpus[c].votes == states[0].cpus[c].votes + VoteBalance(states, steps, k, c)
    ensures states[k].cpus[c].pending == ExpiryBalance(steps, k, c)
  {
    if k > 0 {
      assert Follows(states, steps, k - 1);
      VotesBalance(states, steps, k - 1, c);
    }
  }

  /** A CPU somebody votes for and that is off has a retry on its way, in every state. */
  lemma VotedCpuIsRetried(states: seq<State>, steps: seq<Step>, k: nat, c: Cpu)
    requires IsRun(states, steps) && k <= |steps| && c < |states[k].cpus| && states[k].cpus[c].votes > 0
    ensures var x := states[k].cpus[c];
            x.power.ColdBoot? || x.power.Started? || x.power.Online? || x.timerQueued || x.pending > 0
  {
    InvHolds(states, steps, k);
    assert CpuOk(states[k], c);
  }

  /** The assertions of warm init and of the idle handler hold: a step panics if and
      only if it is a retry that the platform turns down for good. */
  lemma AssertionsHold(states: seq<State>, steps: seq<Step>, k: nat, step: Step)
    requires IsRun(states, steps) && k <= |steps| && Enabled(states[k], step)
    ensures Apply(states[k], step).Panic? <==> MayPanic(states[k], step)
  {
    InvHolds(states, steps, k);
    PanicIff(states[k], step);
  }
}
