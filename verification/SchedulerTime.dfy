/** The time a thread is charged for. A thread that becomes active may run until its
    deadline, the time it was scheduled plus its slice; however often it is looked at
    meanwhile, it is found expired just when that time has come. */
module SchedulerTime {
  import opened Outcomes
  import opened SchedulerState
  import opened SchedulerInvariant
  import opened SchedulerEffects
  import opened SchedulerRuns

  /** When the slice of thread `t`, active on CPU `c`, is used up. */
  function Deadline(s: State, c: Cpu, t: Tid): (time: nat)
    requires c < |s.scheds| && t < |s.threads|
  {
    s.scheds[c].schedtime + s.threads[t].activeTimeslice
  }

  /** The thread that was active is charged for the time since it was scheduled: before
      its deadline it keeps what is left, at its deadline it gets a full slice again.
      No other thread is charged, and nothing else about any thread changes. */
  ghost predicate Charged(s: State, c: Cpu, now: nat, threads: seq<Thread>)
    requires c < |s.scheds| && (s.scheds[c].active.Some? ==> s.scheds[c].active.value < |s.threads|)
  {
    |threads| == |s.threads| &&
    (forall t | 0 <= t < |threads| && s.scheds[c].active != Some(t) :: threads[t] == s.threads[t]) &&
    (s.scheds[c].active.Some? ==>
       var t := s.scheds[c].active.value;
       threads[t] == s.threads[t].(activeTimeslice := threads[t].activeTimeslice) &&
       if now < Deadline(s, c, t) then now + threads[t].activeTimeslice == Deadline(s, c, t)
       else threads[t].activeTimeslice == s.threads[t].baseTimeslice)
  }

  lemma SelectionCharges(s: State, c: Cpu, now: nat)
    requires Inv(s) && c < |s.scheds|
    ensures NextTarget(s, c, now).Done?
    ensures s.scheds[c].active.Some? ==> s.scheds[c].active.value < |s.threads|
    ensures var r := NextTarget(s, c, now).value.0;
            Charged(s, c, now, r.threads) && |r.scheds| == |s.scheds| && r.scheds[c].schedtime == now &&
            forall d | 0 <= d < |s.scheds| && d != c :: r.scheds[d] == s.scheds[d]
  {
    NextTargetKeepsInv(s, c, now);
    SelectionTime(s, c, now);
    ActiveExists(s, c);
    if s.scheds[c].active.Some? {
      var prev := s.scheds[c].active.value;
      ChargeCharges(s, c, now, prev, Charge(s.scheds[c], s.threads[prev], now));
    }
  }

  lemma ActiveExists(s: State, c: Cpu)
    requires Inv(s) && c < |s.scheds|
    ensures s.scheds[c].active.Some? ==> s.scheds[c].active.value < |s.threads|
  {
    assert Placed(s.threads, s.scheds[c], c);
  }

  lemma SelectionTime(s: State, c: Cpu, now: nat)
    requires c < |s.scheds| && NextTarget(s, c, now).Done?
    ensures var r, sc := NextTarget(s, c, now).value.0, s.scheds[c];
            |r.scheds| == |s.scheds| && r.scheds[c].schedtime == now &&
            (forall d | 0 <= d < |s.scheds| && d != c :: r.scheds[d] == s.scheds[d]) &&
            if sc.active.None? then r.threads == s.threads
            else sc.active.value < |s.threads| &&
                 r.threads == s.threads[sc.active.value := Charge(sc, s.threads[sc.active.value], now)]
  {
  }

  lemma ChargeCharges(s: State, c: Cpu, now: nat, t: Tid, th: Thread)
    requires c < |s.scheds| && s.scheds[c].active == Some(t) && t < |s.threads|
    requires th == Charge(s.scheds[c], s.threads[t], now)
    ensures Charged(s, c, now, s.threads[t := th])
  {
  }

  // ------------------------------------------------------------------------ runs

  /** The step does not give up the thread's slice and does not look at it too late. */
  predicate Undisturbed(s: State, step: Step, c: Cpu, t: Tid, deadline: nat) {
    (step.Select? && step.cpu == c ==> step.now < deadline) &&
    !(step.Yield? && step.cpu < |s.cores| && s.cores[step.cpu].current == t)
  }

  ghost predicate ActiveOn(s: State, c: Cpu, t: Tid) {
    c < |s.scheds| && t < |s.threads| && s.scheds[c].active == Some(t)
  }

  /** A thread that is requeued does not stay active, and no other one loses its place or time. */
  lemma RequeueKeepsDeadline(s: State, r: State, u: Tid, c: Cpu, t: Tid)
    requires Only(s, r, u) && Requeued(s, r, u) && ActiveOn(s, c, t) && ActiveOn(r, c, t)
    requires s.threads[t].queued && s.threads[t].affinity == Some(c)
    ensures u != t && Deadline(r, c, t) == Deadline(s, c, t)
  {
    var mid: seq<Sched> :| Passes(s, mid, r, u);
    assert c < |mid| && mid[c].schedtime == s.scheds[c].schedtime == r.scheds[c].schedtime;
  }

  /** The queues following one flag leave the time alone. */
  lemma FollowKeepsDeadline(s: State, r: State, u: Tid, c: Cpu, t: Tid)
    requires u < |s.threads| == |r.threads| && QueuesFollow(s, r, u) && ActiveOn(s, c, t) && ActiveOn(r, c, t)
    requires u != t ==> r.threads[t] == s.threads[t]
    requires s.threads[t].queued && r.threads[t].queued
    ensures Deadline(r, c, t) == Deadline(s, c, t)
  {
  }

  lemma BelongsThere(s: State, c: Cpu, t: Tid)
    requires Inv(s) && ActiveOn(s, c, t)
    ensures s.threads[t].queued && s.threads[t].affinity == Some(c) && !s.threads[t].needRequeue
    ensures Heeded(s, s.threads[t]) == {}
  {
    assert Placed(s.threads, s.scheds[c], c) && ThreadOk(s, t);
  }

  lemma BlockStepDeadline(s: State, step: Step, r: State, c: Cpu, t: Tid)
    requires Inv(s) && Inv(r) && Enabled(s, step) && Apply(s, step) == Done(r) && ActiveOn(s, c, t) && ActiveOn(r, c, t)
    requires step.Block? || step.Unblock? || step.Sync? || step.Kill?
    ensures Deadline(r, c, t) == Deadline(s, c, t)
  {
    assert Located(s.threads, s.scheds, step.thread);
    BelongsThere(s, c, t);
    BelongsThere(r, c, t);
    match step
    case Block(u, b) => BlockEffect(s, u, b);
    case Unblock(u, b) => UnblockEffect(s, u, b);
    case Sync(u) => SyncEffect(s, u);
    case Kill(u) => KillEffect(s, u);
    if r != s { FollowKeepsDeadline(s, r, step.thread, c, t); }
  }

  lemma MoveStepDeadline(s: State, step: Step, r: State, c: Cpu, t: Tid)
    requires Inv(s) && Inv(r) && Enabled(s, step) && Apply(s, step) == Done(r) && ActiveOn(s, c, t) && ActiveOn(r, c, t)
    requires step.ChangeAffinity? || step.ChangePriority? || step.ChangeTimeslice?
    ensures Deadline(r, c, t) == Deadline(s, c, t)
  {
    var u := step.thread;
    assert Located(s.threads, s.scheds, u);
    BelongsThere(s, c, t);
    if r != s {
      match step {
        case ChangeAffinity(_, target, allowed, needSync) =>
          AffinityEffect(s, u, target, allowed, needSync);
          RequeueKeepsDeadline(s, r, u, c, t);
        case ChangePriority(_, priority) => ParamsDeadline(s, r, u, priority, s.threads[u].baseTimeslice, c, t);
        case ChangeTimeslice(_, _, ticks) => ParamsDeadline(s, r, u, s.threads[u].priority, ticks, c, t);
      }
    }
  }

  lemma ParamsDeadline(s: State, r: State, u: Tid, priority: nat, timeslice: nat, c: Cpu, t: Tid)
    requires Inv(s) && u < |s.threads| && UpdateParams(s, u, priority, timeslice) == Done(r)
    requires ActiveOn(s, c, t) && ActiveOn(r, c, t)
    ensures Deadline(r, c, t) == Deadline(s, c, t)
  {
    assert Located(s.threads, s.scheds, u);
    BelongsThere(s, c, t);
    ParamsEffect(s, u, priority, timeslice);
    if Heeded(s, s.threads[u]) == {} && !s.threads[u].needRequeue {
      RequeueKeepsDeadline(s, r, u, c, t);
    }
  }

  lemma CoreStepDeadline(s: State, step: Step, r: State, c: Cpu, t: Tid)
    requires Inv(s) && Inv(r) && Enabled(s, step) && Apply(s, step) == Done(r) && ActiveOn(s, c, t) && ActiveOn(r, c, t)
    requires step.Exit? || step.Pre? || step.Post?
    ensures Deadline(r, c, t) == Deadline(s, c, t)
  {
    BelongsThere(s, c, t);
    BelongsThere(r, c, t);
    match step
    case Exit(d) =>
      assert Located(s.threads, s.scheds, s.cores[d].current);
      ExitEffect(s, s.cores[d].current);
      FollowKeepsDeadline(s, r, s.cores[d].current, c, t);
    case Pre(d) => PreEffect(s, d);
    case Post(d, needSync) =>
      PostEffect(s, d, needSync);
      FollowKeepsDeadline(s, r, s.cores[d].prev, c, t);
  }

  lemma SelectStepDeadline(s: State, step: Step, r: State, c: Cpu, t: Tid)
    requires Inv(s) && Enabled(s, step) && Apply(s, step) == Done(r) && ActiveOn(s, c, t) && ActiveOn(r, c, t)
    requires step.Select? && (step.cpu == c ==> step.now < Deadline(s, c, t))
    ensures Deadline(r, c, t) == Deadline(s, c, t)
  {
    SelectionCharges(s, step.cpu, step.now);
    BelongsThere(s, c, t);
    if step.cpu != c && s.scheds[step.cpu].active == Some(t) {
      BelongsThere(s, step.cpu, t);
    }
  }

  lemma StepKeepsDeadline(s: State, step: Step, r: State, c: Cpu, t: Tid)
    requires Inv(s) && Enabled(s, step) && Apply(s, step) == Done(r) && ActiveOn(s, c, t) && ActiveOn(r, c, t)
    requires Undisturbed(s, step, c, t, Deadline(s, c, t))
    ensures Deadline(r, c, t) == Deadline(s, c, t)
  {
    StepKeepsInv(s, step);
    match step
    case Block(_, _) => BlockStepDeadline(s, step, r, c, t);
    case Unblock(_, _) => BlockStepDeadline(s, step, r, c, t);
    case Sync(_) => BlockStepDeadline(s, step, r, c, t);
    case Kill(_) => BlockStepDeadline(s, step, r, c, t);
    case ChangeAffinity(_, _, _, _) => MoveStepDeadline(s, step, r, c, t);
    case ChangePriority(_, _) => MoveStepDeadline(s, step, r, c, t);
    case ChangeTimeslice(_, _, _) => MoveStepDeadline(s, step, r, c, t);
    case Select(_, _) => SelectStepDeadline(s, step, r, c, t);
    case Create(_, _, _, _) =>
    case Pin(_) =>
    case Unpin(_) =>
    case Yield(_) =>
    case Abandon(_) =>
    case _ => CoreStepDeadline(s, step, r, c, t);
  }

  /** Whatever other threads and CPUs do, a thread that stays active and does not give
      its slice up keeps the deadline it started with, however often it is looked at in
      time. A selection at time `now` then finds it expired if and only if the deadline
      has come: before, it is left with the rest; from then on, it gets a full slice. */
  lemma DeadlineStands(states: seq<State>, steps: seq<Step>, i: nat, j: nat, c: Cpu, t: Tid, now: nat)
    requires IsRun(states, steps) && i <= j <= |steps| && ActiveOn(states[i], c, t) && ActiveOn(states[j], c, t)
    requires forall k | i <= k <= j :: ActiveOn(states[k], c, t)
    requires forall k | i <= k < j :: Undisturbed(states[k], steps[k], c, t, Deadline(states[i], c, t))
    ensures Deadline(states[j], c, t) == Deadline(states[i], c, t)
    ensures NextTarget(states[j], c, now).Done?
    ensures var r := NextTarget(states[j], c, now).value.0;
            t < |r.threads| &&
            if now < Deadline(states[i], c, t) then now + r.threads[t].activeTimeslice == Deadline(states[i], c, t)
            else r.threads[t].activeTimeslice == states[j].threads[t].baseTimeslice
  {
    DeadlineHolds(states, steps, i, j, c, t);
    InvHolds(states, steps, j);
    SelectionCharges(states[j], c, now);
  }

  lemma {:induction false} DeadlineHolds(states: seq<State>, steps: seq<Step>, i: nat, j: nat, c: Cpu, t: Tid)
    requires IsRun(states, steps) && i <= j <= |steps| && ActiveOn(states[i], c, t) && ActiveOn(states[j], c, t)
    requires forall k | i <= k <= j :: ActiveOn(states[k], c, t)
    requires forall k | i <= k < j :: Undisturbed(states[k], steps[k], c, t, Deadline(states[i], c, t))
    ensures Deadline(states[j], c, t) == Deadline(states[i], c, t)
    decreases j
  {
    if i < j {
      DeadlineHolds(states, steps, i, j - 1, c, t);
      DeadlineNext(states, steps, j - 1, c, t);
    }
  }

  lemma DeadlineNext(states: seq<State>, steps: seq<Step>, k: nat, c: Cpu, t: Tid)
    requires IsRun(states, steps) && k < |steps| && ActiveOn(states[k], c, t) && ActiveOn(states[k + 1], c, t)
    requires Undisturbed(states[k], steps[k], c, t, Deadline(states[k], c, t))
    ensures Deadline(states[k + 1], c, t) == Deadline(states[k], c, t)
  {
    InvHolds(states, steps, k);
    assert Follows(states, steps, k);
    StepKeepsDeadline(states[k], steps[k], states[k + 1], c, t);
  }
}
