/** Target selection and context switches of the scheduler, and its runs. */
module SchedulerRuns {
  import opened Outcomes
  import opened Lists
  import opened SchedulerState
  import opened SchedulerInvariant
  import opened SchedulerEffects

  // ---------------------------------------------------------------- selection

  /** Replacing one CPU's scheduler by another that holds the same threads. */
  lemma SchedFrame(s: State, c: Cpu, sc: Sched)
    requires PlacesOk(s) && c < |s.scheds| && Placed(s.threads, sc, c)
    requires forall t | 0 <= t < |s.threads| && Belongs(s.threads, c, t) && s.threads[t].priority <= MAX_PRIORITY ::
               sc.active == Some(t) || t in sc.runqueue[MAX_PRIORITY - s.threads[t].priority]
    ensures PlacesOk(s.(scheds := s.scheds[c := sc]))
  {
    var r := s.(scheds := s.scheds[c := sc]);
    forall d | 0 <= d < |r.scheds| ensures Placed(r.threads, r.scheds[d], d) {
      assert Placed(s.threads, s.scheds[d], d);
    }
    forall t | 0 <= t < |r.threads| ensures Located(r.threads, r.scheds, t) {
      assert Located(s.threads, s.scheds, t);
    }
  }

  lemma PopPlaced(s: State, c: Cpu, sc: Sched, i: nat, now: nat)
    requires Placed(s.threads, sc, c) && i in sc.bitmap
    ensures sc.runqueue[i] != [] && PopHead(s, sc, i).Done?
    ensures var head := sc.runqueue[i][0];
            var sc1 := PopHead(s, sc, i).value.0;
            PopHead(s, sc, i).value.1 == head && sc1.runqueue == sc.runqueue[i := sc.runqueue[i][1..]] &&
            Placed(s.threads, sc1.(active := Some(head), schedtime := now), c) && sc.active != Some(head)
  {
    var q := sc.runqueue[i];
    var head := q[0];
    assert head in q && Entry(s.threads, sc.active, c, i, head);
    var sc1 := PopHead(s, sc, i).value.0;
    assert Without(q, head) == q[1..] && head !in q[1..];
    forall k, u | 0 <= k < NUM_PRIORITIES && u in sc1.runqueue[k] ensures Entry(s.threads, Some(head), c, k, u) {
      assert u in sc.runqueue[k] && Entry(s.threads, sc.active, c, k, u);
    }
  }

  lemma PutBackPlaced(threads: seq<Thread>, c: Cpu, sc: Sched, t: Tid, atTail: bool)
    requires Placed(threads, sc, c) && Belongs(threads, c, t) && sc.active != Some(t) &&
             threads[t].priority <= MAX_PRIORITY
    requires t !in sc.runqueue[MAX_PRIORITY - threads[t].priority]
    ensures AddToRunqueue(sc, threads[t].priority, t, atTail).Done?
    ensures Placed(threads, AddToRunqueue(sc, threads[t].priority, t, atTail).value, c)
  {
    var sc2 := AddToRunqueue(sc, threads[t].priority, t, atTail).value;
    forall k, u | 0 <= k < NUM_PRIORITIES && u in sc2.runqueue[k] ensures Entry(threads, sc2.active, c, k, u) {
      if u in sc.runqueue[k] { assert Entry(threads, sc.active, c, k, u); }
    }
  }

  lemma PromotePlaces(s: State, c: Cpu, i: nat, expired: bool, now: nat)
    requires PlacesOk(s) && c < |s.scheds| && i in s.scheds[c].bitmap
    requires s.scheds[c].active.Some? ==> s.threads[s.scheds[c].active.value].priority <= MAX_PRIORITY
    ensures Promote(s, c, i, expired, now).Done?
    ensures var r := Promote(s, c, i, expired, now).value;
            PlacesOk(s.(scheds := s.scheds[c := r.0])) && r.1 < |s.threads| && r.1 == s.scheds[c].runqueue[i][0] &&
            r.0.active == Some(r.1) && s.scheds[c].active != Some(r.1)
  {
    var sc := s.scheds[c];
    assert Placed(s.threads, sc, c);
    PopPlaced(s, c, sc, i, now);
    if sc.active.Some? {
      var prev := sc.active.value;
      assert prev !in sc.runqueue[MAX_PRIORITY - s.threads[prev].priority];
      var popped := PopHead(s, sc, i).value;
      PutBackPlaced(s.threads, c, popped.0.(active := Some(popped.1), schedtime := now), prev, expired);
    }
    var r := Promote(s, c, i, expired, now).value;
    forall t | 0 <= t < |s.threads| && Belongs(s.threads, c, t) && s.threads[t].priority <= MAX_PRIORITY
      ensures r.0.active == Some(t) || t in r.0.runqueue[MAX_PRIORITY - s.threads[t].priority]
    {
      assert Located(s.threads, s.scheds, t);
    }
    SchedFrame(s, c, r.0);
  }

  lemma StayPlaces(s: State, c: Cpu, now: nat)
    requires PlacesOk(s) && c < |s.scheds|
    ensures PlacesOk(s.(scheds := s.scheds[c := s.scheds[c].(schedtime := now)]))
  {
    var sc := s.scheds[c];
    assert Placed(s.threads, sc, c);
    forall t | 0 <= t < |s.threads| && Belongs(s.threads, c, t) && s.threads[t].priority <= MAX_PRIORITY
      ensures sc.active == Some(t) || t in sc.runqueue[MAX_PRIORITY - s.threads[t].priority]
    {
      assert Located(s.threads, s.scheds, t);
    }
    SchedFrame(s, c, sc.(schedtime := now));
  }

  /** Threads and cores are untouched by a change of one run queue. */
  lemma QueueChange(s: State, c: Cpu, sc: Sched)
    requires Inv(s) && c < |s.scheds| && PlacesOk(s.(scheds := s.scheds[c := sc]))
    ensures Inv(s.(scheds := s.scheds[c := sc]))
  {
    var r := s.(scheds := s.scheds[c := sc]);
    CoresDependOnThreads(s, r);
    forall t | 0 <= t < |r.threads| ensures ThreadOk(r, t) { assert ThreadOk(s, t); }
  }

  lemma ChargeKeepsInv(s: State, t: Tid, slice: nat)
    requires Inv(s) && t < |s.threads|
    ensures Inv(SetThread(s, t, s.threads[t].(activeTimeslice := slice)))
  {
    assert ThreadOk(s, t);
    SetInvBut(s, t, s.threads[t].(activeTimeslice := slice));
    Whole(SetThread(s, t, s.threads[t].(activeTimeslice := slice)), t);
  }

  lemma NextTargetKeepsInv(s: State, c: Cpu, now: nat)
    requires Inv(s) && c < |s.scheds|
    ensures NextTarget(s, c, now).Done?
    ensures var r := NextTarget(s, c, now).value; Inv(r.0) && r.0.cores == s.cores && r.1 < |r.0.threads|
  {
    var sc := s.scheds[c];
    assert Placed(s.threads, sc, c);
    var first := FirstSet(sc.bitmap, 0);
    if sc.active.None? {
      if first.None? {
        StayPlaces(s, c, now);
        QueueChange(s, c, sc.(schedtime := now));
      } else {
        PromotePlaces(s, c, first.value, false, now);
        QueueChange(s, c, Promote(s, c, first.value, false, now).value.0);
      }
    } else {
      var prev := sc.active.value;
      var th := s.threads[prev];
      var expired := Expired(sc, th, now);
      assert ThreadOk(s, prev);
      ChargeKeepsInv(s, prev, Charge(sc, th, now).activeTimeslice);
      var s1 := SetThread(s, prev, Charge(sc, th, now));
      if first.None? || !Displaces(first.value, th, expired) {
        StayPlaces(s1, c, now);
        QueueChange(s1, c, sc.(schedtime := now));
      } else {
        PromotePlaces(s1, c, first.value, expired, now);
        QueueChange(s1, c, Promote(s1, c, first.value, expired, now).value.0);
      }
    }
  }

  // ----------------------------------------------------------------- switching

  /** A core that changes position without changing who is on it. */
  lemma CoreChange(s: State, c: Cpu, core: Core)
    requires Inv(s) && c < |s.cores| && !s.cores[c].Leaving? && !core.Leaving? && core.current == s.cores[c].current
    requires core.Chosen? ==> core.target < |s.threads| && core.target != core.current
    ensures Inv(s.(cores := s.cores[c := core]))
  {
    var r := s.(cores := s.cores[c := core]);
    forall d | 0 <= d < |r.cores| ensures CoreOk(r, d) { assert CoreOk(s, d); }
    forall t | 0 <= t < |r.threads| ensures RunningOk(r, t) { assert RunningOk(s, t); }
    forall t | 0 <= t < |r.threads| ensures ThreadOk(r, t) { assert ThreadOk(s, t); }
  }

  lemma PlacesDependOnThreads(s: State, r: State)
    requires PlacesOk(s) && r.threads == s.threads && r.scheds == s.scheds
    ensures PlacesOk(r)
  {
    forall d | 0 <= d < |r.scheds| ensures Placed(r.threads, r.scheds[d], d) {
      assert Placed(s.threads, s.scheds[d], d);
    }
    forall t | 0 <= t < |r.threads| ensures Located(r.threads, r.scheds, t) { assert Located(s.threads, s.scheds, t); }
  }

  /** The next thread takes the CPU; the one before it is still leaving. */
  lemma SeatKeepsInv(s: State, c: Cpu)
    requires Inv(s) && c < |s.cores| && s.cores[c].Chosen? && s.cores[c].target < |s.threads|
    requires var th := s.threads[s.cores[c].target];
             !th.running && (Runnable(s, th) || s.cores[c].target == c) && th.affinity == Some(c)
    ensures SwitchPre(s, c).Done? && Inv(SwitchPre(s, c).value)
  {
    var next := s.cores[c].target;
    assert CoreOk(s, c) && ThreadOk(s, next) && RunningOk(s, next);
    var r := SwitchPre(s, c).value;
    KeysFrame(s, next, r.threads[next]);
    PlacesDependOnThreads(SetThread(s, next, r.threads[next]), r);
    forall t | 0 <= t < |r.threads| ensures ThreadOk(r, t) && RunningOk(r, t) {
      assert ThreadOk(s, t) && RunningOk(s, t);
    }
    forall d | 0 <= d < |r.cores| ensures CoreOk(r, d) { assert CoreOk(s, d); }
  }

  lemma PreKeepsInv(s: State, c: Cpu)
    requires Inv(s) && c < |s.cores| && s.cores[c].Chosen? && s.cores[c].target < |s.threads|
    ensures SwitchPre(s, c).Done? && Inv(SwitchPre(s, c).value)
  {
    var next, cur := s.cores[c].target, s.cores[c].current;
    var th := s.threads[next];
    assert CoreOk(s, c);
    if !th.running && (Runnable(s, th) || next == c) && th.affinity == Some(c) {
      SeatKeepsInv(s, c);
    } else {
      CoreChange(s, c, Stable(cur));
    }
  }

  /** The thread switched from stops running: nothing else about it has changed yet. */
  lemma StopRunning(s: State, c: Cpu)
    requires Inv(s) && c < |s.cores| && s.cores[c].Leaving? && s.cores[c].prev < |s.threads|
    ensures var prev := s.cores[c].prev;
            InvBut(SetThread(s, prev, s.threads[prev].(running := false, activeAffinity := None))
                     .(cores := s.cores[c := Stable(s.cores[c].current)]), prev)
  {
    var prev := s.cores[c].prev;
    var th := s.threads[prev].(running := false, activeAffinity := None);
    var s1 := SetThread(s, prev, th);
    var r := s1.(cores := s.cores[c := Stable(s.cores[c].current)]);
    assert CoreOk(s, c) && ThreadOk(s, prev);
    KeysFrame(s, prev, th);
    PlacesDependOnThreads(s1, r);
    forall t | 0 <= t < |r.threads| && t != prev ensures ThreadOk(r, t) { assert ThreadOk(s, t); }
    forall t | 0 <= t < |r.threads| ensures RunningOk(r, t) { assert RunningOk(s, t) && ThreadOk(s, t); }
    forall d | 0 <= d < |r.cores| ensures CoreOk(r, d) { assert CoreOk(s, d) && ThreadOk(s, d); }
  }

  /** The thread switched from, once it is off its CPU. */
  function Stopped(s: State, c: Cpu): (r: State)
    requires c < |s.cores| && s.cores[c].Leaving? && s.cores[c].prev < |s.threads|
  {
    var prev := s.cores[c].prev;
    SetThread(s, prev, s.threads[prev].(running := false, activeAffinity := None))
      .(cores := s.cores[c := Stable(s.cores[c].current)])
  }

  /** Requeued if it was marked while it ran, it has no mark left. */
  lemma UnmarkedInvBut(s: State, c: Cpu)
    requires Inv(s) && c < |s.cores| && s.cores[c].Leaving? && s.cores[c].prev < |s.threads|
    ensures var s1, prev := Stopped(s, c), s.cores[c].prev;
            var requeue := s1.threads[prev].needRequeue && Runnable(s1, s1.threads[prev]);
            (requeue ==> AddThread(s1, prev).Done?) &&
            var s2 := if requeue then AddThread(s1, prev).value else s1;
            var s3 := SetThread(s2, prev, s2.threads[prev].(needRequeue := false));
            InvBut(s3, prev) &&
            s3.threads[prev] == s1.threads[prev].(needRequeue := false, queued := s3.threads[prev].queued,
                                                  activeTimeslice := s3.threads[prev].activeTimeslice) &&
            s3.threads[prev].queued == (s1.threads[prev].queued || (requeue && s1.threads[prev].affinity.Some?))
  {
    var s1, prev := Stopped(s, c), s.cores[c].prev;
    assert CoreOk(s, c) && ThreadOk(s, prev);
    StopRunning(s, c);
    var requeue := s1.threads[prev].needRequeue && Runnable(s1, s1.threads[prev]);
    if requeue { AddInvBut(s1, prev); }
    var s2 := if requeue then AddThread(s1, prev).value else s1;
    SetInvBut(s2, prev, s2.threads[prev].(needRequeue := false));
  }

  lemma PostKeepsInv(s: State, c: Cpu, needSync: bool)
    requires Inv(s) && c < |s.cores| && s.cores[c].Leaving? && s.cores[c].prev < |s.threads|
    ensures SwitchPost(s, c, needSync).Done? && Inv(SwitchPost(s, c, needSync).value)
  {
    var s1, prev := Stopped(s, c), s.cores[c].prev;
    UnmarkedInvBut(s, c);
    var s2 := if s1.threads[prev].needRequeue && Runnable(s1, s1.threads[prev]) then AddThread(s1, prev).value else s1;
    var s3 := SetThread(s2, prev, s2.threads[prev].(needRequeue := false));
    assert CoreOk(s, c) && ThreadOk(s, prev);
    if BLOCK_AFFINITY_CHANGED in s3.threads[prev].blocks {
      assert BLOCK_AFFINITY_CHANGED in s3.threads[prev].blocks * s3.nonKillable;
      StartEventsKeepsInv(s3, prev, needSync);
    } else {
      Whole(s3, prev);
    }
  }

  // --------------------------------------------------------------------- runs

  const MAX_TIMESLICE := 100000000
  const MIN_TIMESLICE := 100000

  datatype Step =
    | Create(priority: nat, timeslice: nat, affinity: Option<Cpu>, blocks: set<Block>)
    | Block(thread: Tid, block: Block)
    | Unblock(thread: Tid, block: Block)
    | Sync(thread: Tid)
    | ChangeAffinity(thread: Tid, target: Option<Cpu>, allowed: bool, needSync: bool)
    | ChangePriority(thread: Tid, priority: nat)
    | ChangeTimeslice(thread: Tid, nanoseconds: nat, ticks: nat)
    | Pin(thread: Tid)
    | Unpin(thread: Tid)
    | Kill(thread: Tid)
    | Exit(cpu: Cpu)
    | Yield(cpu: Cpu)
    | Select(cpu: Cpu, now: nat)
    | Abandon(cpu: Cpu)
    | Pre(cpu: Cpu)
    | Post(cpu: Cpu, needSync: bool)

  /** What callers owe: they use only their own block reasons, keep away from the
      idle threads, never revive an exited thread, and a thread sets its lifecycle
      block before it exits. */
  predicate Enabled(s: State, step: Step) {
    match step
    case Create(priority, _, affinity, blocks) =>
      priority <= MAX_PRIORITY && (affinity.Some? ==> affinity.value < |s.scheds|) &&
      BLOCK_THREAD_LIFECYCLE in blocks && BLOCK_AFFINITY_CHANGED !in blocks
    case Block(t, b) => t < |s.threads| && b != BLOCK_AFFINITY_CHANGED
    case Unblock(t, b) =>
      t < |s.threads| && b != BLOCK_AFFINITY_CHANGED && (IsIdle(s, t) ==> b != BLOCK_IDLE) &&
      (s.threads[t].exited ==> b != BLOCK_THREAD_LIFECYCLE)
    case Sync(t) => t < |s.threads| && s.threads[t].syncPending
    case ChangeAffinity(t, target, _, _) =>
      t < |s.threads| && !IsIdle(s, t) && (target.Some? ==> target.value < |s.scheds|)
    case ChangePriority(t, _) => t < |s.threads|
    case ChangeTimeslice(t, _, _) => t < |s.threads|
    case Pin(t) => t < |s.threads|
    case Unpin(t) => t < |s.threads| && s.threads[t].pinCount > 0
    case Kill(t) => t < |s.threads| && !IsIdle(s, t)
    case Exit(c) =>
      c < |s.cores| && s.cores[c].Stable? && !IsIdle(s, s.cores[c].current) && s.cores[c].current < |s.threads| &&
      BLOCK_THREAD_LIFECYCLE in s.threads[s.cores[c].current].blocks
    case Yield(c) => c < |s.cores| && s.cores[c].Stable? && s.cores[c].current < |s.threads|
    case Select(c, _) => c < |s.cores| && c < |s.scheds| && s.cores[c].Stable?
    case Abandon(c) => c < |s.cores| && s.cores[c].Chosen?
    case Pre(c) => c < |s.cores| && s.cores[c].Chosen? && s.cores[c].target < |s.threads|
    case Post(c, _) => c < |s.cores| && s.cores[c].Leaving? && s.cores[c].prev < |s.threads|
  }

  function NewThread(priority: nat, timeslice: nat, affinity: Option<Cpu>, blocks: set<Block>): (th: Thread) {
    Thread(priority, timeslice, 0, blocks, affinity, None, 0, false, false, false, false, false, false)
  }

  function Apply(s: State, step: Step): (r: Result<State>)
    requires Enabled(s, step)
  {
    match step
    case Create(priority, timeslice, affinity, blocks) =>
      Done(s.(threads := s.threads + [NewThread(priority, timeslice, affinity, blocks)]))
    case Block(t, b) => BlockThread(s, t, b)
    case Unblock(t, b) => UnblockThread(s, t, b)
    case Sync(t) => AffinitySync(s, t)
    case ChangeAffinity(t, target, allowed, needSync) => SetAffinity(s, t, target, allowed, needSync)
    case ChangePriority(t, priority) =>
      if MAX_PRIORITY < priority || s.threads[t].priority == priority then Done(s)
      else UpdateParams(s, t, priority, s.threads[t].baseTimeslice)
    case ChangeTimeslice(t, nanoseconds, ticks) =>
      if nanoseconds > MAX_TIMESLICE || nanoseconds < MIN_TIMESLICE || s.threads[t].baseTimeslice == ticks then Done(s)
      else UpdateParams(s, t, s.threads[t].priority, ticks)
    case Pin(t) => Done(SetThread(s, t, s.threads[t].(pinCount := s.threads[t].pinCount + 1)))
    case Unpin(t) => Done(SetThread(s, t, s.threads[t].(pinCount := s.threads[t].pinCount - 1)))
    case Kill(t) => KillThread(s, t)
    case Exit(c) => ExitThread(s, s.cores[c].current)
    case Yield(c) =>
      Done(SetThread(s, s.cores[c].current, s.threads[s.cores[c].current].(activeTimeslice := 0)))
    case Select(c, now) =>
      var next :- NextTarget(s, c, now);
      var cur := s.cores[c].current;
      Done(next.0.(cores := s.cores[c := if next.1 == cur then Stable(cur) else Chosen(cur, next.1)]))
    case Abandon(c) => Done(s.(cores := s.cores[c := Stable(s.cores[c].current)]))
    case Pre(c) => SwitchPre(s, c)
    case Post(c, needSync) => SwitchPost(s, c, needSync)
  }

  lemma CreateKeepsInv(s: State, th: Thread)
    requires Inv(s) && th.priority <= MAX_PRIORITY && (th.affinity.Some? ==> th.affinity.value < |s.scheds|)
    requires th == NewThread(th.priority, th.baseTimeslice, th.affinity, th.blocks)
    requires BLOCK_THREAD_LIFECYCLE in th.blocks && BLOCK_AFFINITY_CHANGED !in th.blocks
    ensures Inv(s.(threads := s.threads + [th]))
  {
    var r := s.(threads := s.threads + [th]);
    assert !Runnable(r, th);
    forall c | 0 <= c < |r.scheds| ensures Placed(r.threads, r.scheds[c], c) {
      var sc := s.scheds[c];
      assert Placed(s.threads, sc, c);
      forall i, u | 0 <= i < NUM_PRIORITIES && u in sc.runqueue[i] ensures Entry(r.threads, sc.active, c, i, u) {
        assert Entry(s.threads, sc.active, c, i, u);
      }
    }
    forall t | 0 <= t < |r.threads| ensures Located(r.threads, r.scheds, t) && ThreadOk(r, t) && RunningOk(r, t) {
      if t < |s.threads| { assert Located(s.threads, s.scheds, t) && ThreadOk(s, t) && RunningOk(s, t); }
    }
    forall c | 0 <= c < |r.cores| ensures CoreOk(r, c) { assert CoreOk(s, c); }
  }

  lemma PinKeepsInv(s: State, t: Tid, n: nat)
    requires Inv(s) && t < |s.threads|
    ensures Inv(SetThread(s, t, s.threads[t].(pinCount := n)))
  {
    assert ThreadOk(s, t);
    SetInvBut(s, t, s.threads[t].(pinCount := n));
    Whole(SetThread(s, t, s.threads[t].(pinCount := n)), t);
  }

  lemma SelectKeepsInv(s: State, c: Cpu, now: nat)
    requires Inv(s) && Enabled(s, Select(c, now))
    ensures Apply(s, Select(c, now)).Done? && Inv(Apply(s, Select(c, now)).value)
  {
    NextTargetKeepsInv(s, c, now);
    var next := NextTarget(s, c, now).value;
    var cur := s.cores[c].current;
    CoreChange(next.0, c, if next.1 == cur then Stable(cur) else Chosen(cur, next.1));
  }

  /** Operations that block or unblock a thread. */
  lemma BlockStepKeepsInv(s: State, step: Step)
    requires Inv(s) && Enabled(s, step) && (step.Block? || step.Unblock? || step.Sync? || step.ChangeAffinity?)
    ensures Apply(s, step).Done? && Inv(Apply(s, step).value)
  {
    match step
    case Block(t, b) => BlockKeepsInv(s, t, b);
    case Unblock(t, b) => UnblockKeepsInv(s, t, b);
    case Sync(t) => SyncKeepsInv(s, t);
    case ChangeAffinity(t, target, allowed, needSync) => SetAffinityKeepsInv(s, t, target, allowed, needSync);
  }

  /** Other operations on a thread. */
  lemma ThreadStepKeepsInv(s: State, step: Step)
    requires Inv(s) && Enabled(s, step) && (step.Create? || step.Pin? || step.Unpin? || step.Kill?)
    ensures Apply(s, step).Done? && Inv(Apply(s, step).value)
  {
    match step
    case Create(priority, timeslice, affinity, blocks) =>
      CreateKeepsInv(s, NewThread(priority, timeslice, affinity, blocks));
    case Pin(t) => PinKeepsInv(s, t, s.threads[t].pinCount + 1);
    case Unpin(t) => PinKeepsInv(s, t, s.threads[t].pinCount - 1);
    case Kill(t) => KillKeepsInv(s, t);
  }

  /** Every operation keeps the invariant, and none of the code's assertions fails in it. */
  lemma StepKeepsInv(s: State, step: Step)
    requires Inv(s) && Enabled(s, step)
    ensures Apply(s, step).Done? && Inv(Apply(s, step).value)
  {
    match step
    case ChangePriority(_, _) => ParamStepKeepsInv(s, step);
    case ChangeTimeslice(_, _, _) => ParamStepKeepsInv(s, step);
    case Exit(c) =>
      assert CoreOk(s, c);
      ExitKeepsInv(s, s.cores[c].current);
    case Yield(c) => ChargeKeepsInv(s, s.cores[c].current, 0);
    case Select(c, now) => SelectKeepsInv(s, c, now);
    case Abandon(c) => CoreChange(s, c, Stable(s.cores[c].current));
    case Pre(c) => PreKeepsInv(s, c);
    case Post(c, needSync) => PostKeepsInv(s, c, needSync);
    case Create(_, _, _, _) => ThreadStepKeepsInv(s, step);
    case Pin(_) => ThreadStepKeepsInv(s, step);
    case Unpin(_) => ThreadStepKeepsInv(s, step);
    case Kill(_) => ThreadStepKeepsInv(s, step);
    case _ => BlockStepKeepsInv(s, step);
  }

  /** Changes of priority and timeslice, which a value out of range leaves undone. */
  lemma ParamStepKeepsInv(s: State, step: Step)
    requires Inv(s) && Enabled(s, step) && (step.ChangePriority? || step.ChangeTimeslice?)
    ensures Apply(s, step).Done? && Inv(Apply(s, step).value)
  {
    var t := step.thread;
    assert ThreadOk(s, t);
    if step.ChangeTimeslice? {
      UpdateParamsKeepsInv(s, t, s.threads[t].priority, step.ticks);
    } else if step.priority <= MAX_PRIORITY {
      UpdateParamsKeepsInv(s, t, step.priority, s.threads[t].baseTimeslice);
    }
  }

  /** Cold boot: the idle threads exist, each current on its CPU, and nothing is queued. */
  predicate Init(s: State) {
    |s.threads| == |s.scheds| == |s.cores| && BLOCK_AFFINITY_CHANGED in s.nonKillable &&
    (forall c | 0 <= c < |s.scheds| ::
       s.scheds[c] == Sched(seq(NUM_PRIORITIES, _ => []), {}, None, 0) && s.cores[c] == Stable(c) &&
       s.threads[c] == NewThread(0, s.threads[c].baseTimeslice, Some(c), {BLOCK_IDLE}))
  }

  ghost predicate Follows(states: seq<State>, steps: seq<Step>, i: nat)
    requires i < |steps| < |states|
  {
    Enabled(states[i], steps[i]) && Apply(states[i], steps[i]) == Done(states[i + 1])
  }

  ghost predicate IsRun(states: seq<State>, steps: seq<Step>) {
    |states| == |steps| + 1 && Init(states[0]) && forall i | 0 <= i < |steps| :: Follows(states, steps, i)
  }

  lemma {:induction false} InvHolds(states: seq<State>, steps: seq<Step>, i: nat)
    requires IsRun(states, steps) && i < |states|
    ensures Inv(states[i])
  {
    if i > 0 {
      InvHolds(states, steps, i - 1);
      assert Follows(states, steps, i - 1);
      StepKeepsInv(states[i - 1], steps[i - 1]);
    }
  }

  /** In no run does any operation, taken at any point, fail one of its assertions. */
  lemma AssertionsNeverFail(states: seq<State>, steps: seq<Step>, i: nat, step: Step)
    requires IsRun(states, steps) && i < |states| && Enabled(states[i], step)
    ensures Apply(states[i], step).Done?
  {
    InvHolds(states, steps, i);
    StepKeepsInv(states[i], step);
  }

  // ------------------------------------------------------ what the runs promise

  datatype Place = ActiveOn(cpu: Cpu) | Waiting(cpu: Cpu, level: nat, index: nat)

  /** Thread `t` is found at place `p`. */
  ghost predicate IsAt(s: State, t: Tid, p: Place) {
    p.cpu < |s.scheds| &&
    match p
    case ActiveOn(c) => s.scheds[c].active == Some(t)
    case Waiting(c, i, k) =>
      i < |s.scheds[c].runqueue| && k < |s.scheds[c].runqueue[i]| && s.scheds[c].runqueue[i][k] == t
  }

  lemma PlaceBelongs(s: State, t: Tid, p: Place)
    requires PlacesOk(s) && IsAt(s, t, p)
    ensures t < |s.threads| && s.threads[t].queued && s.threads[t].affinity == Some(p.cpu)
    ensures p.Waiting? ==> p.level + s.threads[t].priority == MAX_PRIORITY && s.scheds[p.cpu].active != Some(t)
  {
    var sc := s.scheds[p.cpu];
    assert Placed(s.threads, sc, p.cpu);
    if p.Waiting? {
      assert t in sc.runqueue[p.level] && Entry(s.threads, sc.active, p.cpu, p.level, t);
    }
  }

  /** A queued thread is in exactly one place, on the CPU of its affinity and at the
      level of its priority; a thread that is not queued is in none. */
  lemma ExactlyOnePlace(states: seq<State>, steps: seq<Step>, i: nat, t: Tid)
    requires IsRun(states, steps) && i < |states| && t < |states[i].threads|
    ensures states[i].threads[t].queued <==> exists p :: IsAt(states[i], t, p)
    ensures forall p, q | IsAt(states[i], t, p) && IsAt(states[i], t, q) :: p == q
    ensures forall p | IsAt(states[i], t, p) ::
              states[i].threads[t].affinity == Some(p.cpu) &&
              (p.Waiting? ==> p.level == MAX_PRIORITY - states[i].threads[t].priority)
  {
    var s := states[i];
    InvHolds(states, steps, i);
    assert Located(s.threads, s.scheds, t);
    if s.threads[t].queued {
      var c := s.threads[t].affinity.value;
      if s.scheds[c].active == Some(t) {
        assert IsAt(s, t, ActiveOn(c));
      } else {
        var l := MAX_PRIORITY - s.threads[t].priority;
        var k :| 0 <= k < |s.scheds[c].runqueue[l]| && s.scheds[c].runqueue[l][k] == t;
        assert IsAt(s, t, Waiting(c, l, k));
      }
    }
    forall p | IsAt(s, t, p) ensures s.threads[t].queued && s.threads[t].affinity == Some(p.cpu) &&
        (p.Waiting? ==> p.level == MAX_PRIORITY - s.threads[t].priority && s.scheds[p.cpu].active != Some(t))
    {
      PlaceBelongs(s, t, p);
    }
    forall p, q | IsAt(s, t, p) && IsAt(s, t, q) ensures p == q {
      assert Placed(s.threads, s.scheds[p.cpu], p.cpu);
    }
  }

  /** The flags, block bits, bitmap and queues agree in every reachable state. */
  lemma FlagsAgree(states: seq<State>, steps: seq<Step>, i: nat)
    requires IsRun(states, steps) && i < |states|
    ensures forall t | 0 <= t < |states[i].threads| ::
              var th := states[i].threads[t];
              (th.queued <==> Runnable(states[i], th) && th.affinity.Some? && !th.needRequeue) &&
              (th.needRequeue ==> th.running && !th.queued) && (th.exited ==> !th.queued && !Runnable(states[i], th))
    ensures forall c, l | 0 <= c < |states[i].scheds| && 0 <= l < NUM_PRIORITIES ::
              |states[i].scheds[c].runqueue| == NUM_PRIORITIES &&
              (l in states[i].scheds[c].bitmap <==> states[i].scheds[c].runqueue[l] != [])
  {
    var s := states[i];
    InvHolds(states, steps, i);
    forall t | 0 <= t < |s.threads|
      ensures var th := s.threads[t];
              (th.queued <==> Runnable(s, th) && th.affinity.Some? && !th.needRequeue) &&
              (th.needRequeue ==> th.running && !th.queued) && (th.exited ==> !th.queued && !Runnable(s, th))
    {
      assert ThreadOk(s, t);
    }
    forall c, l | 0 <= c < |s.scheds| && 0 <= l < NUM_PRIORITIES
      ensures |s.scheds[c].runqueue| == NUM_PRIORITIES && (l in s.scheds[c].bitmap <==> s.scheds[c].runqueue[l] != [])
    {
      assert Placed(s.threads, s.scheds[c], c);
    }
  }

  /** No thread is ever on two CPUs, not even while one of them is switching. */
  lemma OneCpuPerThread(states: seq<State>, steps: seq<Step>, i: nat, t: Tid, c: Cpu, d: Cpu)
    requires IsRun(states, steps) && i < |states| && c < |states[i].cores| && d < |states[i].cores|
    requires On(states[i].cores[c], t) && On(states[i].cores[d], t)
    ensures c == d
  {
    var s := states[i];
    InvHolds(states, steps, i);
    assert CoreOk(s, c) && CoreOk(s, d) && ThreadOk(s, t);
  }

  /** Thread `t` itself exits. */
  predicate Exits(s: State, step: Step, t: Tid) {
    step.Exit? && step.cpu < |s.cores| && s.cores[step.cpu].current == t
  }

  /** The step starts or finishes a change of the thread's affinity. */
  predicate ChangesAffinity(s: State, step: Step, t: Tid) {
    t < |s.threads| &&
    (step == Sync(t) ||
     (step.ChangeAffinity? && step.thread == t && BLOCK_AFFINITY_CHANGED !in s.threads[t].blocks))
  }

  /** The marks of a thread stay, but for its own exit, and so does its affinity, but for its change. */
  ghost predicate Kept(s: State, step: Step, r: State, t: Tid)
    requires t < |s.threads|
  {
    t < |r.threads| &&
    var x, y := s.threads[t], r.threads[t];
    (x.exited ==> y.exited) && (x.killed && !Exits(s, step, t) ==> y.killed) &&
    (!ChangesAffinity(s, step, t) ==> y.affinity == x.affinity && (x.syncPending ==> y.syncPending))
  }

  lemma BlockStepKeeps(s: State, step: Step, r: State, t: Tid)
    requires Inv(s) && Enabled(s, step) && Apply(s, step) == Done(r) && t < |s.threads|
    requires step.Block? || step.Unblock? || step.Sync? || step.ChangeAffinity?
    ensures Kept(s, step, r, t)
  {
    assert Located(s.threads, s.scheds, step.thread);
    match step
    case Block(u, b) => BlockEffect(s, u, b);
    case Unblock(u, b) => UnblockEffect(s, u, b);
    case Sync(u) => SyncEffect(s, u);
    case ChangeAffinity(u, target, allowed, needSync) => AffinityEffect(s, u, target, allowed, needSync);
  }

  lemma ParamStepKeeps(s: State, step: Step, r: State, t: Tid)
    requires Inv(s) && Enabled(s, step) && Apply(s, step) == Done(r) && t < |s.threads|
    requires step.ChangePriority? || step.ChangeTimeslice?
    ensures Kept(s, step, r, t)
  {
    assert Located(s.threads, s.scheds, step.thread);
    if r != s {
      ParamsEffect(s, step.thread, if step.ChangePriority? then step.priority else s.threads[step.thread].priority,
                   if step.ChangePriority? then s.threads[step.thread].baseTimeslice else step.ticks);
    }
  }

  lemma EndStepKeeps(s: State, step: Step, r: State, t: Tid)
    requires Inv(s) && Enabled(s, step) && Apply(s, step) == Done(r) && t < |s.threads|
    requires step.Kill? || step.Exit?
    ensures Kept(s, step, r, t)
  {
    match step
    case Kill(u) => KillEffect(s, u);
    case Exit(c) =>
      assert Located(s.threads, s.scheds, s.cores[c].current);
      ExitEffect(s, s.cores[c].current);
  }

  lemma CoreStepKeeps(s: State, step: Step, r: State, t: Tid)
    requires Inv(s) && Enabled(s, step) && Apply(s, step) == Done(r) && t < |s.threads|
    requires step.Select? || step.Pre? || step.Post? || step.Yield? || step.Abandon?
    ensures Kept(s, step, r, t)
  {
    match step
    case Select(c, now) => SelectKeeps(s, c, now, t);
    case Pre(c) => PreEffect(s, c);
    case Post(c, needSync) => PostEffect(s, c, needSync);
    case _ =>
  }

  lemma SelectKeeps(s: State, c: Cpu, now: nat, t: Tid)
    requires c < |s.scheds| && t < |s.threads| && NextTarget(s, c, now).Done?
    ensures var r := NextTarget(s, c, now).value.0;
            t < |r.threads| && r.threads[t] == s.threads[t].(activeTimeslice := r.threads[t].activeTimeslice)
  {
    if s.scheds[c].active.Some? {
      var prev := s.scheds[c].active.value;
      assert NextTarget(s, c, now).value.0.threads == s.threads[prev := Charge(s.scheds[c], s.threads[prev], now)];
    }
  }

  lemma StepKeeps(s: State, step: Step, r: State, t: Tid)
    requires Inv(s) && Enabled(s, step) && Apply(s, step) == Done(r) && t < |s.threads|
    ensures Kept(s, step, r, t)
  {
    match step
    case Block(_, _) => BlockStepKeeps(s, step, r, t);
    case Unblock(_, _) => BlockStepKeeps(s, step, r, t);
    case Sync(_) => BlockStepKeeps(s, step, r, t);
    case ChangeAffinity(_, _, _, _) => BlockStepKeeps(s, step, r, t);
    case ChangePriority(_, _) => ParamStepKeeps(s, step, r, t);
    case ChangeTimeslice(_, _, _) => ParamStepKeeps(s, step, r, t);
    case Kill(_) => EndStepKeeps(s, step, r, t);
    case Exit(_) => EndStepKeeps(s, step, r, t);
    case Create(_, _, _, _) =>
    case Pin(_) =>
    case Unpin(_) =>
    case _ => CoreStepKeeps(s, step, r, t);
  }

  lemma RunKeeps(states: seq<State>, steps: seq<Step>, k: nat, t: Tid)
    requires IsRun(states, steps) && k < |steps| && t < |states[k].threads|
    ensures Kept(states[k], steps[k], states[k + 1], t)
  {
    InvHolds(states, steps, k);
    assert Follows(states, steps, k);
    StepKeeps(states[k], steps[k], states[k + 1], t);
  }

  /** A pending affinity change is undisturbed until it is finished: the thread keeps
      the affinity that was announced, and stays blocked and off every CPU and queue.
      The two sections of `scheduler_fprr_handle_affinity_change_update`, which reads
      in the first what it announces before the second, may thus be taken as one. */
  lemma {:induction false} PendingChangeIsFixed(states: seq<State>, steps: seq<Step>, i: nat, j: nat, t: Tid)
    requires IsRun(states, steps) && i <= j < |states| && t < |states[i].threads| && states[i].threads[t].syncPending
    requires forall k | i <= k < j :: steps[k] != Sync(t)
    ensures t < |states[j].threads| && states[j].threads[t].affinity == states[i].threads[t].affinity
    ensures states[j].threads[t].syncPending && BLOCK_AFFINITY_CHANGED in states[j].threads[t].blocks
    ensures !states[j].threads[t].running && !states[j].threads[t].queued
    decreases j
  {
    if i < j {
      PendingChangeIsFixed(states, steps, i, j - 1, t);
      RunKeeps(states, steps, j - 1, t);
    }
    InvHolds(states, steps, j);
    PendingIsOff(states[j], t);
  }

  /** A thread with a pending affinity change is blocked, unqueued and off every CPU. */
  lemma PendingIsOff(s: State, t: Tid)
    requires Inv(s) && t < |s.threads| && s.threads[t].syncPending
    ensures BLOCK_AFFINITY_CHANGED in s.threads[t].blocks && !s.threads[t].running && !s.threads[t].queued
  {
    assert ThreadOk(s, t);
  }

  /** Killing lasts: from the kill until its own exit a thread stays marked, and it is
      queued, or waits for a requeue while it runs, as long as no reason blocks it that
      it cannot be killed through. */
  lemma {:induction false} KilledUntilExit(states: seq<State>, steps: seq<Step>, i: nat, j: nat, t: Tid)
    requires IsRun(states, steps) && i < j < |states| && steps[i] == Kill(t)
    requires t < |states[i].threads| && !states[i].threads[t].exited
    requires forall k | i < k < j :: !Exits(states[k], steps[k], t)
    ensures t < |states[j].threads| && states[j].threads[t].killed
    ensures var th := states[j].threads[t];
            th.queued <==> th.blocks * states[j].nonKillable == {} && th.affinity.Some? && !th.needRequeue
    decreases j
  {
    if i + 1 < j {
      KilledUntilExit(states, steps, i, j - 1, t);
      RunKeeps(states, steps, j - 1, t);
    } else {
      assert Follows(states, steps, i);
      KillEffect(states[i], t);
    }
    InvHolds(states, steps, j);
    assert ThreadOk(states[j], t);
  }

  /** A thread runs on the CPU of its affinity, unless its affinity has been changed
      since it got there; then the change blocks it and is finished when it stops. */
  lemma RunsAtHome(states: seq<State>, steps: seq<Step>, i: nat, t: Tid)
    requires IsRun(states, steps) && i < |states| && t < |states[i].threads| && states[i].threads[t].running
    ensures var th := states[i].threads[t];
            th.activeAffinity.Some? &&
            (th.affinity == th.activeAffinity || (BLOCK_AFFINITY_CHANGED in th.blocks && !th.queued))
  {
    InvHolds(states, steps, i);
    assert ThreadOk(states[i], t);
    var th := states[i].threads[t];
    assert BLOCK_AFFINITY_CHANGED in th.blocks ==> BLOCK_AFFINITY_CHANGED in th.blocks * states[i].nonKillable;
  }

  /** An exited thread is out of the scheduler for good: it is never queued again. */
  lemma {:induction false} ExitedForGood(states: seq<State>, steps: seq<Step>, i: nat, j: nat, t: Tid)
    requires IsRun(states, steps) && i <= j < |states| && t < |states[i].threads| && states[i].threads[t].exited
    ensures t < |states[j].threads| && states[j].threads[t].exited && !states[j].threads[t].queued
    ensures forall c | 0 <= c < |states[j].scheds| :: states[j].scheds[c].active != Some(t)
    decreases j
  {
    if i < j {
      ExitedForGood(states, steps, i, j - 1, t);
      RunKeeps(states, steps, j - 1, t);
    }
    InvHolds(states, steps, j);
    NotQueued(states[j], t);
  }

  lemma NotQueued(s: State, t: Tid)
    requires Inv(s) && t < |s.threads| && s.threads[t].exited
    ensures !s.threads[t].queued && forall c | 0 <= c < |s.scheds| :: s.scheds[c].active != Some(t)
  {
    assert ThreadOk(s, t);
    forall c | 0 <= c < |s.scheds| ensures s.scheds[c].active != Some(t) {
      assert Placed(s.threads, s.scheds[c], c);
    }
  }
}
