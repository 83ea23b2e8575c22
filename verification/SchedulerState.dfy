/** The state of the fixed-priority round-robin scheduler (`scheduler_fprr.c`) and
    its operations. An assertion of the code that fails, or an index out of range,
    is the outcome `Panic`; `SchedulerInvariant` shows that no run gets there. */
module SchedulerState {
  import opened Outcomes
  import opened Lists

  /** An assertion of the code. */
  function Assert(condition: bool): (r: Result<()>) {
    if condition then Done(()) else Panic
  }

  type Cpu = nat
  type Tid = nat
  type Block = nat

  const NUM_PRIORITIES := 64
  const MAX_PRIORITY := 63

  /** Block reasons the scheduler itself gives a meaning to; others are the callers'. */
  const BLOCK_THREAD_LIFECYCLE: Block := 0
  const BLOCK_AFFINITY_CHANGED: Block := 1
  const BLOCK_IDLE: Block := 2

  /** `syncPending` says that the thread's `scheduler_rcu_entry` is enqueued. */
  datatype Thread = Thread(
    priority: nat,
    baseTimeslice: nat,
    activeTimeslice: nat,
    blocks: set<Block>,
    affinity: Option<Cpu>,
    activeAffinity: Option<Cpu>,
    pinCount: nat,
    running: bool,
    queued: bool,
    needRequeue: bool,
    killed: bool,
    exited: bool,
    syncPending: bool)

  /** One CPU's scheduler: a list for each priority level, highest first. */
  datatype Sched = Sched(runqueue: seq<seq<Tid>>, bitmap: set<nat>, active: Option<Tid>, schedtime: nat)

  /** What a CPU executes. `Chosen` lies between target selection and
      `context_switch_pre`, `Leaving` between that and `context_switch_post`. */
  datatype Core = Stable(current: Tid) | Chosen(current: Tid, target: Tid) | Leaving(current: Tid, prev: Tid)

  /** Thread `c` is the idle thread of CPU `c`. */
  datatype State = State(threads: seq<Thread>, scheds: seq<Sched>, cores: seq<Core>, nonKillable: set<Block>)

  predicate IsIdle(s: State, t: Tid) {
    t < |s.scheds|
  }

  /** `can_be_scheduled`. */
  predicate Runnable(s: State, th: Thread) {
    (if th.killed then th.blocks * s.nonKillable else th.blocks) == {}
  }

  function SetThread(s: State, t: Tid, th: Thread): (r: State)
    requires t < |s.threads|
  {
    s.(threads := s.threads[t := th])
  }

  // --------------------------------------------------------------- run queues

  /** `add_to_runqueue`. */
  function AddToRunqueue(sc: Sched, priority: nat, t: Tid, atTail: bool): (r: Result<Sched>) {
    if MAX_PRIORITY < priority || |sc.runqueue| != NUM_PRIORITIES then Panic
    else
      var i := MAX_PRIORITY - priority;
      var q := sc.runqueue[i];
      var _ :- Assert(q == [] || i in sc.bitmap);
      Done(sc.(runqueue := sc.runqueue[i := if atTail then q + [t] else [t] + q],
               bitmap := if q == [] then sc.bitmap + {i} else sc.bitmap))
  }

  /** `remove_from_runqueue`. Deleting the last node of a list clears its bit. */
  function RemoveFromRunqueue(sc: Sched, priority: nat, t: Tid): (r: Result<Sched>) {
    if MAX_PRIORITY < priority || |sc.runqueue| != NUM_PRIORITIES then Panic
    else
      var i := MAX_PRIORITY - priority;
      var q := sc.runqueue[i];
      var wasHead := q != [] && q[0] == t;
      var q' := Without(q, t);
      var _ :- Assert(i in sc.bitmap);
      Done(sc.(runqueue := sc.runqueue[i := q'],
               bitmap := if wasHead && q' == [] then sc.bitmap - {i} else sc.bitmap))
  }

  // -------------------------------------------- operations under a thread's lock

  /** `add_thread_to_scheduler`. */
  function AddThread(s: State, t: Tid): (r: Result<State>)
    requires t < |s.threads|
    ensures r.Done? ==> |r.value.threads| == |s.threads|
  {
    var th := s.threads[t];
    var _ :- Assert(!th.running && !th.queued && !th.exited && Runnable(s, th));
    if th.affinity.None? then Done(s)
    else
      var c := th.affinity.value;
      var _ :- Assert(c < |s.scheds|);
      var sc :- AddToRunqueue(s.scheds[c], th.priority, t, true);
      Done(s.(threads := s.threads[t := th.(activeTimeslice := th.baseTimeslice, queued := true)],
              scheds := s.scheds[c := sc]))
  }

  /** `remove_thread_from_scheduler`. */
  function RemoveThread(s: State, t: Tid): (r: Result<State>)
    requires t < |s.threads|
    ensures r.Done? ==> |r.value.threads| == |s.threads|
  {
    var th := s.threads[t];
    if th.affinity.None? then Done(s)
    else
      var c := th.affinity.value;
      var _ :- Assert(c < |s.scheds| && th.queued);
      var sc :- if s.scheds[c].active == Some(t) then Done(s.scheds[c].(active := None))
                else RemoveFromRunqueue(s.scheds[c], th.priority, t);
      Done(s.(threads := s.threads[t := th.(queued := false)], scheds := s.scheds[c := sc]))
  }

  /** `resched_running_thread`, which only sends an interrupt. */
  function ReschedRunning(s: State, t: Tid): (r: Result<State>)
    requires t < |s.threads|
  {
    var th := s.threads[t];
    var _ :- Assert(th.running && (!th.queued || th.killed) && th.activeAffinity.Some?);
    Done(s)
  }

  /** A thread has become runnable: requeue it once it stops running, or queue it now. */
  function MakeRunnable(s: State, t: Tid): (r: Result<State>)
    requires t < |s.threads|
  {
    if s.threads[t].running
    then ReschedRunning(SetThread(s, t, s.threads[t].(needRequeue := true)), t)
    else AddThread(s, t)
  }

  /** `scheduler_block`. */
  function BlockThread(s: State, t: Tid, b: Block): (r: Result<State>)
    requires t < |s.threads|
    ensures r.Done? ==> |r.value.threads| == |s.threads|
  {
    var th := s.threads[t].(blocks := s.threads[t].blocks + {b});
    var s1 := SetThread(s, t, th);
    if th.queued && !Runnable(s1, th) then RemoveThread(s1, t) else Done(s1)
  }

  /** `scheduler_unblock`. */
  function UnblockThread(s: State, t: Tid, b: Block): (r: Result<State>)
    requires t < |s.threads|
  {
    var th := s.threads[t].(blocks := s.threads[t].blocks - {b});
    var s1 := SetThread(s, t, th);
    if Runnable(s, s.threads[t]) || !Runnable(s1, th) then Done(s1)
    else
      var _ :- Assert(!th.queued);
      MakeRunnable(s1, t)
  }

  /** `start_affinity_changed_events`: finish the change now or after a grace period. */
  function StartAffinityEvents(s: State, t: Tid, needSync: bool): (r: Result<State>)
    requires t < |s.threads|
  {
    var _ :- Assert(BLOCK_AFFINITY_CHANGED in s.threads[t].blocks);
    if needSync then Done(SetThread(s, t, s.threads[t].(syncPending := true)))
    else UnblockThread(s, t, BLOCK_AFFINITY_CHANGED)
  }

  /** `scheduler_fprr_handle_affinity_change_update`. */
  function AffinitySync(s: State, t: Tid): (r: Result<State>)
    requires t < |s.threads|
  {
    var _ :- Assert(BLOCK_AFFINITY_CHANGED in s.threads[t].blocks);
    UnblockThread(SetThread(s, t, s.threads[t].(syncPending := false)), t, BLOCK_AFFINITY_CHANGED)
  }

  /** `scheduler_set_affinity`; `allowed` is the outcome of its prepare event. */
  function SetAffinity(s: State, t: Tid, target: Option<Cpu>, allowed: bool, needSync: bool): (r: Result<State>)
    requires t < |s.threads|
  {
    var th := s.threads[t];
    if th.affinity == target || th.pinCount != 0 || BLOCK_AFFINITY_CHANGED in th.blocks || !allowed then Done(s)
    else
      var s1 :- BlockThread(s, t, BLOCK_AFFINITY_CHANGED);
      var s2 := SetThread(s1, t, s1.threads[t].(affinity := target));
      if s2.threads[t].running then ReschedRunning(s2, t) else StartAffinityEvents(s2, t, needSync)
  }

  /** `update_sched_params`. */
  function UpdateParams(s: State, t: Tid, priority: nat, timeslice: nat): (r: Result<State>)
    requires t < |s.threads|
  {
    var requeue := Runnable(s, s.threads[t]) && !s.threads[t].needRequeue;
    var s1 :- if requeue then RemoveThread(s, t) else Done(s);
    var s2 := SetThread(s1, t, s1.threads[t].(priority := priority, baseTimeslice := timeslice));
    if requeue then MakeRunnable(s2, t) else Done(s2)
  }

  /** `scheduler_fprr_handle_thread_killed`. */
  function KillThread(s: State, t: Tid): (r: Result<State>)
    requires t < |s.threads|
  {
    var th := s.threads[t];
    if th.exited then Done(s)
    else
      var s1 := SetThread(s, t, th.(killed := true));
      if !Runnable(s, th) && Runnable(s1, s1.threads[t]) then
        var _ :- Assert(!th.queued);
        MakeRunnable(s1, t)
      else if th.running then ReschedRunning(s1, t)
      else Done(s1)
  }

  /** `scheduler_fprr_handle_thread_exited`, on the exiting thread itself. */
  function ExitThread(s: State, t: Tid): (r: Result<State>)
    requires t < |s.threads|
  {
    var th := s.threads[t];
    var _ :- Assert(BLOCK_THREAD_LIFECYCLE in th.blocks && th.running);
    var s1 :- if th.killed && th.queued then RemoveThread(s, t) else Done(s);
    var th1 := s1.threads[t].(killed := false);
    var _ :- Assert(!Runnable(s1, th1) && !th1.queued);
    Done(SetThread(s1, t, th1.(exited := true)))
  }

  // --------------------------------------------------------- selecting a target

  /** `bitmap_ffs` on a priority bitmap; `Bitmap` treats the word scan behind it. */
  function FirstSet(bitmap: set<nat>, i: nat): (r: Option<nat>)
    requires i <= NUM_PRIORITIES
    ensures r.Some? ==>
            i <= r.value < NUM_PRIORITIES && r.value in bitmap && forall k | i <= k < r.value :: k !in bitmap
    ensures r.None? ==> forall k | i <= k < NUM_PRIORITIES :: k !in bitmap
    decreases NUM_PRIORITIES - i
  {
    if i == NUM_PRIORITIES then None else if i in bitmap then Some(i) else FirstSet(bitmap, i + 1)
  }

  /** The timeslice of the active thread has run out at time `now`. */
  predicate Expired(sc: Sched, th: Thread, now: nat) {
    sc.schedtime + th.activeTimeslice <= now
  }

  /** `update_timeslice`. */
  function Charge(sc: Sched, th: Thread, now: nat): (r: Thread) {
    if Expired(sc, th, now) then th.(activeTimeslice := th.baseTimeslice)
    else th.(activeTimeslice := sc.schedtime + th.activeTimeslice - now)
  }

  /** `pop_runqueue_head`. */
  function PopHead(s: State, sc: Sched, i: nat): (r: Result<(Sched, Tid)>) {
    var _ :- Assert(i in sc.bitmap && i < |sc.runqueue| && sc.runqueue[i] != []);
    var head := sc.runqueue[i][0];
    var _ :- Assert(head < |s.threads| && s.threads[head].priority + i == MAX_PRIORITY);
    var sc' :- RemoveFromRunqueue(sc, s.threads[head].priority, head);
    Done((sc', head))
  }

  /** Whether the best waiting level `i` displaces the active thread. */
  predicate Displaces(i: nat, active: Thread, expired: bool) {
    if expired then active.priority + i <= MAX_PRIORITY else active.priority + i < MAX_PRIORITY
  }

  /** The head of level `i` becomes active; the thread displaced, if any, goes back to its level. */
  function Promote(s: State, c: Cpu, i: nat, expired: bool, now: nat): (r: Result<(Sched, Tid)>)
    requires c < |s.scheds|
  {
    var sc := s.scheds[c];
    var popped :- PopHead(s, sc, i);
    var sc1 := popped.0.(active := Some(popped.1), schedtime := now);
    match sc.active
    case None => Done((sc1, popped.1))
    case Some(prev) =>
      var _ :- Assert(prev < |s.threads|);
      var sc2 :- AddToRunqueue(sc1, s.threads[prev].priority, prev, expired);
      Done((sc2, popped.1))
  }

  /** `get_next_target` on CPU `c` at time `now`: the new state and the target,
      which is the CPU's idle thread when nothing is runnable. */
  function NextTarget(s: State, c: Cpu, now: nat): (r: Result<(State, Tid)>)
    requires c < |s.scheds|
  {
    var sc := s.scheds[c];
    var first := FirstSet(sc.bitmap, 0);
    var stay := s.scheds[c := sc.(schedtime := now)];
    match sc.active
    case None =>
      if first.None? then Done((s.(scheds := stay), c))
      else
        var next :- Promote(s, c, first.value, false, now);
        Done((s.(scheds := s.scheds[c := next.0]), next.1))
    case Some(prev) =>
      var _ :- Assert(prev < |s.threads|);
      var expired := Expired(sc, s.threads[prev], now);
      var s1 := SetThread(s, prev, Charge(sc, s.threads[prev], now));
      if first.None? || !Displaces(first.value, s.threads[prev], expired) then Done((s1.(scheds := stay), prev))
      else
        var next :- Promote(s1, c, first.value, expired, now);
        Done((s1.(scheds := s1.scheds[c := next.0]), next.1))
  }

  // ------------------------------------------------------------ context switches

  /** `scheduler_fprr_handle_thread_context_switch_pre`, which may deny the switch. */
  function SwitchPre(s: State, c: Cpu): (r: Result<State>)
    requires c < |s.cores| && s.cores[c].Chosen? && s.cores[c].target < |s.threads|
  {
    var next := s.cores[c].target;
    var cur := s.cores[c].current;
    var th := s.threads[next];
    var _ :- Assert(next != cur);
    if !th.running && (Runnable(s, th) || next == c) && th.affinity == Some(c) then
      var _ :- Assert(!th.needRequeue && !th.exited);
      Done(SetThread(s, next, th.(running := true, activeAffinity := Some(c)))
             .(cores := s.cores[c := Leaving(next, cur)]))
    else Done(s.(cores := s.cores[c := Stable(cur)]))
  }

  /** `scheduler_fprr_handle_thread_context_switch_post`, for the thread switched from. */
  function SwitchPost(s: State, c: Cpu, needSync: bool): (r: Result<State>)
    requires c < |s.cores| && s.cores[c].Leaving? && s.cores[c].prev < |s.threads|
  {
    var prev := s.cores[c].prev;
    var th := s.threads[prev].(running := false, activeAffinity := None);
    var s1 := SetThread(s, prev, th).(cores := s.cores[c := Stable(s.cores[c].current)]);
    var s2 :- if th.needRequeue && Runnable(s1, th) then AddThread(s1, prev) else Done(s1);
    var s3 := SetThread(s2, prev, s2.threads[prev].(needRequeue := false));
    if BLOCK_AFFINITY_CHANGED in s3.threads[prev].blocks then StartAffinityEvents(s3, prev, needSync) else Done(s3)
  }
}
