/** What every operation of the scheduler keeps, and what follows for every run. */
module SchedulerInvariant {
  import opened Outcomes
  import opened Lists
  import opened SchedulerState

  // ------------------------------------------------------------------- places

  predicate Belongs(threads: seq<Thread>, c: Cpu, t: Tid) {
    t < |threads| && threads[t].queued && threads[t].affinity == Some(c)
  }

  predicate Entry(threads: seq<Thread>, active: Option<Tid>, c: Cpu, i: nat, t: Tid) {
    Belongs(threads, c, t) && threads[t].priority + i == MAX_PRIORITY && active != Some(t)
  }

  /** The run queues of CPU `c` hold only its own queued threads, each at its
      level and once, and the bitmap marks the non-empty levels. */
  ghost predicate Placed(threads: seq<Thread>, sc: Sched, c: Cpu) {
    |sc.runqueue| == NUM_PRIORITIES &&
    (forall i | i in sc.bitmap :: 0 <= i < NUM_PRIORITIES) &&
    (forall i | 0 <= i < NUM_PRIORITIES :: i in sc.bitmap <==> sc.runqueue[i] != []) &&
    (forall i | 0 <= i < NUM_PRIORITIES :: Distinct(sc.runqueue[i])) &&
    (forall i, t | 0 <= i < NUM_PRIORITIES && t in sc.runqueue[i] :: Entry(threads, sc.active, c, i, t)) &&
    (sc.active.Some? ==> Belongs(threads, c, sc.active.value))
  }

  /** A queued thread is the active thread of its CPU or waits at its level there. */
  ghost predicate Located(threads: seq<Thread>, scheds: seq<Sched>, t: Tid)
    requires t < |threads|
  {
    threads[t].queued ==>
      threads[t].affinity.Some? && threads[t].affinity.value < |scheds| && threads[t].priority <= MAX_PRIORITY &&
      var sc := scheds[threads[t].affinity.value];
      |sc.runqueue| == NUM_PRIORITIES &&
      (sc.active == Some(t) || t in sc.runqueue[MAX_PRIORITY - threads[t].priority])
  }

  ghost predicate PlacesOk(s: State) {
    (forall c | 0 <= c < |s.scheds| :: Placed(s.threads, s.scheds[c], c)) &&
    (forall t | 0 <= t < |s.threads| :: Located(s.threads, s.scheds, t))
  }

  // -------------------------------------------------------------------- flags

  /** The flags of one thread agree with each other and with its block bits. */
  ghost predicate FlagsOk(s: State, th: Thread) {
    th.priority <= MAX_PRIORITY &&
    (th.affinity.Some? ==> th.affinity.value < |s.scheds|) &&
    (th.queued ==> Runnable(s, th) && th.affinity.Some? && !th.needRequeue) &&
    (Runnable(s, th) && th.affinity.Some? && !th.needRequeue ==> th.queued) &&
    (th.needRequeue ==> th.running) &&
    (th.exited ==> BLOCK_THREAD_LIFECYCLE in th.blocks && !th.killed) &&
    (th.running <==> th.activeAffinity.Some?) &&
    (th.running && BLOCK_AFFINITY_CHANGED !in th.blocks ==> th.affinity == th.activeAffinity) &&
    (th.syncPending ==> BLOCK_AFFINITY_CHANGED in th.blocks && !th.running) &&
    (BLOCK_AFFINITY_CHANGED in th.blocks ==> th.running || th.syncPending)
  }

  /** An idle thread stays blocked on its own CPU for good. */
  ghost predicate IdleOk(th: Thread, c: Cpu) {
    BLOCK_IDLE in th.blocks && BLOCK_AFFINITY_CHANGED !in th.blocks && !th.killed && !th.exited &&
    th.affinity == Some(c) && (th.running ==> th.activeAffinity == Some(c))
  }

  ghost predicate ThreadOk(s: State, t: Tid)
    requires t < |s.threads|
  {
    FlagsOk(s, s.threads[t]) && (IsIdle(s, t) ==> IdleOk(s.threads[t], t))
  }

  // -------------------------------------------------------------------- cores

  predicate On(core: Core, t: Tid) {
    core.current == t || (core.Leaving? && core.prev == t)
  }

  /** A thread on a CPU is marked as running there; only a CPU's idle thread may
      still be unmarked, since it is never switched to at boot. */
  predicate Seated(s: State, c: Cpu, t: Tid) {
    t < |s.threads| && (t == c || (s.threads[t].running && s.threads[t].activeAffinity == Some(c)))
  }

  ghost predicate CoreOk(s: State, c: Cpu)
    requires c < |s.cores|
  {
    Seated(s, c, s.cores[c].current) &&
    (s.cores[c].Chosen? ==> s.cores[c].target < |s.threads| && s.cores[c].target != s.cores[c].current) &&
    (s.cores[c].Leaving? ==> Seated(s, c, s.cores[c].prev) && s.cores[c].prev != s.cores[c].current)
  }

  /** A thread marked as running is on the CPU it is marked for. */
  ghost predicate RunningOk(s: State, t: Tid)
    requires t < |s.threads|
  {
    s.threads[t].activeAffinity.Some? ==>
      s.threads[t].activeAffinity.value < |s.cores| && On(s.cores[s.threads[t].activeAffinity.value], t)
  }

  ghost predicate CoresOk(s: State) {
    (forall c | 0 <= c < |s.cores| :: CoreOk(s, c)) &&
    (forall t | 0 <= t < |s.threads| :: RunningOk(s, t))
  }

  ghost predicate Inv(s: State) {
    |s.cores| == |s.scheds| <= |s.threads| && BLOCK_AFFINITY_CHANGED in s.nonKillable &&
    PlacesOk(s) && (forall t | 0 <= t < |s.threads| :: ThreadOk(s, t)) && CoresOk(s)
  }

  // --------------------------------------------------------- run queue lemmas

  /** Changing anything but the place of a queued thread keeps the places. */
  lemma KeysFrame(s: State, t: Tid, th: Thread)
    requires PlacesOk(s) && t < |s.threads| && th.queued == s.threads[t].queued
    requires th.queued ==> th.affinity == s.threads[t].affinity && th.priority == s.threads[t].priority
    ensures PlacesOk(SetThread(s, t, th))
  {
    var r := SetThread(s, t, th);
    forall c | 0 <= c < |r.scheds| ensures Placed(r.threads, r.scheds[c], c) {
      var sc := s.scheds[c];
      assert Placed(s.threads, sc, c);
      forall i, u | 0 <= i < NUM_PRIORITIES && u in sc.runqueue[i] ensures Entry(r.threads, sc.active, c, i, u) {
        assert Entry(s.threads, sc.active, c, i, u);
      }
    }
    forall u | 0 <= u < |r.threads| ensures Located(r.threads, r.scheds, u) {
      assert Located(s.threads, s.scheds, u);
    }
  }

  /** The run queues of each CPU when a thread is added. */
  lemma AddPlaced(s: State, t: Tid, c: Cpu)
    requires PlacesOk(s) && t < |s.threads| && s.threads[t].priority <= MAX_PRIORITY && c < |s.scheds|
    requires s.threads[t].affinity.Some? && s.threads[t].affinity.value < |s.scheds|
    requires !s.threads[t].running && !s.threads[t].queued && !s.threads[t].exited && Runnable(s, s.threads[t])
    requires AddThread(s, t).Done?
    ensures var r := AddThread(s, t).value; |r.scheds| == |s.scheds| && Placed(r.threads, r.scheds[c], c)
  {
    var r := AddThread(s, t).value;
    var sc, sc' := s.scheds[c], r.scheds[c];
    assert Placed(s.threads, sc, c);
    assert t !in sc.runqueue[MAX_PRIORITY - s.threads[t].priority];
    forall i, u | 0 <= i < NUM_PRIORITIES && u in sc'.runqueue[i] ensures Entry(r.threads, sc'.active, c, i, u) {
      if u in sc.runqueue[i] { assert Entry(s.threads, sc.active, c, i, u); }
    }
  }

  lemma AddPlaces(s: State, t: Tid)
    requires PlacesOk(s) && t < |s.threads| && s.threads[t].priority <= MAX_PRIORITY
    requires s.threads[t].affinity.Some? ==> s.threads[t].affinity.value < |s.scheds|
    requires !s.threads[t].running && !s.threads[t].queued && !s.threads[t].exited && Runnable(s, s.threads[t])
    ensures AddThread(s, t).Done? && PlacesOk(AddThread(s, t).value)
  {
    if s.threads[t].affinity.Some? {
      var a := s.threads[t].affinity.value;
      assert Placed(s.threads, s.scheds[a], a);
      var r := AddThread(s, t).value;
      forall c | 0 <= c < |r.scheds| ensures Placed(r.threads, r.scheds[c], c) {
        AddPlaced(s, t, c);
      }
      forall u | 0 <= u < |r.threads| ensures Located(r.threads, r.scheds, u) {
        assert Located(s.threads, s.scheds, u);
      }
    }
  }

  /** The run queues of the CPU a thread is removed from. */
  lemma RemovePlaced(s: State, t: Tid, c: Cpu)
    requires t < |s.threads| && c < |s.scheds| && Placed(s.threads, s.scheds[c], c) && Belongs(s.threads, c, t)
    requires Located(s.threads, s.scheds, t)
    ensures RemoveThread(s, t).Done?
    ensures Placed(RemoveThread(s, t).value.threads, RemoveThread(s, t).value.scheds[c], c)
  {
    var sc := s.scheds[c];
    var l := MAX_PRIORITY - s.threads[t].priority;
    var r := RemoveThread(s, t).value;
    WithoutMembers(sc.runqueue[l], t);
    WithoutDistinct(sc.runqueue[l], t);
    forall i, u | 0 <= i < NUM_PRIORITIES && u in r.scheds[c].runqueue[i]
      ensures Entry(r.threads, r.scheds[c].active, c, i, u)
    {
      assert Entry(s.threads, sc.active, c, i, u);
    }
  }

  /** The run queues of the other CPUs. */
  lemma RemovePlacedElsewhere(s: State, t: Tid, c: Cpu)
    requires PlacesOk(s) && t < |s.threads| && c < |s.scheds| && RemoveThread(s, t).Done?
    requires s.threads[t].affinity.Some? && s.threads[t].affinity.value != c && s.threads[t].queued
    ensures var r := RemoveThread(s, t).value; |r.scheds| == |s.scheds| && Placed(r.threads, r.scheds[c], c)
  {
    var r, sc := RemoveThread(s, t).value, s.scheds[c];
    assert Placed(s.threads, sc, c);
    forall i, u | 0 <= i < NUM_PRIORITIES && u in sc.runqueue[i] ensures Entry(r.threads, sc.active, c, i, u) {
      assert Entry(s.threads, sc.active, c, i, u);
    }
  }

  lemma RemovePlaces(s: State, t: Tid)
    requires PlacesOk(s) && t < |s.threads|
    requires s.threads[t].affinity.Some? ==> s.threads[t].queued
    ensures RemoveThread(s, t).Done? && PlacesOk(RemoveThread(s, t).value)
  {
    assert Located(s.threads, s.scheds, t);
    if s.threads[t].affinity.Some? {
      var a := s.threads[t].affinity.value;
      RemovePlaced(s, t, a);
      var r := RemoveThread(s, t).value;
      WithoutMembers(s.scheds[a].runqueue[MAX_PRIORITY - s.threads[t].priority], t);
      forall c | 0 <= c < |r.scheds| && c != a ensures Placed(r.threads, r.scheds[c], c) {
        RemovePlacedElsewhere(s, t, c);
      }
      forall u | 0 <= u < |r.threads| ensures Located(r.threads, r.scheds, u) {
        assert Located(s.threads, s.scheds, u);
      }
    }
  }

  // ------------------------------------------------ operations on one thread

  /** The invariant but for the flags of thread `t`, which is being operated on. */
  ghost predicate InvBut(s: State, t: Tid) {
    t < |s.threads| && |s.cores| == |s.scheds| <= |s.threads| && BLOCK_AFFINITY_CHANGED in s.nonKillable &&
    PlacesOk(s) && (forall u | 0 <= u < |s.threads| && u != t :: ThreadOk(s, u)) && CoresOk(s)
  }

  ghost predicate SameConfig(s: State, r: State) {
    |r.threads| == |s.threads| && |r.scheds| == |s.scheds| && r.cores == s.cores && r.nonKillable == s.nonKillable
  }

  lemma CoresFrame(s: State, t: Tid, th: Thread)
    requires CoresOk(s) && t < |s.threads|
    requires th.running == s.threads[t].running && th.activeAffinity == s.threads[t].activeAffinity
    ensures CoresOk(SetThread(s, t, th))
  {
    var r := SetThread(s, t, th);
    forall c | 0 <= c < |r.cores| ensures CoreOk(r, c) { assert CoreOk(s, c); }
    forall u | 0 <= u < |r.threads| ensures RunningOk(r, u) { assert RunningOk(s, u); }
  }

  lemma CoresDependOnThreads(s: State, r: State)
    requires CoresOk(s) && r.threads == s.threads && r.cores == s.cores
    ensures CoresOk(r)
  {
    forall c | 0 <= c < |r.cores| ensures CoreOk(r, c) { assert CoreOk(s, c); }
    forall u | 0 <= u < |r.threads| ensures RunningOk(r, u) { assert RunningOk(s, u); }
  }

  lemma SetInvBut(s: State, t: Tid, th: Thread)
    requires InvBut(s, t) && th.queued == s.threads[t].queued
    requires th.queued ==> th.affinity == s.threads[t].affinity && th.priority == s.threads[t].priority
    requires th.running == s.threads[t].running && th.activeAffinity == s.threads[t].activeAffinity
    ensures InvBut(SetThread(s, t, th), t)
  {
    KeysFrame(s, t, th);
    CoresFrame(s, t, th);
    var r := SetThread(s, t, th);
    forall u | 0 <= u < |r.threads| && u != t ensures ThreadOk(r, u) { assert ThreadOk(s, u); }
  }

  lemma AddInvBut(s: State, t: Tid)
    requires InvBut(s, t) && s.threads[t].priority <= MAX_PRIORITY
    requires s.threads[t].affinity.Some? ==> s.threads[t].affinity.value < |s.scheds|
    requires !s.threads[t].running && !s.threads[t].queued && !s.threads[t].exited && Runnable(s, s.threads[t])
    ensures AddThread(s, t).Done?
    ensures var r := AddThread(s, t).value;
            InvBut(r, t) && SameConfig(s, r) &&
            r.threads[t] == if s.threads[t].affinity.None? then s.threads[t]
                            else s.threads[t].(queued := true, activeTimeslice := s.threads[t].baseTimeslice)
  {
    AddPlaces(s, t);
    var r := AddThread(s, t).value;
    CoresFrame(s, t, r.threads[t]);
    CoresDependOnThreads(SetThread(s, t, r.threads[t]), r);
    forall u | 0 <= u < |r.threads| && u != t ensures ThreadOk(r, u) { assert ThreadOk(s, u); }
  }

  lemma RemoveInvBut(s: State, t: Tid)
    requires InvBut(s, t)
    requires s.threads[t].affinity.Some? <==> s.threads[t].queued
    ensures RemoveThread(s, t).Done?
    ensures var r := RemoveThread(s, t).value;
            InvBut(r, t) && SameConfig(s, r) && r.threads[t] == s.threads[t].(queued := false)
  {
    RemovePlaces(s, t);
    var r := RemoveThread(s, t).value;
    CoresFrame(s, t, r.threads[t]);
    CoresDependOnThreads(SetThread(s, t, r.threads[t]), r);
    forall u | 0 <= u < |r.threads| && u != t ensures ThreadOk(r, u) { assert ThreadOk(s, u); }
  }

  lemma Whole(s: State, t: Tid)
    requires InvBut(s, t) && ThreadOk(s, t)
    ensures Inv(s)
  {}

  lemma BlockInvBut(s: State, t: Tid, b: Block)
    requires Inv(s) && t < |s.threads|
    ensures BlockThread(s, t, b).Done?
    ensures var r := BlockThread(s, t, b).value;
            var th := s.threads[t].(blocks := s.threads[t].blocks + {b});
            InvBut(r, t) && SameConfig(s, r) &&
            r.threads[t] == th.(queued := th.queued && Runnable(s, th))
  {
    var th := s.threads[t].(blocks := s.threads[t].blocks + {b});
    assert ThreadOk(s, t);
    SetInvBut(s, t, th);
    if th.queued && !Runnable(s, th) { RemoveInvBut(SetThread(s, t, th), t); }
  }

  /** Any block reason but the scheduler's own may be set at any time. */
  lemma BlockKeepsInv(s: State, t: Tid, b: Block)
    requires Inv(s) && t < |s.threads| && b != BLOCK_AFFINITY_CHANGED
    ensures BlockThread(s, t, b).Done? && Inv(BlockThread(s, t, b).value)
  {
    assert ThreadOk(s, t);
    BlockInvBut(s, t, b);
    Whole(BlockThread(s, t, b).value, t);
  }

  /** A thread becomes runnable: all other flags in order, the queue not yet told. */
  lemma MakeRunnableKeepsInv(s: State, t: Tid)
    requires InvBut(s, t) && Runnable(s, s.threads[t]) && !s.threads[t].queued && !s.threads[t].exited
    requires FlagsOk(s, s.threads[t].(queued := s.threads[t].affinity.Some? && !s.threads[t].needRequeue))
    requires !IsIdle(s, t)
    ensures MakeRunnable(s, t).Done? && Inv(MakeRunnable(s, t).value)
  {
    var th := s.threads[t];
    if th.running {
      SetInvBut(s, t, th.(needRequeue := true));
      Whole(SetThread(s, t, th.(needRequeue := true)), t);
    } else {
      AddInvBut(s, t);
      Whole(AddThread(s, t).value, t);
    }
  }

  /** Clearing a block reason; the thread's flags are in order but for `AFFINITY_CHANGED`. */
  lemma UnblockInvBut(s: State, t: Tid, b: Block)
    requires InvBut(s, t)
    requires var th := s.threads[t];
             FlagsOk(s, th.(blocks := th.blocks - {b}, queued := Runnable(s, th.(blocks := th.blocks - {b})) &&
                            th.affinity.Some? && !th.needRequeue)) &&
             (th.queued <==> Runnable(s, th) && th.affinity.Some? && !th.needRequeue) &&
             (IsIdle(s, t) ==> b != BLOCK_IDLE && IdleOk(th, t))
    ensures UnblockThread(s, t, b).Done? && Inv(UnblockThread(s, t, b).value)
  {
    var th := s.threads[t].(blocks := s.threads[t].blocks - {b});
    SetInvBut(s, t, th);
    var s1 := SetThread(s, t, th);
    if Runnable(s, s.threads[t]) || !Runnable(s1, th) {
      Whole(s1, t);
    } else {
      MakeRunnableKeepsInv(s1, t);
    }
  }

  lemma UnblockKeepsInv(s: State, t: Tid, b: Block)
    requires Inv(s) && t < |s.threads| && b != BLOCK_AFFINITY_CHANGED
    requires IsIdle(s, t) ==> b != BLOCK_IDLE
    requires s.threads[t].exited ==> b != BLOCK_THREAD_LIFECYCLE
    ensures UnblockThread(s, t, b).Done? && Inv(UnblockThread(s, t, b).value)
  {
    assert ThreadOk(s, t);
    UnblockInvBut(s, t, b);
  }

  lemma SyncKeepsInv(s: State, t: Tid)
    requires Inv(s) && t < |s.threads| && s.threads[t].syncPending
    ensures AffinitySync(s, t).Done? && Inv(AffinitySync(s, t).value)
  {
    assert ThreadOk(s, t);
    var th := s.threads[t].(syncPending := false);
    SetInvBut(s, t, th);
    UnblockInvBut(SetThread(s, t, th), t, BLOCK_AFFINITY_CHANGED);
  }

  /** The events that end an affinity change, on a thread that is not running. */
  lemma StartEventsKeepsInv(s: State, t: Tid, needSync: bool)
    requires InvBut(s, t) && !IsIdle(s, t)
    requires var th := s.threads[t];
             BLOCK_AFFINITY_CHANGED in th.blocks && !th.running && !th.queued && !th.syncPending && !th.needRequeue &&
             th.priority <= MAX_PRIORITY && (th.affinity.Some? ==> th.affinity.value < |s.scheds|) &&
             (th.exited ==> BLOCK_THREAD_LIFECYCLE in th.blocks && !th.killed) && th.activeAffinity.None?
    ensures StartAffinityEvents(s, t, needSync).Done? && Inv(StartAffinityEvents(s, t, needSync).value)
  {
    var th := s.threads[t];
    assert !Runnable(s, th) by {
      assert BLOCK_AFFINITY_CHANGED in th.blocks * s.nonKillable;
    }
    if needSync {
      SetInvBut(s, t, th.(syncPending := true));
      Whole(SetThread(s, t, th.(syncPending := true)), t);
    } else {
      UnblockInvBut(s, t, BLOCK_AFFINITY_CHANGED);
    }
  }

  lemma SetAffinityKeepsInv(s: State, t: Tid, target: Option<Cpu>, allowed: bool, needSync: bool)
    requires Inv(s) && t < |s.threads| && !IsIdle(s, t) && (target.Some? ==> target.value < |s.scheds|)
    ensures SetAffinity(s, t, target, allowed, needSync).Done?
    ensures Inv(SetAffinity(s, t, target, allowed, needSync).value)
  {
    var th := s.threads[t];
    assert ThreadOk(s, t);
    if !(th.affinity == target || th.pinCount != 0 || BLOCK_AFFINITY_CHANGED in th.blocks || !allowed) {
      BlockInvBut(s, t, BLOCK_AFFINITY_CHANGED);
      var s1 := BlockThread(s, t, BLOCK_AFFINITY_CHANGED).value;
      assert BLOCK_AFFINITY_CHANGED in s1.threads[t].blocks * s.nonKillable;
      var th2 := s1.threads[t].(affinity := target);
      SetInvBut(s1, t, th2);
      var s2 := SetThread(s1, t, th2);
      if th2.running { Whole(s2, t); } else { StartEventsKeepsInv(s2, t, needSync); }
    }
  }

  lemma UpdateParamsKeepsInv(s: State, t: Tid, priority: nat, timeslice: nat)
    requires Inv(s) && t < |s.threads| && priority <= MAX_PRIORITY
    ensures UpdateParams(s, t, priority, timeslice).Done? && Inv(UpdateParams(s, t, priority, timeslice).value)
  {
    var th := s.threads[t];
    assert ThreadOk(s, t);
    var th2 := th.(priority := priority, baseTimeslice := timeslice);
    if Runnable(s, th) && !th.needRequeue {
      RemoveInvBut(s, t);
      var s1 := RemoveThread(s, t).value;
      SetInvBut(s1, t, th2.(queued := false));
      MakeRunnableKeepsInv(SetThread(s1, t, th2.(queued := false)), t);
    } else {
      SetInvBut(s, t, th2);
      Whole(SetThread(s, t, th2), t);
    }
  }

  lemma KillKeepsInv(s: State, t: Tid)
    requires Inv(s) && t < |s.threads| && !IsIdle(s, t)
    ensures KillThread(s, t).Done? && Inv(KillThread(s, t).value)
  {
    var th := s.threads[t];
    assert ThreadOk(s, t);
    if !th.exited {
      var th1 := th.(killed := true);
      SetInvBut(s, t, th1);
      var s1 := SetThread(s, t, th1);
      if !Runnable(s, th) && Runnable(s, th1) { MakeRunnableKeepsInv(s1, t); } else { Whole(s1, t); }
    }
  }

  /** A thread leaves only once its lifecycle block is set. */
  lemma ExitKeepsInv(s: State, t: Tid)
    requires Inv(s) && t < |s.threads| && !IsIdle(s, t)
    requires s.threads[t].running && BLOCK_THREAD_LIFECYCLE in s.threads[t].blocks
    ensures ExitThread(s, t).Done? && Inv(ExitThread(s, t).value)
  {
    var th := s.threads[t];
    assert ThreadOk(s, t);
    if th.killed && th.queued {
      RemoveInvBut(s, t);
    }
    var s1 := if th.killed && th.queued then RemoveThread(s, t).value else s;
    var th1 := s1.threads[t].(killed := false, exited := true);
    SetInvBut(s1, t, th1);
    Whole(SetThread(s1, t, th1), t);
  }
}
