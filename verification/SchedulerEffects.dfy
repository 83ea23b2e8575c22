/** What each operation does to a thread and to the run queues, field by field:
    the flags it sets, the place it gives the thread, and that nothing else moves. */
module SchedulerEffects {
  import opened Outcomes
  import opened Lists
  import opened SchedulerState
  import opened SchedulerInvariant

  // -------------------------------------------------------------------- queues

  /** `t` has gone to the end of level `i` of CPU `c`, and nobody else has moved. */
  ghost predicate Joins(before: seq<Sched>, after: seq<Sched>, c: Cpu, i: int, t: Tid) {
    c < |before| == |after| && (forall d | 0 <= d < |before| && d != c :: after[d] == before[d]) &&
    after[c].active == before[c].active && after[c].schedtime == before[c].schedtime &&
    0 <= i < |before[c].runqueue| && after[c].runqueue == before[c].runqueue[i := before[c].runqueue[i] + [t]]
  }

  /** `t` has left the active place of CPU `c`, or else its level `i`, and nobody else has moved. */
  ghost predicate Leaves(before: seq<Sched>, after: seq<Sched>, c: Cpu, i: int, t: Tid) {
    c < |before| == |after| && (forall d | 0 <= d < |before| && d != c :: after[d] == before[d]) &&
    after[c].schedtime == before[c].schedtime &&
    if before[c].active == Some(t)
    then after[c].active.None? && after[c].runqueue == before[c].runqueue
    else after[c].active == before[c].active && 0 <= i < |before[c].runqueue| == |after[c].runqueue| &&
         after[c].runqueue == before[c].runqueue[i := after[c].runqueue[i]] &&
         Dropped(before[c].runqueue[i], after[c].runqueue[i], t)
  }

  /** The thread joins where it belongs now. */
  ghost predicate JoinsHome(before: seq<Sched>, after: seq<Sched>, th: Thread, t: Tid) {
    th.affinity.Some? && Joins(before, after, th.affinity.value, MAX_PRIORITY - th.priority, t) &&
    th.activeTimeslice == th.baseTimeslice
  }

  ghost predicate LeavesHome(before: seq<Sched>, after: seq<Sched>, th: Thread, t: Tid) {
    th.affinity.Some? && Leaves(before, after, th.affinity.value, MAX_PRIORITY - th.priority, t)
  }

  /** The queues follow the flag: a thread that gets queued joins the end of its level
      with a full timeslice, one that is dequeued leaves, and otherwise nothing moves. */
  ghost predicate QueuesFollow(s: State, r: State, t: Tid)
    requires t < |s.threads| && t < |r.threads|
  {
    var x, y := s.threads[t], r.threads[t];
    if x.queued == y.queued then r.scheds == s.scheds && y.activeTimeslice == x.activeTimeslice
    else if y.queued then JoinsHome(s.scheds, r.scheds, y, t)
    else LeavesHome(s.scheds, r.scheds, x, t) && y.activeTimeslice == x.activeTimeslice
  }

  /** A thread that was queued leaves its old place, and one that is queued now joins its new one. */
  ghost predicate Requeued(s: State, r: State, t: Tid)
    requires t < |s.threads| && t < |r.threads|
  {
    exists mid: seq<Sched> :: Passes(s, mid, r, t)
  }

  ghost predicate Passes(s: State, mid: seq<Sched>, r: State, t: Tid)
    requires t < |s.threads| && t < |r.threads|
  {
    (if s.threads[t].queued then LeavesHome(s.scheds, mid, s.threads[t], t) else mid == s.scheds) &&
    if r.threads[t].queued then JoinsHome(mid, r.scheds, r.threads[t], t) else r.scheds == mid
  }

  // ------------------------------------------------------------------- threads

  /** The thread without what the scheduler keeps about its place. */
  function Own(th: Thread): (r: Thread) {
    th.(queued := false, needRequeue := false, activeTimeslice := 0)
  }

  /** No other thread, and nothing that runs, has changed. */
  ghost predicate Only(s: State, r: State, t: Tid) {
    t < |s.threads| == |r.threads| && (forall u | 0 <= u < |s.threads| && u != t :: r.threads[u] == s.threads[u]) &&
    r.cores == s.cores && r.nonKillable == s.nonKillable
  }

  /** The block reasons that count: a killed thread heeds only those it cannot be killed through. */
  function Heeded(s: State, th: Thread): (r: set<Block>) {
    if th.killed then th.blocks * s.nonKillable else th.blocks
  }

  /** A thread that becomes free of blocks is queued, or marked while it still runs. */
  ghost predicate Wakes(s: State, r: State, t: Tid)
    requires t < |s.threads| && t < |r.threads|
  {
    var x, y := s.threads[t], r.threads[t];
    var freed := Heeded(s, x) != {} && Heeded(r, y) == {};
    (y.needRequeue <==> x.needRequeue || (freed && x.running)) &&
    (y.queued <==> x.queued || (freed && !x.running && y.affinity.Some?)) && QueuesFollow(s, r, t)
  }

  // ------------------------------------------------------------------- effects

  lemma AddEffect(s: State, t: Tid)
    requires t < |s.threads| && AddThread(s, t).Done?
    ensures var r := AddThread(s, t).value;
            Only(s, r, t) && Own(r.threads[t]) == Own(s.threads[t]) && QueuesFollow(s, r, t) &&
            r.threads[t].needRequeue == s.threads[t].needRequeue && !s.threads[t].queued &&
            (r.threads[t].queued <==> s.threads[t].affinity.Some?)
  {
  }

  lemma RemoveEffect(s: State, t: Tid)
    requires t < |s.threads| && RemoveThread(s, t).Done? && Located(s.threads, s.scheds, t)
    ensures var r := RemoveThread(s, t).value;
            Only(s, r, t) && QueuesFollow(s, r, t) && !r.threads[t].queued &&
            r.threads[t] == s.threads[t].(queued := false)
  {
    var th := s.threads[t];
    if th.affinity.Some? && s.scheds[th.affinity.value].active != Some(t) {
      WithoutDrops(s.scheds[th.affinity.value].runqueue[MAX_PRIORITY - th.priority], t);
    }
  }

  lemma MakeRunnableEffect(s: State, t: Tid)
    requires t < |s.threads| && MakeRunnable(s, t).Done?
    ensures var r, x := MakeRunnable(s, t).value, s.threads[t];
            Only(s, r, t) && Own(r.threads[t]) == Own(x) && QueuesFollow(s, r, t) &&
            (r.threads[t].needRequeue <==> x.needRequeue || x.running) &&
            (r.threads[t].queued <==> x.queued || (!x.running && x.affinity.Some?))
  {
    if !s.threads[t].running { AddEffect(s, t); }
  }

  /** The reason is set, and the thread is dequeued if it now heeds one. */
  ghost predicate Blocked(s: State, r: State, t: Tid, b: Block) {
    Only(s, r, t) &&
    var x, y := s.threads[t], r.threads[t];
    Own(y) == Own(x).(blocks := x.blocks + {b}) && y.needRequeue == x.needRequeue && QueuesFollow(s, r, t) &&
    (y.queued <==> x.queued && Heeded(r, y) == {})
  }

  lemma BlockEffect(s: State, t: Tid, b: Block)
    requires t < |s.threads| && BlockThread(s, t, b).Done? && Located(s.threads, s.scheds, t)
    ensures Blocked(s, BlockThread(s, t, b).value, t, b)
  {
    var s1 := SetThread(s, t, s.threads[t].(blocks := s.threads[t].blocks + {b}));
    if s1.threads[t].queued && !Runnable(s1, s1.threads[t]) {
      RemoveEffect(s1, t);
    }
  }

  /** The reason is cleared, and a thread that heeds none any more wakes. */
  ghost predicate Unblocked(s: State, r: State, t: Tid, b: Block) {
    Only(s, r, t) && Own(r.threads[t]) == Own(s.threads[t]).(blocks := s.threads[t].blocks - {b}) && Wakes(s, r, t)
  }

  lemma UnblockEffect(s: State, t: Tid, b: Block)
    requires t < |s.threads| && UnblockThread(s, t, b).Done?
    ensures Unblocked(s, UnblockThread(s, t, b).value, t, b)
  {
    var s1 := SetThread(s, t, s.threads[t].(blocks := s.threads[t].blocks - {b}));
    if !Runnable(s, s.threads[t]) && Runnable(s1, s1.threads[t]) {
      MakeRunnableEffect(s1, t);
    }
  }

  /** The change waits for a grace period, or is over. */
  ghost predicate EventsStarted(s: State, r: State, t: Tid, needSync: bool) {
    Only(s, r, t) && Wakes(s, r, t) &&
    var x := s.threads[t];
    Own(r.threads[t]) == if needSync then Own(x).(syncPending := true)
                         else Own(x).(blocks := x.blocks - {BLOCK_AFFINITY_CHANGED})
  }

  lemma EventsEffect(s: State, t: Tid, needSync: bool)
    requires t < |s.threads| && StartAffinityEvents(s, t, needSync).Done?
    ensures EventsStarted(s, StartAffinityEvents(s, t, needSync).value, t, needSync)
  {
    if !needSync { UnblockEffect(s, t, BLOCK_AFFINITY_CHANGED); }
  }

  /** A pending change is over. */
  ghost predicate ChangeFinished(s: State, r: State, t: Tid) {
    Only(s, r, t) && Wakes(s, r, t) &&
    var x := s.threads[t];
    Own(r.threads[t]) == Own(x).(syncPending := false, blocks := x.blocks - {BLOCK_AFFINITY_CHANGED})
  }

  lemma SyncEffect(s: State, t: Tid)
    requires t < |s.threads| && AffinitySync(s, t).Done?
    ensures ChangeFinished(s, AffinitySync(s, t).value, t)
  {
    var s1 := SetThread(s, t, s.threads[t].(syncPending := false));
    UnblockEffect(s1, t, BLOCK_AFFINITY_CHANGED);
  }

  /** The thread is marked unless it has exited already, and wakes if all its blocks are killable. */
  ghost predicate Killed(s: State, r: State, t: Tid) {
    t < |s.threads| &&
    if s.threads[t].exited then r == s
    else Only(s, r, t) && Own(r.threads[t]) == Own(s.threads[t]).(killed := true) && Wakes(s, r, t)
  }

  lemma KillEffect(s: State, t: Tid)
    requires t < |s.threads| && KillThread(s, t).Done?
    ensures Killed(s, KillThread(s, t).value, t)
  {
    var s1 := SetThread(s, t, s.threads[t].(killed := true));
    if !s.threads[t].exited && !Runnable(s, s.threads[t]) && Runnable(s1, s1.threads[t]) {
      MakeRunnableEffect(s1, t);
    }
  }

  /** The thread has exited, is not marked as killed any more, and is in no queue. */
  ghost predicate Exited(s: State, r: State, t: Tid) {
    Only(s, r, t) && QueuesFollow(s, r, t) &&
    var x, y := s.threads[t], r.threads[t];
    Own(y) == Own(x).(killed := false, exited := true) && y.needRequeue == x.needRequeue && !y.queued
  }

  lemma ExitEffect(s: State, t: Tid)
    requires t < |s.threads| && ExitThread(s, t).Done? && Located(s.threads, s.scheds, t)
    ensures Exited(s, ExitThread(s, t).value, t)
  {
    if s.threads[t].killed && s.threads[t].queued { RemoveEffect(s, t); }
  }

  /** `scheduler_set_affinity` is refused, or has nothing to do. */
  predicate AffinityStays(th: Thread, target: Option<Cpu>, allowed: bool) {
    th.affinity == target || th.pinCount != 0 || BLOCK_AFFINITY_CHANGED in th.blocks || !allowed
  }

  /** The thread has its new affinity. The change is over at once, unless the thread
      runs or has to wait for a grace period; then it stays blocked. */
  ghost predicate AffinityChanged(s: State, r: State, t: Tid, target: Option<Cpu>, needSync: bool) {
    Only(s, r, t) && Requeued(s, r, t) &&
    var x := s.threads[t];
    Own(r.threads[t]) ==
    Own(x).(affinity := target, syncPending := x.syncPending || (needSync && !x.running),
            blocks := if x.running || needSync then x.blocks + {BLOCK_AFFINITY_CHANGED} else x.blocks)
  }

  lemma AffinityEffect(s: State, t: Tid, target: Option<Cpu>, allowed: bool, needSync: bool)
    requires t < |s.threads| && SetAffinity(s, t, target, allowed, needSync).Done? && Located(s.threads, s.scheds, t)
    requires BLOCK_AFFINITY_CHANGED in s.nonKillable
    ensures var r := SetAffinity(s, t, target, allowed, needSync).value;
            if AffinityStays(s.threads[t], target, allowed) then r == s else AffinityChanged(s, r, t, target, needSync)
  {
    var x := s.threads[t];
    if !AffinityStays(x, target, allowed) {
      BlockEffect(s, t, BLOCK_AFFINITY_CHANGED);
      var s1 := BlockThread(s, t, BLOCK_AFFINITY_CHANGED).value;
      var s2 := SetThread(s1, t, s1.threads[t].(affinity := target));
      var y := s1.threads[t];
      assert BLOCK_AFFINITY_CHANGED in Heeded(s1, y);
      assert !y.queued && s2.scheds == s1.scheds;
      if !x.running {
        EventsEffect(s2, t, needSync);
        assert x.blocks + {BLOCK_AFFINITY_CHANGED} - {BLOCK_AFFINITY_CHANGED} == x.blocks;
      }
      assert Passes(s, s1.scheds, SetAffinity(s, t, target, allowed, needSync).value, t);
    }
  }

  /** The thread has its new priority and base timeslice. If it was queued it goes to
      the end of its new level, or is marked for that while it runs. */
  ghost predicate Reparametered(s: State, r: State, t: Tid, priority: nat, timeslice: nat) {
    Only(s, r, t) &&
    var x, y := s.threads[t], r.threads[t];
    var movable := Heeded(s, x) == {} && !x.needRequeue;
    Own(y) == Own(x).(priority := priority, baseTimeslice := timeslice) &&
    (y.needRequeue <==> x.needRequeue || (movable && x.running)) &&
    if movable then Requeued(s, r, t) && (y.queued <==> !x.running && x.affinity.Some?)
    else r.scheds == s.scheds && y.queued == x.queued && y.activeTimeslice == x.activeTimeslice
  }

  lemma ParamsEffect(s: State, t: Tid, priority: nat, timeslice: nat)
    requires t < |s.threads| && UpdateParams(s, t, priority, timeslice).Done? && Located(s.threads, s.scheds, t)
    ensures Reparametered(s, UpdateParams(s, t, priority, timeslice).value, t, priority, timeslice)
  {
    var x := s.threads[t];
    if Runnable(s, x) && !x.needRequeue {
      RemoveEffect(s, t);
      var s1 := RemoveThread(s, t).value;
      MakeRunnableEffect(SetThread(s1, t, s1.threads[t].(priority := priority, baseTimeslice := timeslice)), t);
      assert Passes(s, s1.scheds, UpdateParams(s, t, priority, timeslice).value, t);
    }
  }

  // ------------------------------------------------------------------ switching

  /** Who may take CPU `c`: a thread that runs nowhere, belongs there, and is free of
      blocks, unless it is the CPU's idle thread. */
  predicate MaySwitch(s: State, c: Cpu, t: Tid)
    requires t < |s.threads|
  {
    !s.threads[t].running && s.threads[t].affinity == Some(c) && (Heeded(s, s.threads[t]) == {} || t == c)
  }

  /** The switch is granted if and only if the target may take the CPU; a denied one changes no thread. */
  ghost predicate SwitchedIn(s: State, r: State, c: Cpu)
    requires c < |s.cores| && s.cores[c].Chosen? && s.cores[c].target < |s.threads|
  {
    var cur, next := s.cores[c].current, s.cores[c].target;
    r.scheds == s.scheds && r.nonKillable == s.nonKillable &&
    if MaySwitch(s, c, next)
    then r.cores == s.cores[c := Leaving(next, cur)] &&
         r.threads == s.threads[next := s.threads[next].(running := true, activeAffinity := Some(c))]
    else r.cores == s.cores[c := Stable(cur)] && r.threads == s.threads
  }

  lemma PreEffect(s: State, c: Cpu)
    requires c < |s.cores| && s.cores[c].Chosen? && s.cores[c].target < |s.threads| && SwitchPre(s, c).Done?
    ensures SwitchedIn(s, SwitchPre(s, c).value, c)
  {
  }

  /** The thread switched from, off its CPU and without its mark. */
  function SwitchedOff(s: State, c: Cpu): (r: State)
    requires c < |s.cores| && s.cores[c].Leaving? && s.cores[c].prev < |s.threads|
  {
    var prev := s.cores[c].prev;
    SetThread(s, prev, s.threads[prev].(running := false, activeAffinity := None, needRequeue := false))
      .(cores := s.cores[c := Stable(s.cores[c].current)])
  }

  /** A thread whose affinity has changed is not requeued here. */
  lemma PostStarts(s: State, c: Cpu, needSync: bool)
    requires c < |s.cores| && s.cores[c].Leaving? && s.cores[c].prev < |s.threads|
    requires BLOCK_AFFINITY_CHANGED in s.nonKillable && BLOCK_AFFINITY_CHANGED in s.threads[s.cores[c].prev].blocks
    ensures SwitchPost(s, c, needSync) == StartAffinityEvents(SwitchedOff(s, c), s.cores[c].prev, needSync)
  {
    var prev := s.cores[c].prev;
    var th := s.threads[prev].(running := false, activeAffinity := None);
    assert BLOCK_AFFINITY_CHANGED in Heeded(s, th);
    var s1 := SetThread(s, prev, th).(cores := s.cores[c := Stable(s.cores[c].current)]);
    assert SetThread(s1, prev, th.(needRequeue := false)) == SwitchedOff(s, c);
  }

  /** Any other thread is requeued if it was marked and is free of blocks. */
  lemma PostRequeues(s: State, c: Cpu, needSync: bool)
    requires c < |s.cores| && s.cores[c].Leaving? && s.cores[c].prev < |s.threads| && SwitchPost(s, c, needSync).Done?
    requires BLOCK_AFFINITY_CHANGED !in s.threads[s.cores[c].prev].blocks
    ensures var r, prev := SwitchPost(s, c, needSync).value, s.cores[c].prev;
            Only(s.(cores := r.cores), r, prev) && r.cores == s.cores[c := Stable(s.cores[c].current)] &&
            !r.threads[prev].needRequeue && QueuesFollow(s, r, prev) &&
            Own(r.threads[prev]) == Own(s.threads[prev]).(running := false, activeAffinity := None)
  {
    var prev := s.cores[c].prev;
    var s1 := SetThread(s, prev, s.threads[prev].(running := false, activeAffinity := None))
      .(cores := s.cores[c := Stable(s.cores[c].current)]);
    if s1.threads[prev].needRequeue && Runnable(s1, s1.threads[prev]) { AddEffect(s1, prev); }
  }

  /** The thread switched from runs nowhere and has no mark left. A change of its
      affinity is over, or pending if it has to wait for a grace period. */
  ghost predicate SwitchedOut(s: State, r: State, c: Cpu, needSync: bool)
    requires c < |s.cores| && s.cores[c].Leaving? && s.cores[c].prev < |s.threads|
  {
    var prev := s.cores[c].prev;
    var x := s.threads[prev];
    var changed := BLOCK_AFFINITY_CHANGED in x.blocks;
    Only(s.(cores := r.cores), r, prev) && r.cores == s.cores[c := Stable(s.cores[c].current)] &&
    !r.threads[prev].needRequeue && QueuesFollow(s, r, prev) &&
    Own(r.threads[prev]) ==
    Own(x).(running := false, activeAffinity := None, syncPending := x.syncPending || (changed && needSync),
            blocks := if changed && !needSync then x.blocks - {BLOCK_AFFINITY_CHANGED} else x.blocks)
  }

  lemma PostEffect(s: State, c: Cpu, needSync: bool)
    requires c < |s.cores| && s.cores[c].Leaving? && s.cores[c].prev < |s.threads| && SwitchPost(s, c, needSync).Done?
    requires BLOCK_AFFINITY_CHANGED in s.nonKillable
    ensures SwitchedOut(s, SwitchPost(s, c, needSync).value, c, needSync)
  {
    if BLOCK_AFFINITY_CHANGED in s.threads[s.cores[c].prev].blocks {
      PostStarts(s, c, needSync);
      EventsEffect(SwitchedOff(s, c), s.cores[c].prev, needSync);
    } else {
      PostRequeues(s, c, needSync);
    }
  }
}
