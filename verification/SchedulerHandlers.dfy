/** The scheduler's operations as imperative code. The assertions of the source
    appear as assertions here; they verify because every operation starts from the
    invariant of `SchedulerInvariant`, and every operation re-establishes it. */
module SchedulerHandlers {
  import opened Outcomes
  import opened Lists
  import opened SchedulerState
  import opened SchedulerInvariant
  import opened SchedulerEffects
  import opened SchedulerRuns

  /** A runnable thread that is in no queue and on no CPU. */
  ghost predicate AddReady(s: State, t: Tid) {
    InvBut(s, t) && s.threads[t].priority <= MAX_PRIORITY &&
    (s.threads[t].affinity.Some? ==> s.threads[t].affinity.value < |s.scheds|) &&
    !s.threads[t].running && !s.threads[t].queued && !s.threads[t].exited && Runnable(s, s.threads[t])
  }

  /** A thread that has become runnable; only its queue has not been told yet. */
  ghost predicate RunnableReady(s: State, t: Tid) {
    InvBut(s, t) && !IsIdle(s, t) && Runnable(s, s.threads[t]) && !s.threads[t].queued && !s.threads[t].exited &&
    FlagsOk(s, s.threads[t].(queued := s.threads[t].affinity.Some? && !s.threads[t].needRequeue))
  }

  /** What clearing a block reason takes of the thread's flags. */
  ghost predicate UnblockReady(s: State, t: Tid, b: SchedulerState.Block) {
    InvBut(s, t) &&
    var th := s.threads[t];
    var th' := th.(blocks := th.blocks - {b});
    FlagsOk(s, th'.(queued := Runnable(s, th') && th.affinity.Some? && !th.needRequeue)) &&
    (th.queued <==> Runnable(s, th) && th.affinity.Some? && !th.needRequeue) &&
    (IsIdle(s, t) ==> b != BLOCK_IDLE && IdleOk(th, t))
  }

  /** A thread in the middle of an affinity change, off every queue and CPU. */
  ghost predicate EventsReady(s: State, t: Tid) {
    InvBut(s, t) && !IsIdle(s, t) &&
    var th := s.threads[t];
    BLOCK_AFFINITY_CHANGED in th.blocks && !th.running && !th.queued && !th.syncPending && !th.needRequeue &&
    th.priority <= MAX_PRIORITY && (th.affinity.Some? ==> th.affinity.value < |s.scheds|) &&
    (th.exited ==> BLOCK_THREAD_LIFECYCLE in th.blocks && !th.killed) && th.activeAffinity.None?
  }

  lemma UnblockIsReady(s: State, t: Tid, b: SchedulerState.Block)
    requires Inv(s) && Enabled(s, SchedulerRuns.Unblock(t, b))
    ensures UnblockReady(s, t, b)
  {
    assert ThreadOk(s, t);
  }

  lemma UnblockedIsReady(s: State, t: Tid, b: SchedulerState.Block)
    requires UnblockReady(s, t, b)
    ensures var s1 := SetThread(s, t, s.threads[t].(blocks := s.threads[t].blocks - {b}));
            !Runnable(s, s.threads[t]) && Runnable(s1, s1.threads[t]) ==> RunnableReady(s1, t)
  {
    var th := s.threads[t].(blocks := s.threads[t].blocks - {b});
    SetInvBut(s, t, th);
    assert IsIdle(s, t) ==> BLOCK_IDLE in th.blocks;
  }

  lemma SyncIsReady(s: State, t: Tid)
    requires Inv(s) && Enabled(s, Sync(t))
    ensures BLOCK_AFFINITY_CHANGED in s.threads[t].blocks
    ensures UnblockReady(SetThread(s, t, s.threads[t].(syncPending := false)), t, BLOCK_AFFINITY_CHANGED)
  {
    assert ThreadOk(s, t);
    SetInvBut(s, t, s.threads[t].(syncPending := false));
  }

  lemma AffinityIsReady(s: State, t: Tid, target: Option<Cpu>)
    requires Inv(s) && Enabled(s, ChangeAffinity(t, target, true, true))
    requires BLOCK_AFFINITY_CHANGED !in s.threads[t].blocks
    ensures BlockThread(s, t, BLOCK_AFFINITY_CHANGED).Done?
    ensures var s1 := BlockThread(s, t, BLOCK_AFFINITY_CHANGED).value;
            var s2 := SetThread(s1, t, s1.threads[t].(affinity := target));
            if s2.threads[t].running then !s2.threads[t].queued && s2.threads[t].activeAffinity.Some?
            else EventsReady(s2, t)
  {
    assert ThreadOk(s, t);
    BlockInvBut(s, t, BLOCK_AFFINITY_CHANGED);
    var s1 := BlockThread(s, t, BLOCK_AFFINITY_CHANGED).value;
    assert BLOCK_AFFINITY_CHANGED in s1.threads[t].blocks * s.nonKillable;
    SetInvBut(s1, t, s1.threads[t].(affinity := target));
  }

  lemma ParamsAreReady(s: State, t: Tid, priority: nat, timeslice: nat)
    requires Inv(s) && t < |s.threads| && priority <= MAX_PRIORITY && Runnable(s, s.threads[t])
    requires !s.threads[t].needRequeue
    ensures InvBut(s, t) && (s.threads[t].affinity.Some? <==> s.threads[t].queued) && RemoveThread(s, t).Done?
    ensures var s1 := RemoveThread(s, t).value;
            RunnableReady(SetThread(s1, t, s1.threads[t].(priority := priority, baseTimeslice := timeslice)), t)
  {
    assert ThreadOk(s, t);
    RemoveInvBut(s, t);
    var s1 := RemoveThread(s, t).value;
    SetInvBut(s1, t, s1.threads[t].(priority := priority, baseTimeslice := timeslice));
  }

  lemma KilledIsReady(s: State, t: Tid)
    requires Inv(s) && Enabled(s, Kill(t)) && !s.threads[t].exited
    ensures var s1 := SetThread(s, t, s.threads[t].(killed := true));
            !Runnable(s, s.threads[t]) && Runnable(s1, s1.threads[t]) ==> RunnableReady(s1, t)
    ensures s.threads[t].running ==> s.threads[t].activeAffinity.Some?
  {
    assert ThreadOk(s, t);
    SetInvBut(s, t, s.threads[t].(killed := true));
  }

  lemma ExitIsReady(s: State, t: Tid)
    requires Inv(s) && t < |s.threads| && s.threads[t].queued
    ensures InvBut(s, t) && s.threads[t].affinity.Some?
  {
    assert ThreadOk(s, t);
  }

  lemma StoppedIsReady(s: State, c: Cpu)
    requires Inv(s) && c < |s.cores| && s.cores[c].Leaving? && s.cores[c].prev < |s.threads|
    ensures var s1, prev := Stopped(s, c), s.cores[c].prev;
            s1.threads[prev].needRequeue && Runnable(s1, s1.threads[prev]) ==> AddReady(s1, prev)
    ensures var s1, prev := Stopped(s, c), s.cores[c].prev;
            BLOCK_AFFINITY_CHANGED in s1.threads[prev].blocks ==>
              !Runnable(s1, s1.threads[prev]) &&
              EventsReady(SetThread(s1, prev, s1.threads[prev].(needRequeue := false)), prev)
  {
    var s1, prev := Stopped(s, c), s.cores[c].prev;
    assert CoreOk(s, c) && ThreadOk(s, prev);
    StopRunning(s, c);
    if BLOCK_AFFINITY_CHANGED in s1.threads[prev].blocks {
      assert BLOCK_AFFINITY_CHANGED in s1.threads[prev].blocks * s1.nonKillable;
      SetInvBut(s1, prev, s1.threads[prev].(needRequeue := false));
    }
  }

  lemma EventsUnblock(s: State, t: Tid)
    requires EventsReady(s, t)
    ensures UnblockReady(s, t, BLOCK_AFFINITY_CHANGED)
  {
    assert BLOCK_AFFINITY_CHANGED in s.threads[t].blocks * s.nonKillable;
  }

  /** Only blocks it cannot be killed through keep a killed thread from its queue. */
  lemma KilledIsQueued(s: State, r: State, t: Tid)
    requires Inv(r) && Killed(s, r, t) && !s.threads[t].exited
    ensures var y := r.threads[t];
            y.killed && (y.queued <==> y.blocks * r.nonKillable == {} && y.affinity.Some? && !y.needRequeue)
  {
    assert ThreadOk(r, t);
    assert Own(r.threads[t]).killed;
  }

  /** `Changed` stands for success, also when there is nothing to change. */
  datatype AffinityResult = Changed | Denied | Retry | Refused

  class Scheduler {
    var threads: seq<Thread>
    var scheds: seq<Sched>
    var cores: seq<Core>
    const nonKillable: set<SchedulerState.Block>

    function View(): (s: State)
      reads this
    {
      State(threads, scheds, cores, nonKillable)
    }

    predicate CanBeScheduled(t: Tid)
      requires t < |threads|
      reads this
    {
      Runnable(View(), threads[t])
    }

    // -------------------------------------------- pieces of larger operations

    /** `add_thread_to_scheduler`: a runnable thread that is in no queue waits at the end
        of its level on its affinity CPU, with a full timeslice. */
    method AddThread(t: Tid)
      requires AddReady(View(), t)
      modifies this
      ensures InvBut(View(), t) && Only(old(View()), View(), t) && Own(threads[t]) == Own(old(threads)[t])
      ensures threads[t].needRequeue == old(threads)[t].needRequeue
      ensures (threads[t].queued <==> threads[t].affinity.Some?) && QueuesFollow(old(View()), View(), t)
      ensures SchedulerState.AddThread(old(View()), t) == Done(View())
    {
      AddInvBut(View(), t);
      AddEffect(View(), t);
      var thread := threads[t];
      if thread.affinity.Some? {
        var c := thread.affinity.value;
        assert Placed(threads, scheds[c], c);
        threads := threads[t := thread.(activeTimeslice := thread.baseTimeslice, queued := true)];
        scheds := scheds[c := AddToRunqueue(scheds[c], thread.priority, t, true).value];
      }
    }

    /** `remove_thread_from_scheduler`: a queued thread leaves the active place or its
        level, and no other thread moves. */
    method RemoveThread(t: Tid)
      requires InvBut(View(), t) && (threads[t].affinity.Some? <==> threads[t].queued)
      modifies this
      ensures InvBut(View(), t) && Only(old(View()), View(), t)
      ensures threads[t] == old(threads)[t].(queued := false) && QueuesFollow(old(View()), View(), t)
      ensures SchedulerState.RemoveThread(old(View()), t) == Done(View())
    {
      RemoveInvBut(View(), t);
      assert Located(threads, scheds, t);
      RemoveEffect(View(), t);
      var thread := threads[t];
      if thread.affinity.Some? {
        assert thread.queued;
        var c := thread.affinity.value;
        if scheds[c].active == Some(t) {
          scheds := scheds[c := scheds[c].(active := None)];
        } else {
          scheds := scheds[c := RemoveFromRunqueue(scheds[c], thread.priority, t).value];
        }
        threads := threads[t := thread.(queued := false)];
      }
    }

    /** A thread that has become runnable is marked for a requeue while it runs, and
        queued right away otherwise; either way every flag agrees again. */
    method MakeRunnable(t: Tid)
      requires RunnableReady(View(), t)
      modifies this
      ensures Inv(View()) && Only(old(View()), View(), t) && Own(threads[t]) == Own(old(threads)[t])
      ensures threads[t].needRequeue <==> old(threads)[t].needRequeue || old(threads)[t].running
      ensures threads[t].queued <==> !old(threads)[t].running && threads[t].affinity.Some?
      ensures QueuesFollow(old(View()), View(), t)
      ensures SchedulerState.MakeRunnable(old(View()), t) == Done(View())
    {
      MakeRunnableKeepsInv(View(), t);
      MakeRunnableEffect(View(), t);
      if threads[t].running {
        threads := threads[t := threads[t].(needRequeue := true)];
        assert !threads[t].queued;
        assert threads[t].activeAffinity.Some?;
      } else {
        AddThread(t);
      }
    }

    method BlockBit(t: Tid, b: SchedulerState.Block)
      requires Inv(View()) && t < |threads|
      modifies this
      ensures InvBut(View(), t) && BlockThread(old(View()), t, b) == Done(View())
      ensures Blocked(old(View()), View(), t, b)
    {
      BlockInvBut(View(), t, b);
      assert Located(threads, scheds, t);
      BlockEffect(View(), t, b);
      assert ThreadOk(View(), t);
      SetInvBut(View(), t, threads[t].(blocks := threads[t].blocks + {b}));
      threads := threads[t := threads[t].(blocks := threads[t].blocks + {b})];
      if threads[t].queued && !CanBeScheduled(t) {
        RemoveThread(t);
      }
    }

    method UnblockBit(t: Tid, b: SchedulerState.Block)
      requires UnblockReady(View(), t, b)
      modifies this
      ensures Inv(View()) && UnblockThread(old(View()), t, b) == Done(View())
      ensures Unblocked(old(View()), View(), t, b)
    {
      UnblockInvBut(View(), t, b);
      UnblockEffect(View(), t, b);
      UnblockedIsReady(View(), t, b);
      var wasBlocked := !CanBeScheduled(t);
      threads := threads[t := threads[t].(blocks := threads[t].blocks - {b})];
      var nowRunnable := CanBeScheduled(t);
      if wasBlocked && nowRunnable {
        assert !threads[t].queued;
        MakeRunnable(t);
      }
    }

    /** `start_affinity_changed_events` on a thread that does not run: after it, the
        change is pending for a grace period, or over and the thread unblocked. */
    method StartAffinityEvents(t: Tid, needSync: bool)
      requires EventsReady(View(), t)
      modifies this
      ensures Inv(View()) && t < |threads| && threads[t].syncPending == needSync
      ensures BLOCK_AFFINITY_CHANGED in threads[t].blocks <==> needSync
      ensures EventsStarted(old(View()), View(), t, needSync)
      ensures SchedulerState.StartAffinityEvents(old(View()), t, needSync) == Done(View())
    {
      StartEventsKeepsInv(View(), t, needSync);
      EventsEffect(View(), t, needSync);
      if needSync {
        threads := threads[t := threads[t].(syncPending := true)];
      } else {
        EventsUnblock(View(), t);
        UnblockBit(t, BLOCK_AFFINITY_CHANGED);
      }
    }

    // ------------------------------------------------------ public operations

    /** `scheduler_block`: the reason is set, and a queued thread that now heeds one
        leaves its queue. */
    method Block(t: Tid, b: SchedulerState.Block)
      requires Inv(View()) && Enabled(View(), SchedulerRuns.Block(t, b))
      modifies this
      ensures Inv(View()) && Blocked(old(View()), View(), t, b)
      ensures Done(View()) == Apply(old(View()), SchedulerRuns.Block(t, b))
    {
      BlockKeepsInv(View(), t, b);
      BlockBit(t, b);
    }

    /** `scheduler_unblock`: the reason is cleared, and a thread that heeds none any
        more is queued, or marked for a requeue while it runs. */
    method Unblock(t: Tid, b: SchedulerState.Block)
      requires Inv(View()) && Enabled(View(), SchedulerRuns.Unblock(t, b))
      modifies this
      ensures Inv(View()) && Unblocked(old(View()), View(), t, b)
      ensures Done(View()) == Apply(old(View()), SchedulerRuns.Unblock(t, b))
    {
      UnblockIsReady(View(), t, b);
      UnblockBit(t, b);
    }

    /** `scheduler_fprr_handle_affinity_change_update`: the change is over, and the
        thread is queued on its new CPU unless something else blocks it. */
    method FinishAffinityChange(t: Tid)
      requires Inv(View()) && Enabled(View(), Sync(t))
      modifies this
      ensures Inv(View()) && ChangeFinished(old(View()), View(), t)
      ensures Done(View()) == Apply(old(View()), Sync(t))
    {
      SyncKeepsInv(View(), t);
      SyncEffect(View(), t);
      SyncIsReady(View(), t);
      assert BLOCK_AFFINITY_CHANGED in threads[t].blocks;
      threads := threads[t := threads[t].(syncPending := false)];
      UnblockBit(t, BLOCK_AFFINITY_CHANGED);
    }

    /** `scheduler_set_affinity`: the affinity is as asked, or the change is denied for a
        pinned thread, to be retried while another change is in progress, or refused by
        the prepare event. */
    method SetAffinity(t: Tid, target: Option<Cpu>, allowed: bool, needSync: bool) returns (e: AffinityResult)
      requires Inv(View()) && Enabled(View(), ChangeAffinity(t, target, allowed, needSync))
      modifies this
      ensures Inv(View()) && Done(View()) == Apply(old(View()), ChangeAffinity(t, target, allowed, needSync))
      ensures var x := old(threads)[t];
              (e == Denied <==> x.affinity != target && x.pinCount > 0) &&
              (e == Retry <==> x.affinity != target && x.pinCount == 0 && BLOCK_AFFINITY_CHANGED in x.blocks) &&
              (e == Refused <==> x.affinity != target && x.pinCount == 0 && BLOCK_AFFINITY_CHANGED !in x.blocks &&
                                 !allowed)
      ensures if AffinityStays(old(threads)[t], target, allowed) then View() == old(View())
              else AffinityChanged(old(View()), View(), t, target, needSync)
    {
      SetAffinityKeepsInv(View(), t, target, allowed, needSync);
      ghost var s := View();
      var thread := threads[t];
      if thread.affinity == target {
        return Changed;
      }
      if thread.pinCount != 0 {
        return Denied;
      }
      if BLOCK_AFFINITY_CHANGED in thread.blocks {
        return Retry;
      }
      if !allowed {
        return Refused;
      }
      e := Changed;
      AffinityIsReady(View(), t, target);
      BlockBit(t, BLOCK_AFFINITY_CHANGED);
      threads := threads[t := threads[t].(affinity := target)];
      if threads[t].running {
        assert !threads[t].queued;
        assert threads[t].activeAffinity.Some?;
      } else {
        StartAffinityEvents(t, needSync);
      }
      assert Located(s.threads, s.scheds, t);
      AffinityEffect(s, t, target, allowed, needSync);
    }

    /** `update_sched_params`: the thread has the parameters asked for; if it is queued it
        goes to the end of its new level, or is marked for that while it runs. */
    method UpdateSchedParams(t: Tid, priority: nat, timeslice: nat)
      requires Inv(View()) && t < |threads| && priority <= MAX_PRIORITY
      modifies this
      ensures Inv(View()) && Reparametered(old(View()), View(), t, priority, timeslice)
      ensures Done(View()) == UpdateParams(old(View()), t, priority, timeslice)
    {
      UpdateParamsKeepsInv(View(), t, priority, timeslice);
      assert Located(threads, scheds, t);
      ParamsEffect(View(), t, priority, timeslice);
      var requeue := CanBeScheduled(t) && !threads[t].needRequeue;
      if requeue {
        ParamsAreReady(View(), t, priority, timeslice);
        RemoveThread(t);
      }
      threads := threads[t := threads[t].(priority := priority, baseTimeslice := timeslice)];
      if requeue {
        MakeRunnable(t);
      }
    }

    /** `scheduler_fprr_handle_thread_killed`: the thread is marked, unless it has exited
        already, and only blocks it cannot be killed through keep it from its queue. */
    method HandleKilled(t: Tid)
      requires Inv(View()) && Enabled(View(), Kill(t))
      modifies this
      ensures Inv(View()) && Killed(old(View()), View(), t) && t < |threads|
      ensures !old(threads)[t].exited ==>
                threads[t].killed &&
                (threads[t].queued <==>
                 threads[t].blocks * nonKillable == {} && threads[t].affinity.Some? && !threads[t].needRequeue)
      ensures Done(View()) == Apply(old(View()), Kill(t))
    {
      KillKeepsInv(View(), t);
      ghost var s := View();
      KillEffect(s, t);
      if threads[t].exited {
        return;
      }
      KilledIsReady(View(), t);
      var wasBlocked := !CanBeScheduled(t);
      threads := threads[t := threads[t].(killed := true)];
      var runnable := wasBlocked && CanBeScheduled(t);
      if runnable {
        assert !threads[t].queued;
        MakeRunnable(t);
      } else if threads[t].running {
        assert threads[t].activeAffinity.Some?;
      }
      KilledIsQueued(s, View(), t);
    }

    /** `scheduler_fprr_handle_thread_exited`: the thread is marked as exited and no
        longer as killed, and is in no queue. */
    method HandleExited(c: Cpu)
      requires Inv(View()) && Enabled(View(), Exit(c))
      modifies this
      ensures Inv(View()) && Exited(old(View()), View(), old(cores)[c].current)
      ensures Done(View()) == Apply(old(View()), Exit(c))
    {
      StepKeepsInv(View(), Exit(c));
      assert Located(threads, scheds, cores[c].current);
      ExitEffect(View(), cores[c].current);
      var t := cores[c].current;
      ghost var r := ExitThread(View(), t).value;
      assert BLOCK_THREAD_LIFECYCLE in threads[t].blocks;
      assert threads[t].running;
      if threads[t].killed {
        if threads[t].queued {
          ExitIsReady(View(), t);
          RemoveThread(t);
        }
        threads := threads[t := threads[t].(killed := false)];
      }
      assert !CanBeScheduled(t);
      assert !threads[t].queued;
      threads := threads[t := threads[t].(exited := true)];
      assert threads == r.threads;
    }

    // -------------------------------------------------------------- switching

    /** `scheduler_fprr_handle_thread_context_switch_pre`: the target takes the CPU if it
        runs nowhere, belongs to this CPU, and is runnable or the idle thread; otherwise
        the switch is denied and no thread changes. */
    method ContextSwitchPre(c: Cpu) returns (ok: bool)
      requires Inv(View()) && Enabled(View(), Pre(c))
      modifies this
      ensures Inv(View()) && SwitchedIn(old(View()), View(), c)
      ensures ok <==> MaySwitch(old(View()), c, old(cores)[c].target)
      ensures Done(View()) == Apply(old(View()), Pre(c))
    {
      PreKeepsInv(View(), c);
      PreEffect(View(), c);
      var next, cur := cores[c].target, cores[c].current;
      assert next != cur;
      var runnable := !threads[next].running && (CanBeScheduled(next) || next == c);
      ok := runnable && threads[next].affinity == Some(c);
      if ok {
        assert !threads[next].needRequeue;
        assert !threads[next].exited;
        threads := threads[next := threads[next].(running := true, activeAffinity := Some(c))];
        cores := cores[c := Leaving(next, cur)];
      } else {
        cores := cores[c := Stable(cur)];
      }
    }

    /** A thread that was marked while it ran goes back to its queue, and the mark is cleared. */
    method RequeueIfMarked(t: Tid)
      requires t < |threads| && (threads[t].needRequeue && Runnable(View(), threads[t]) ==> AddReady(View(), t))
      modifies this
      ensures var requeue := old(threads[t].needRequeue && CanBeScheduled(t));
              var s := if requeue then SchedulerState.AddThread(old(View()), t) else Done(old(View()));
              s.Done? && View() == SetThread(s.value, t, s.value.threads[t].(needRequeue := false))
    {
      var requeue := threads[t].needRequeue && CanBeScheduled(t);
      if requeue {
        AddThread(t);
      }
      threads := threads[t := threads[t].(needRequeue := false)];
    }

    /** `scheduler_fprr_handle_thread_context_switch_post`: the thread switched from runs
        nowhere, has no mark left, and its affinity change is over or pending. */
    method ContextSwitchPost(c: Cpu, needSync: bool)
      requires Inv(View()) && Enabled(View(), Post(c, needSync))
      modifies this
      ensures Inv(View()) && SwitchedOut(old(View()), View(), c, needSync)
      ensures Done(View()) == Apply(old(View()), Post(c, needSync))
    {
      ghost var s := View();
      GiveUp(c, needSync);
      PostEffect(s, c, needSync);
    }

    /** The thread switched from is off its CPU, and requeued if it was marked. */
    method GiveUp(c: Cpu, needSync: bool)
      requires Inv(View()) && Enabled(View(), Post(c, needSync))
      modifies this
      ensures Inv(View()) && Done(View()) == Apply(old(View()), Post(c, needSync))
    {
      PostKeepsInv(View(), c, needSync);
      StoppedIsReady(View(), c);
      var prev := cores[c].prev;
      threads := threads[prev := threads[prev].(running := false, activeAffinity := None)];
      cores := cores[c := Stable(cores[c].current)];
      RequeueIfMarked(prev);
      if BLOCK_AFFINITY_CHANGED in threads[prev].blocks {
        StartAffinityEvents(prev, needSync);
      }
    }
  }
}
