/** The handlers of `power.c` as imperative code; each is a step of `PowerProtocol`. */
module PowerHandlers {
  import opened Outcomes
  import opened PowerProtocol

  /** What an attempt to start a CPU comes to. A CPU that is not present or not
      functional is an error; one that is not off needs nothing. Otherwise the CPU boots
      with its retries forgotten if the platform has started it; it stays as it is with
      the retry timer on its way if the platform asks to retry and may be asked again;
      and it stays as it is with an error in any other case. */
  predicate Tried(x: CpuState, y: CpuState, present: bool, functional: bool, platform: Platform, e: Error) {
    var off := x.power.Off? || x.power.Offline?;
    var again := platform.PlatformRetry? && x.retries < MAX_CPU_ON_RETRIES;
    (e == ArgumentInvalid <==> !present) &&
    (e == Failure <==> present && (!functional || (off && !platform.PlatformOk? && !again))) &&
    if e != Ok || !off then y == x
    else if platform.PlatformOk? then y == x.(power := Started, pc := Booting, retries := 0)
    else y == x.(timerQueued := true)
  }

  class Power {
    var cpus: seq<CpuState>
    var online: nat
    var running: set<Cpu>
    const present: set<Cpu>
    const functional: set<Cpu>

    function View(): (s: State)
      reads this
    {
      State(cpus, online, running, present, functional)
    }

    /** Cold boot: all CPUs off but the one that boots, which has a vote. */
    constructor (count: nat, boot: Cpu, present: set<Cpu>, functional: set<Cpu>)
      requires boot < count
      ensures Init(View()) && Inv(View())
    {
      this.present, this.functional := present, functional;
      cpus := [];
      online, running := 1, {boot};
      new;
      while |cpus| < count
        invariant |cpus| <= count && online == 1 && running == {boot}
        invariant forall c | 0 <= c < |cpus| :: cpus[c] == if c == boot then BOOT_CPU else OFF_CPU
      {
        cpus := cpus + [if |cpus| == boot then BOOT_CPU else OFF_CPU];
      }
      InitCounts(cpus, boot, |cpus|);
      assert cpus[..|cpus|] == cpus;
    }

    /** Mark the CPU started before the platform call, and undo that unless it worked. */
    method TryOn(c: Cpu, platform: Platform) returns (e: Error)
      requires c < |cpus|
      modifies this`cpus
      ensures |cpus| == |old(cpus)| && cpus == old(cpus)[c := cpus[c]]
      ensures Tried(old(cpus)[c], cpus[c], c in present, c in functional, platform, e)
      ensures cpus == old(cpus)[c := TryCpuOn(old(View()), c, platform).0] && e == TryCpuOn(old(View()), c, platform).1
    {
      assert cpus == cpus[c := cpus[c]];
      if c !in present {
        return ArgumentInvalid;
      }
      if c !in functional {
        return Failure;
      }
      var before := cpus[c].power;
      if before != Off && before != Offline {
        return Ok;
      }
      cpus := cpus[c := cpus[c].(power := Started)];
      if platform == PlatformOk {
        cpus := cpus[c := cpus[c].(pc := Booting, retries := 0)];
        return Ok;
      } else if platform == PlatformRetry && cpus[c].retries < MAX_CPU_ON_RETRIES {
        if !cpus[c].timerQueued {
          cpus := cpus[c := cpus[c].(timerQueued := true)];
        }
        e := Ok;
      } else {
        e := Failure;
      }
      cpus := cpus[c := cpus[c].(power := before)];
    }

    /** `power_vote_cpu_on`: further votes only count; the first one starts the CPU, or
        fails with none added. */
    method VoteCpuOn(c: Cpu, platform: Platform) returns (e: Error)
      requires Inv(View()) && Enabled(View(), VoteOn(c, platform))
      modifies this
      ensures |cpus| == |old(cpus)| && cpus == old(cpus)[c := cpus[c]]
      ensures online == old(online) && running == old(running)
      ensures old(cpus)[c].votes > 0 ==> e == Ok && cpus[c] == old(cpus)[c].(votes := cpus[c].votes)
      ensures old(cpus)[c].votes == 0 ==>
                Tried(old(cpus)[c], cpus[c].(votes := 0), c in present, c in functional, platform, e)
      ensures Apply(old(View()), VoteOn(c, platform)) == Done(View()) && Inv(View())
      ensures e == Ok ==> cpus[c].votes == old(cpus)[c].votes + 1
      ensures e != Ok ==> cpus[c].votes == old(cpus)[c].votes == 0
    {
      StepKeepsInv(View(), VoteOn(c, platform));
      e := Ok;
      if cpus[c].votes == 0 {
        e := TryOn(c, platform);
        if e != Ok {
          return;
        }
      }
      cpus := cpus[c := cpus[c].(votes := cpus[c].votes + 1)];
      assert cpus == old(cpus)[c := cpus[c]];
    }

    /** `power_vote_cpu_off`: one vote less; nothing is retried any more for a CPU
        without votes, and its power state and the other CPUs are left alone. */
    method VoteCpuOff(c: Cpu)
      requires Inv(View()) && Enabled(View(), VoteOff(c))
      modifies this
      ensures |cpus| == |old(cpus)| && cpus == old(cpus)[c := cpus[c]]
      ensures online == old(online) && running == old(running)
      ensures cpus[c].votes == old(cpus)[c].votes - 1
      ensures cpus[c].power == old(cpus)[c].power && cpus[c].pc == old(cpus)[c].pc
      ensures cpus[c].pending == old(cpus)[c].pending
      ensures if cpus[c].votes == 0 then !cpus[c].timerQueued && cpus[c].retries == 0
              else cpus[c].timerQueued == old(cpus)[c].timerQueued && cpus[c].retries == old(cpus)[c].retries
      ensures Apply(old(View()), VoteOff(c)) == Done(View()) && Inv(View())
    {
      StepKeepsInv(View(), VoteOff(c));
      cpus := cpus[c := cpus[c].(votes := cpus[c].votes - 1)];
      if cpus[c].votes == 0 {
        cpus := cpus[c := cpus[c].(retries := 0, timerQueued := false)];
      }
      assert cpus == old(cpus)[c := cpus[c]];
    }

    /** The retry timer's action; it fails if and only if the platform turns the retry down for good. */
    method HandleTimer(c: Cpu, platform: Platform) returns (ok: bool)
      requires Inv(View()) && Enabled(View(), TimerAction(c, platform))
      modifies this
      ensures ok <==> !MayPanic(old(View()), TimerAction(c, platform))
      ensures ok ==> |cpus| == |old(cpus)| && cpus == old(cpus)[c := cpus[c]]
      ensures ok ==> online == old(online) && running == old(running)
      ensures ok && old(cpus)[c].votes == 0 ==> cpus[c] == old(cpus)[c].(pending := old(cpus)[c].pending - 1)
      ensures ok && old(cpus)[c].votes > 0 ==>
                var x := old(cpus)[c];
                Tried(x.(pending := x.pending - 1, retries := x.retries + 1), cpus[c], c in present, c in functional,
                      platform, Ok)
      ensures ok ==> Apply(old(View()), TimerAction(c, platform)) == Done(View()) && Inv(View())
    {
      PanicIff(View(), TimerAction(c, platform));
      if Apply(View(), TimerAction(c, platform)).Done? { StepKeepsInv(View(), TimerAction(c, platform)); }
      var e := Ok;
      cpus := cpus[c := cpus[c].(pending := cpus[c].pending - 1)];
      if cpus[c].votes > 0 {
        cpus := cpus[c := cpus[c].(retries := cpus[c].retries + 1)];
        assert cpus == old(cpus)[c := cpus[c]];
        e := TryOn(c, platform);
        assert cpus == old(cpus)[c := cpus[c]];
      }
      ok := e == Ok;
    }

    /** Warm init of a CPU that comes up; the assertions of the source hold. */
    method HandleWarmInit(c: Cpu)
      requires Inv(View()) && Enabled(View(), WarmInit(c))
      modifies this
      ensures Inv(View()) && cpus == old(cpus)[c := old(cpus)[c].(power := Online, pc := Up)]
      ensures running == old(running) + {c}
      ensures online == old(online) + (if old(cpus)[c].power.Started? then 1 else 0)
    {
      PanicIff(View(), WarmInit(c));
      StepKeepsInv(View(), WarmInit(c));
      var state := cpus[c].power;
      assert state.ColdBoot? || state.Started?;
      cpus := cpus[c := cpus[c].(power := Online, pc := Marking(state))];
      if state == Started {
        online := online + 1;
      }
      MarkRunning(c);
    }

    /** The section of warm init under the system lock. */
    method MarkRunning(c: Cpu)
      requires Inv(View()) && Enabled(View(), WarmMark(c))
      modifies this
      ensures Inv(View()) && online == old(online) && running == old(running) + {c}
      ensures cpus == old(cpus)[c := old(cpus)[c].(pc := Up)]
    {
      PanicIff(View(), WarmMark(c));
      StepKeepsInv(View(), WarmMark(c));
      assert running != {} || cpus[c].pc.from.Started?;
      running := running + {c};
      cpus := cpus[c := cpus[c].(pc := Up)];
    }

    /** The first part of the idle handler: give up the CPU's place in the counter,
        if and only if another one is running or the system may go idle. */
    method BeginLeave(c: Cpu, mayIdle: bool) returns (leaving: bool)
      requires Inv(View()) && Enabled(View(), IdleOff(c, mayIdle))
      modifies this
      ensures Apply(old(View()), IdleOff(c, mayIdle)) == Done(View()) && Inv(View())
      ensures !leaving <==> old(running) <= {c} && !mayIdle
      ensures !leaving ==> View() == old(View())
      ensures leaving ==> cpus == old(cpus)[c := old(cpus)[c].(pc := Leaving)] && running == old(running) - {c} &&
                          online == old(online) - 1
    {
      PanicIff(View(), IdleOff(c, mayIdle));
      StepKeepsInv(View(), IdleOff(c, mayIdle));
      assert CpuOk(View(), c);
      running := running - {c};
      if running == {} && !mayIdle {
        running := running + {c};
        assert running == old(running);
        return false;
      }
      assert cpus[c].power.Online?;
      online := online - 1;
      cpus := cpus[c := cpus[c].(pc := Leaving)];
      return true;
    }

    /** The second part, once the counter is not zero: another CPU stays. */
    method FinishLeave(c: Cpu)
      requires Inv(View()) && Enabled(View(), Leave(c))
      modifies this
      ensures Apply(old(View()), Leave(c)) == Done(View()) && Inv(View())
      ensures cpus == old(cpus)[c := old(cpus)[c].(power := Offline, pc := Stopping)]
      ensures online == old(online) && running == old(running)
      ensures exists d | 0 <= d < |cpus| :: d != c && Counted(cpus[d]) == 1
    {
      StepKeepsInv(View(), Leave(c));
      SomeoneCounted(cpus);
      ghost var d :| 0 <= d < |cpus| && Counted(cpus[d]) == 1;
      assert CpuOk(View(), c);
      cpus := cpus[c := cpus[c].(power := Offline, pc := Stopping)];
      assert Counted(cpus[d]) == 1;
    }
  }
}
