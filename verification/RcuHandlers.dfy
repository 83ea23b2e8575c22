/** The handlers of `rcu_bitmap.c` as imperative code over one mutable RCU state.

    Other CPUs run between any two atomic accesses of a handler: `others` lists,
    access by access, what they do there. Each handler is proved to be a path of
    the protocol of `RcuProtocol`, so everything proved of its runs holds of the
    code, and to return with its own CPU at rest. */
module RcuHandlers {
  import opened Outcomes
  import opened Sums
  import opened RcuProtocol
  import opened RcuSafety

  /** The lists of a batch one class after the other, the order callbacks run in. */
  function InOrder(b: Batch): (q: seq<Update>) {
    if b == [] then [] else b[0] + InOrder(b[1..])
  }

  lemma {:induction false} InOrderLength(b: Batch)
    ensures |InOrder(b)| == BatchHits(b, None)
  {
    if b != [] {
      InOrderLength(b[1..]);
      SumHead(b, HitsOf(None));
    }
  }

  /** `ran` followed by the classes of `b` from `k` on makes up `all`. */
  ghost predicate Remaining(ran: seq<Update>, b: Batch, k: nat, all: seq<Update>) {
    k <= |b| && ran + InOrder(b[k..]) == all
  }

  lemma RemainingNext(ran: seq<Update>, b: Batch, k: nat, all: seq<Update>)
    requires Remaining(ran, b, k, all) && k < |b|
    ensures Remaining(ran + b[k], b, k + 1, all)
  {
    assert b[k..][1..] == b[k + 1..];
  }

  /** The list of class `cls` has been detached and run. */
  ghost predicate ClassRan(s: State, t: State, c: Cpu, cls: nat) {
    SameBut(s, t, c) && cls < |s.cpus[c].ready| && t.cpus[c].ready == s.cpus[c].ready[cls := []] &&
    t.executed == s.executed + s.cpus[c].ready[cls] &&
    t.cpus[c].pc == Updating(cls, [], Finished(s.cpus[c].pc) + |s.cpus[c].ready[cls]|)
  }

  /** From `s` on, the classes up to `cls` have run and the rest of `goal` is still listed. */
  ghost predicate RanUpTo(s: State, t: State, c: Cpu, cls: nat, goal: seq<Update>) {
    SameBut(s, t, c) && |s.executed| <= |t.executed| &&
    cls < |s.cpus[c].ready| == |t.cpus[c].ready| && t.cpus[c].pc == Updating(cls, [], |t.executed| - |s.executed|) &&
    (forall k | cls < k < |s.cpus[c].ready| :: t.cpus[c].ready[k] == s.cpus[c].ready[k]) &&
    Remaining(t.executed, s.cpus[c].ready, cls + 1, goal)
  }

  lemma RanOn(s: State, t: State, u: State, c: Cpu, cls: nat, goal: seq<Update>)
    requires RanUpTo(s, t, c, cls, goal) && ClassRan(t, u, c, cls + 1)
    ensures RanUpTo(s, u, c, cls + 1, goal)
  {
    RemainingNext(t.executed, s.cpus[c].ready, cls + 1, goal);
    assert u.cpus == s.cpus[c := u.cpus[c]];
  }

  lemma RanFirst(s: State, t: State, c: Cpu, goal: seq<Update>)
    requires ClassRan(s, t, c, 0) && s.cpus[c].pc.AtRest? && goal == s.executed + InOrder(s.cpus[c].ready)
    ensures RanUpTo(s, t, c, 0, goal)
  {
    assert s.cpus[c].ready[0..] == s.cpus[c].ready;
    RemainingNext(s.executed, s.cpus[c].ready, 0, goal);
  }

  /** Some class of the batch has an update. */
  predicate SomeUpdates(batch: seq<seq<Update>>) {
    exists k | 0 <= k < |batch| :: batch[k] != []
  }

  /** The waiting updates are ready now, the next ones wait, and there are no next ones;
      none is lost or counted again. */
  ghost predicate Shifted(x: CpuState, y: CpuState) {
    y.ready == x.waiting && y.waiting == x.next && |y.next| == |x.next| && !SomeUpdates(y.next) &&
    (y.readyUpdates <==> SomeUpdates(x.waiting)) && y.updateCount == x.updateCount
  }

  /** All lists of a CPU move up by one batch. */
  method ShiftBatches(x: CpuState) returns (my: CpuState, waitingUpdates: bool)
    requires |x.next| == |x.waiting| == |x.ready| && !x.readyUpdates
    requires forall k | 0 <= k < |x.ready| :: x.ready[k] == []
    ensures my == x.(next := EmptyBatch(|x.next|), waiting := x.next, ready := x.waiting,
                     readyUpdates := my.readyUpdates)
    ensures my.readyUpdates <==> exists k | 0 <= k < |x.waiting| :: x.waiting[k] != []
    ensures waitingUpdates <==> exists k | 0 <= k < |x.next| :: x.next[k] != []
  {
    my := x;
    waitingUpdates := false;
    for cls := 0 to |my.next|
      invariant |my.next| == |my.waiting| == |my.ready| == |x.next|
      invariant forall k | 0 <= k < cls :: my.ready[k] == x.waiting[k] && my.waiting[k] == x.next[k] && my.next[k] == []
      invariant forall k | cls <= k < |x.next| :: my.ready[k] == [] && my.waiting[k] == x.waiting[k] &&
                                                  my.next[k] == x.next[k]
      invariant my.readyUpdates <==> exists k | 0 <= k < cls :: x.waiting[k] != []
      invariant waitingUpdates <==> exists k | 0 <= k < cls :: x.next[k] != []
      invariant my == x.(next := my.next, waiting := my.waiting, ready := my.ready, readyUpdates := my.readyUpdates)
    {
      assert my.ready[cls] == [];
      var waitingHead, nextHead := my.waiting[cls], my.next[cls];
      if waitingHead != [] {
        my := my.(readyUpdates := true);
      }
      if nextHead != [] {
        waitingUpdates := true;
      }
      my := my.(next := my.next[cls := []], waiting := my.waiting[cls := nextHead],
                ready := my.ready[cls := waitingHead]);
    }
    assert my.ready == x.waiting && my.waiting == x.next && my.next == EmptyBatch(|x.next|);
  }

  lemma OnlyGrows(s: State, step: Step)
    requires Enabled(s, step)
    ensures s.maxTarget <= Apply(s, step).maxTarget && s.executed <= Apply(s, step).executed
    ensures |Apply(s, step).cpus| == |s.cpus|
    ensures Apply(s, step).cpus == s.cpus[step.cpu := Apply(s, step).cpus[step.cpu]]
    ensures forall c | c != step.cpu :: c in Apply(s, step).active <==> c in s.active
  {
  }

  /** `u` is new and pending exactly once, and every other update is where it was. */
  ghost predicate Queued(s: State, t: State, u: Update) {
    u !in s.enqueued && t.enqueued == s.enqueued + [u] && Pending(t.cpus, Some(u)) == 1 && t.executed == s.executed &&
    forall v | v != u :: Pending(t.cpus, Some(v)) == Pending(s.cpus, Some(v))
  }

  lemma EnqueueQueues(s: State, c: Cpu, cls: nat)
    requires Accounting(s) && Enabled(s, RcuProtocol.Enqueue(c, cls))
    ensures Accounting(DoEnqueue(s, c, cls))
    ensures Queued(s, DoEnqueue(s, c, cls), Update(|s.enqueued|, OpenSections(s), cls))
  {
    var t, u := DoEnqueue(s, c, cls), Update(|s.enqueued|, OpenSections(s), cls);
    EnqueueAccounting(s, c, cls);
    forall v | v != u ensures Pending(t.cpus, Some(v)) == Pending(s.cpus, Some(v)) {
      assert Conserved(s, Some(v)) && Conserved(t, Some(v));
    }
    IdsAreUnique(s.enqueued, u);
    assert Conserved(s, Some(u)) && Conserved(t, Some(u));
  }

  /** How an exchange of CPU `c` on period `seen` leaves the period. */
  predicate Ended(p: Period, newPeriod: bool, seen: Period, c: Cpu) {
    if newPeriod then p.generation == seen.generation + 1 && seen.waitingFor <= {c}
    else p == Period(seen.generation, seen.waitingFor - {c})
  }

  class Rcu {
    var period: Period
    var active: set<Cpu>
    var maxTarget: nat
    var waiterCount: nat
    var cpus: seq<CpuState>
    var sections: nat
    var enqueued: seq<Update>
    var executed: seq<Update>
    var served: seq<nat>

    function View(): (s: State)
      reads this
    {
      State(period, active, maxTarget, waiterCount, cpus, sections, enqueued, executed, served)
    }

    /** A step of another CPU. */
    method Step(step: Step)
      requires Enabled(View(), step)
      modifies this
      ensures View() == Apply(old(View()), step)
    {
      var s := Apply(View(), step);
      period, active, maxTarget, waiterCount := s.period, s.active, s.maxTarget, s.waiterCount;
      cpus, sections, enqueued, executed, served := s.cpus, s.sections, s.enqueued, s.executed, s.served;
    }

    /** The other CPUs take whichever of the steps listed for access `k` they can. */
    method Interfere(c: Cpu, others: seq<seq<Step>>, k: nat, ghost s0: State)
      requires c < |cpus| && Leads(s0, View())
      modifies this
      ensures |cpus| == old(|cpus|) && cpus[c] == old(cpus[c]) && Leads(s0, View())
      ensures old(maxTarget) <= maxTarget && old(executed) <= executed && (c in active <==> c in old(active))
      ensures k >= |others| ==> View() == old(View())
    {
      if k < |others| {
        for i := 0 to |others[k]|
          invariant |cpus| == old(|cpus|) && cpus[c] == old(cpus[c]) && Leads(s0, View())
          invariant old(maxTarget) <= maxTarget && old(executed) <= executed && (c in active <==> c in old(active))
        {
          if others[k][i].cpu != c && Enabled(View(), others[k][i]) {
            LeadsOn(s0, View(), others[k][i]);
            OnlyGrows(View(), others[k][i]);
            Step(others[k][i]);
          }
        }
      }
    }

    /** Records how far CPU `c` has come in its handler. */
    method MoveTo(c: Cpu, pc: Pc)
      requires c < |cpus|
      modifies this`cpus
      ensures cpus == old(cpus)[c := old(cpus)[c].(pc := pc)]
    {
      cpus := cpus[c := cpus[c].(pc := pc)];
    }

    method LoadPeriod(c: Cpu) returns (seen: Period)
      requires Enabled(View(), QuiesceLoad(c))
      modifies this`cpus
      ensures View() == Apply(old(View()), QuiesceLoad(c)) && seen == period
    {
      seen := period;
      MoveTo(c, QuiesceLoaded(seen));
    }

    /** Acknowledge the period seen, and load `max_target` if that leaves no CPU to wait for. */
    method Acknowledge(c: Cpu, seen: Period) returns (wantsNew: bool, next: Period)
      requires c < |cpus| && cpus[c].pc == QuiesceLoaded(seen)
      modifies this`cpus
      ensures View() == Apply(old(View()), QuiesceDecide(c))
      ensures cpus[c].pc == if wantsNew then QuiesceWantsNew(seen) else QuiesceReady(seen, next, false)
    {
      next := seen.(waitingFor := seen.waitingFor - {c});
      wantsNew := false;
      if next.waitingFor == {} {
        wantsNew := maxTarget != seen.generation;
      }
      MoveTo(c, if wantsNew then QuiesceWantsNew(seen) else QuiesceReady(seen, next, false));
    }

    method LoadActive(c: Cpu, seen: Period) returns (next: Period)
      requires c < |cpus| && cpus[c].pc == QuiesceWantsNew(seen)
      modifies this`cpus
      ensures View() == Apply(old(View()), QuiesceReadActive(c)) && cpus[c].pc == QuiesceReady(seen, next, true)
    {
      next := Period(seen.generation + 1, active);
      MoveTo(c, QuiesceReady(seen, next, true));
    }

    method ExchangePeriod(c: Cpu, expected: Period, next: Period) returns (success: bool, seen: Period)
      requires c < |cpus| && cpus[c].pc.QuiesceReady? && cpus[c].pc.seen == expected && cpus[c].pc.next == next
      modifies this`cpus, this`period
      ensures View() == Apply(old(View()), QuiesceExchange(c))
      ensures success <==> old(period) == expected
      ensures cpus[c].pc == (if success then AtRest else QuiesceLoaded(seen)) && seen == period
    {
      success := period == expected;
      if success {
        period := next;
      }
      seen := period;
      MoveTo(c, if success then AtRest else QuiesceLoaded(seen));
    }

    /** Decide what to exchange the period that was seen for. */
    method ProposePeriod(c: Cpu, current: Period, others: seq<seq<Step>>, k: nat, ghost s0: State)
      returns (newPeriod: bool, next: Period)
      requires c < |cpus| && cpus[c].pc == QuiesceLoaded(current) && Leads(s0, View())
      modifies this
      ensures |cpus| == old(|cpus|) && Leads(s0, View()) && (c in active <==> c in old(active)) &&
              cpus[c] == old(cpus[c]).(pc := QuiesceReady(current, next, newPeriod))
      ensures Ended(next, newPeriod, current, c)
      ensures k >= |others| ==> period == old(period) && (current == period ==> next == Quiesced(old(View()), c))
    {
      Interfere(c, others, k, s0);
      LeadsOn(s0, View(), QuiesceDecide(c));
      newPeriod, next := Acknowledge(c, current);
      if newPeriod {
        Interfere(c, others, k + 1, s0);
        LeadsOn(s0, View(), QuiesceReadActive(c));
        next := LoadActive(c, current);
      }
    }

    /** One pass of the loop of `rcu_bitmap_quiesce`. Its exchange, made on the period
        `found`, succeeds if and only if that is still the one the pass started from. */
    method QuiescePass(c: Cpu, current: Period, others: seq<seq<Step>>, k: nat, ghost s0: State)
      returns (exchanged: bool, newPeriod: bool, seen: Period, ghost found: Period)
      requires c < |cpus| && cpus[c].pc == QuiesceLoaded(current) && Leads(s0, View()) &&
               (k >= |others| ==> current == period)
      modifies this
      ensures |cpus| == old(|cpus|) && Leads(s0, View()) && (c in active <==> c in old(active)) &&
              cpus[c] == old(cpus[c]).(pc := if exchanged then AtRest else QuiesceLoaded(seen))
      ensures exchanged <==> found == current
      ensures if exchanged then Ended(period, newPeriod, current, c) else period == found
      ensures seen == period && (k >= |others| ==> exchanged && period == Quiesced(old(View()), c))
    {
      var next;
      newPeriod, next := ProposePeriod(c, current, others, k, s0);
      Interfere(c, others, k + 2, s0);
      found := period;
      LeadsOn(s0, View(), QuiesceExchange(c));
      exchanged, seen := ExchangePeriod(c, current, next);
    }

    /** `rcu_bitmap_quiesce` up to its successful exchange. The CPU has acknowledged the
        period `seen`, or, as the last one to do so, has started the next. */
    method Quiesce(c: Cpu, others: seq<seq<Step>>) returns (newPeriod: bool, ghost seen: Period)
      requires Enabled(View(), QuiesceLoad(c))
      modifies this
      ensures |cpus| == old(|cpus|) && cpus[c] == old(cpus[c]) && Leads(old(View()), View())
      ensures Ended(period, newPeriod, seen, c) && (c in active <==> c in old(active))
      ensures others == [] ==> period == Quiesced(old(View()), c)
    {
      ghost var s0 := View();
      LeadsToSelf(s0);
      LeadsOn(s0, s0, QuiesceLoad(c));
      var current := LoadPeriod(c);
      seen := current;
      var k := 0;
      var exchanged := false;
      newPeriod := false;
      while !exchanged
        invariant |cpus| == |s0.cpus| && Leads(s0, View()) && (c in active <==> c in s0.active)
        invariant cpus[c] == s0.cpus[c].(pc := if exchanged then AtRest else QuiesceLoaded(current))
        invariant !exchanged ==> current == period
        invariant exchanged ==> Ended(period, newPeriod, seen, c)
        invariant others == [] ==> if exchanged then period == Quiesced(s0, c)
                                   else period == s0.period && maxTarget == s0.maxTarget && active == s0.active
        decreases !exchanged, if k < |others| then |others| - k else 0
      {
        seen := current;
        ghost var found;
        exchanged, newPeriod, current, found := QuiescePass(c, current, others, k, s0);
        k := k + 3;
      }
    }

    /** Push an entry to the head of its class and count it. */
    method PushEntry(c: Cpu, cls: nat)
      requires Enabled(View(), RcuProtocol.Enqueue(c, cls))
      modifies this
      ensures View() == DoEnqueue(old(View()), c, cls)
    {
      var my := cpus[c];
      var entry := Update(|enqueued|, OpenSections(View()), cls);
      if my.updateCount == 0 {
        waiterCount := waiterCount + 1;
      }
      my := my.(updateCount := my.updateCount + 1);
      my := my.(next := my.next[cls := [entry] + my.next[cls]]);
      cpus := cpus[c := my];
      enqueued := enqueued + [entry];
    }

    /** `rcu_enqueue`. The new entry has every open section to wait for, is at the head
        of the list of its class, and is pending exactly once; no other update is moved,
        and the counts stay exact. */
    method Enqueue(c: Cpu, cls: nat)
      requires Enabled(View(), RcuProtocol.Enqueue(c, cls)) && Accounting(View())
      modifies this
      ensures Accounting(View()) && Leads(old(View()), View())
      ensures |cpus| == old(|cpus|) && cpus == old(cpus)[c := cpus[c]] && cls < |cpus[c].next|
      ensures var entry := Update(old(|enqueued|), OpenSections(old(View())), cls);
              cpus[c].next == old(cpus)[c].next[cls := [entry] + old(cpus)[c].next[cls]]
      ensures cpus[c] == old(cpus)[c].(next := cpus[c].next, updateCount := old(cpus)[c].updateCount + 1)
      ensures Queued(old(View()), View(), Update(old(|enqueued|), OpenSections(old(View())), cls))
      ensures period == old(period) && active == old(active) && maxTarget == old(maxTarget)
    {
      ghost var s0 := View();
      LeadsToSelf(s0);
      LeadsOn(s0, s0, RcuProtocol.Enqueue(c, cls));
      EnqueueQueues(s0, c, cls);
      PushEntry(c, cls);
    }

    /** `rcu_bitmap_activate_cpu`, which may be called on a CPU that is already active
        and then changes nothing. The current period does not begin to wait for the CPU. */
    method ActivateCpu(c: Cpu)
      requires Enabled(View(), Activate(c)) && (cpus[c].isActive ==> c in active)
      modifies this
      ensures View() == Apply(old(View()), Activate(c))
      ensures cpus == old(cpus)[c := old(cpus)[c].(isActive := true)] && active == old(active) + {c}
      ensures period == old(period) && maxTarget == old(maxTarget) && waiterCount == old(waiterCount)
      ensures old(cpus)[c].isActive ==> View() == old(View())
    {
      if !cpus[c].isActive {
        cpus := cpus[c := cpus[c].(isActive := true)];
        active := active + {c};
      }
      assert cpus[c := cpus[c].(isActive := true)] == cpus && active + {c} == active;
    }

    /** `rcu_bitmap_deactivate_cpu`: leave the active set, then quiesce. */
    method DeactivateCpu(c: Cpu, others: seq<seq<Step>>) returns (newPeriod: bool, ghost seen: Period)
      requires Enabled(View(), Deactivate(c)) && (c in active ==> cpus[c].isActive)
      modifies this
      ensures |cpus| == old(|cpus|) && cpus[c] == old(cpus[c]).(isActive := false) && c !in active
      ensures Leads(old(View()), View()) && Ended(period, newPeriod, seen, c)
      ensures others == [] ==> period == Quiesced(old(View()).(active := old(active) - {c}), c)
    {
      ghost var s0 := View();
      if cpus[c].isActive {
        cpus := cpus[c := cpus[c].(isActive := false)];
        active := active - {c};
      }
      assert View() == Apply(s0, Deactivate(c)) by {
        assert s0.cpus[c := s0.cpus[c].(isActive := false)] == cpus && s0.active - {c} == active;
      }
      LeadsToSelf(s0);
      LeadsOn(s0, s0, Deactivate(c));
      ghost var s1 := View();
      newPeriod, seen := Quiesce(c, others);
      LeadsJoin(s0, s1, View());
    }

    method StoreTarget(c: Cpu, currentGen: nat) returns (target: nat)
      requires c < |cpus| && cpus[c].pc == Requesting(currentGen)
      modifies this`cpus
      ensures View() == Apply(old(View()), RequestStore(c)) && target == currentGen + 2
    {
      target := currentGen + 2;
      cpus := cpus[c := cpus[c].(target := target, pc := RequestStored(target))];
    }

    method RecheckPeriod(c: Cpu, target: nat) returns (unmet: bool)
      requires c < |cpus| && cpus[c].pc == RequestStored(target)
      modifies this`cpus
      ensures View() == Apply(old(View()), RequestRecheck(c)) && unmet == (period.generation < target)
    {
      unmet := period.generation < target;
      MoveTo(c, if unmet then RequestUnmet(target) else AtRest);
    }

    method LoadMaxTarget(c: Cpu, target: nat) returns (oldMax: nat)
      requires c < |cpus| && cpus[c].pc == RequestUnmet(target)
      modifies this`cpus
      ensures View() == Apply(old(View()), RequestReadMax(c)) && oldMax == maxTarget
    {
      oldMax := maxTarget;
      MoveTo(c, RequestLoop(target, oldMax));
    }

    /** One pass of the loop on `max_target`; the weak exchange may fail spuriously. */
    method TryRaiseMax(c: Cpu, target: nat, expected: nat, miss: bool) returns (settled: bool, oldMax: nat)
      requires c < |cpus| && cpus[c].pc == RequestLoop(target, expected)
      modifies this`cpus, this`maxTarget
      ensures View() == Apply(old(View()), RequestExchange(c, miss))
      ensures cpus[c].pc == (if settled then AtRest else RequestLoop(target, oldMax))
      ensures settled || (oldMax == maxTarget == old(maxTarget) && (miss || old(maxTarget) != expected))
      ensures settled && expected <= old(maxTarget) ==> target <= maxTarget
      ensures settled <==> target < expected || (!miss && old(maxTarget) == expected)
      ensures maxTarget == if settled && target >= expected then target else old(maxTarget)
    {
      oldMax, settled := expected, true;
      if target >= oldMax {
        if maxTarget == oldMax && !miss {
          maxTarget := target;
        } else {
          oldMax, settled := maxTarget, false;
        }
      }
      MoveTo(c, if settled then AtRest else RequestLoop(target, oldMax));
    }

    /** `rcu_bitmap_request_grace_period`: publish the target and raise the global
        one to it, unless the target has been reached meanwhile. */
    method RequestGracePeriod(c: Cpu, currentGen: nat, others: seq<seq<Step>>, spurious: nat)
      requires c < |cpus| && cpus[c].pc == Requesting(currentGen)
      modifies this
      ensures |cpus| == old(|cpus|) && Leads(old(View()), View()) && old(executed) <= executed
      ensures cpus[c] == old(cpus[c]).(target := currentGen + 2, pc := AtRest)
      ensures currentGen + 2 <= maxTarget || currentGen + 2 <= period.generation
    {
      ghost var s0 := View();
      LeadsToSelf(s0);
      LeadsOn(s0, s0, RequestStore(c));
      var target := StoreTarget(c, currentGen);
      Interfere(c, others, 0, s0);
      LeadsOn(s0, View(), RequestRecheck(c));
      var unmet := RecheckPeriod(c, target);
      if unmet {
        Interfere(c, others, 1, s0);
        LeadsOn(s0, View(), RequestReadMax(c));
        var oldMax := LoadMaxTarget(c, target);
        RaiseMaxTarget(c, target, oldMax, others, 2, spurious, s0);
      }
    }

    method RaiseMaxTarget(c: Cpu, target: nat, max: nat, others: seq<seq<Step>>, first: nat, spurious: nat,
                          ghost s0: State)
      requires c < |cpus| && cpus[c].pc == RequestLoop(target, max) && max == maxTarget && Leads(s0, View())
      modifies this
      ensures |cpus| == old(|cpus|) && Leads(s0, View()) && cpus[c] == old(cpus[c]).(pc := AtRest)
      ensures target <= maxTarget && old(executed) <= executed
    {
      var k: nat, misses: nat, oldMax, settled := first, spurious, max, false;
      while !settled
        invariant |cpus| == old(|cpus|) && Leads(s0, View())
        invariant cpus[c] == old(cpus[c]).(pc := if settled then AtRest else RequestLoop(target, oldMax))
        invariant !settled ==> oldMax == maxTarget
        invariant settled ==> target <= maxTarget
        invariant old(executed) <= executed
        decreases !settled, (if k < |others| then |others| - k else 0), misses
      {
        Interfere(c, others, k, s0);
        var miss := misses > 0;
        LeadsOn(s0, View(), RequestExchange(c, miss));
        settled, oldMax := TryRaiseMax(c, target, oldMax, miss);
        k, misses := k + 1, if miss then misses - 1 else misses;
      }
    }

    /** Detach the list of class `cls` from the ready batch, to be run next. */
    method DetachClass(c: Cpu, cls: nat)
      requires (cls == 0 && Enabled(View(), UpdateBegin(c))) ||
               (Enabled(View(), UpdateNextClass(c)) && cls == cpus[c].pc.cls + 1)
      modifies this`cpus
      ensures View() == Apply(old(View()), if cls == 0 then UpdateBegin(c) else UpdateNextClass(c))
    {
      var my := cpus[c];
      var head := my.ready[cls];
      my := my.(ready := my.ready[cls := []]);
      cpus := cpus[c := my.(pc := Updating(cls, head, Finished(my.pc)))];
    }

    /** What a callback enqueues on its own CPU. */
    method EnqueueAll(c: Cpu, classes: seq<nat>, ghost s0: State)
      requires c < |cpus| && cpus[c].pc.Updating? && Leads(s0, View())
      modifies this
      ensures Leads(s0, View()) && SameBut(old(View()), View(), c)
      ensures cpus[c].pc == old(cpus[c].pc) && cpus[c].ready == old(cpus[c].ready) && executed == old(executed)
    {
      for i := 0 to |classes|
        invariant Leads(s0, View()) && SameBut(old(View()), View(), c)
        invariant cpus[c].pc == old(cpus[c].pc) && cpus[c].ready == old(cpus[c].ready) && executed == old(executed)
      {
        if classes[i] < |cpus[c].next| {
          LeadsOn(s0, View(), RcuProtocol.Enqueue(c, classes[i]));
          PushEntry(c, classes[i]);
        }
      }
    }

    /** Run the callback of the first detached entry; `work` lists the update classes
        it enqueues new updates in. */
    method RunCallback(c: Cpu, work: Update -> seq<nat>, ghost s0: State)
      requires Enabled(View(), UpdateRun(c)) && Leads(s0, View())
      modifies this
      ensures Leads(s0, View()) && SameBut(old(View()), View(), c)
      ensures cpus[c].pc == old(cpus[c].pc.(rest := cpus[c].pc.rest[1..], done := cpus[c].pc.done + 1))
      ensures cpus[c].ready == old(cpus[c].ready) && executed == old(executed) + [old(cpus[c].pc.rest[0])]
    {
      LeadsOn(s0, View(), UpdateRun(c));
      var entry := CallFirst(c);
      EnqueueAll(c, work(entry), s0);
    }

    /** Call the handler of the class being run for the first detached entry. */
    method CallFirst(c: Cpu) returns (entry: Update)
      requires Enabled(View(), UpdateRun(c))
      modifies this
      ensures entry == old(cpus[c].pc.rest[0]) && View() == Apply(old(View()), UpdateRun(c))
    {
      var pc := cpus[c].pc;
      entry := pc.rest[0];
      cpus := cpus[c := cpus[c].(pc := pc.(rest := pc.rest[1..], done := pc.done + 1))];
      executed, served := executed + [entry], served + [pc.cls];
    }

    /** Subtract the callbacks that ran; the last update of a CPU takes it off the waiters. */
    method FinishUpdate(c: Cpu)
      requires Enabled(View(), UpdateEnd(c))
      modifies this
      ensures View() == Apply(old(View()), UpdateEnd(c))
      ensures var x := old(cpus)[c];
              cpus == old(cpus)[c := x.(updateCount := x.updateCount - x.pc.done, readyUpdates := false,
                                        pc := AtRest)] &&
              waiterCount == old(waiterCount) - if 0 < x.pc.done == x.updateCount then 1 else 0
    {
      var my := cpus[c];
      var updateCount := my.pc.done;
      if updateCount != 0 {
        if my.updateCount == updateCount {
          waiterCount := waiterCount - 1;
        }
        my := my.(updateCount := my.updateCount - updateCount);
      }
      cpus := cpus[c := my.(readyUpdates := false, pc := AtRest)];
    }

    /** Run the detached list to its end. */
    method RunList(c: Cpu, work: Update -> seq<nat>, ghost s0: State)
      requires c < |cpus| && cpus[c].pc.Updating? && Leads(s0, View())
      modifies this
      ensures Leads(s0, View()) && SameBut(old(View()), View(), c)
      ensures cpus[c].pc == old(cpus[c].pc.(rest := [], done := cpus[c].pc.done + |cpus[c].pc.rest|))
      ensures cpus[c].ready == old(cpus[c].ready) && executed == old(executed) + old(cpus[c].pc.rest)
    {
      ghost var pc0 := cpus[c].pc;
      ghost var i := 0;
      while cpus[c].pc.rest != []
        invariant Leads(s0, View()) && SameBut(old(View()), View(), c)
        invariant i <= |pc0.rest| && cpus[c].pc == pc0.(rest := pc0.rest[i..], done := pc0.done + i)
        invariant cpus[c].ready == old(cpus[c].ready) && executed == old(executed) + pc0.rest[..i]
        decreases |cpus[c].pc.rest|
      {
        RunCallback(c, work, s0);
        i := i + 1;
      }
    }

    /** Detach and run the list of one class. */
    method RunClass(c: Cpu, cls: nat, work: Update -> seq<nat>, ghost s0: State)
      requires c < |cpus| && cls < |cpus[c].ready| && Leads(s0, View())
      requires if cls == 0 then cpus[c].pc.AtRest? && cpus[c].readyUpdates
               else cpus[c].pc.Updating? && cpus[c].pc.rest == [] && cls == cpus[c].pc.cls + 1
      modifies this
      ensures Leads(s0, View()) && ClassRan(old(View()), View(), c, cls)
    {
      LeadsOn(s0, View(), if cls == 0 then UpdateBegin(c) else UpdateNextClass(c));
      DetachClass(c, cls);
      RunList(c, work, s0);
    }

    /** Run everything that is ready, class by class, each list in order. */
    method RunClasses(c: Cpu, work: Update -> seq<nat>, ghost s0: State)
      requires c < |cpus| && cpus[c].pc.AtRest? && cpus[c].readyUpdates && cpus[c].ready != [] && Leads(s0, View())
      modifies this
      ensures Leads(s0, View()) && SameBut(old(View()), View(), c)
      ensures cpus[c].pc.Updating? && cpus[c].pc.rest == [] && cpus[c].pc.cls + 1 == |cpus[c].ready|
      ensures executed == old(executed) + InOrder(old(cpus[c].ready))
      ensures |executed| == old(|executed|) + cpus[c].pc.done
    {
      ghost var goal := executed + InOrder(cpus[c].ready);
      RunClass(c, 0, work, s0);
      RanFirst(old(View()), View(), c, goal);
      var cls := 0;
      while cls + 1 < |cpus[c].ready|
        invariant 0 <= cls && Leads(s0, View()) && RanUpTo(old(View()), View(), c, cls, goal)
      {
        ghost var mid := View();
        RunClass(c, cls + 1, work, s0);
        RanOn(old(View()), mid, View(), c, cls, goal);
        cls := cls + 1;
      }
    }

    /** `rcu_bitmap_update`: the ready batch runs class by class. By `RcuClasses` that is
        the class each entry was enqueued in. */
    method RunReady(c: Cpu, work: Update -> seq<nat>)
      requires c < |cpus| && cpus[c].pc.AtRest? && Accounting(View())
      modifies this
      ensures Leads(old(View()), View()) && SameBut(old(View()), View(), c)
      ensures cpus[c].pc.AtRest? && !cpus[c].readyUpdates
      ensures executed == old(executed) + InOrder(old(cpus[c].ready))
    {
      ghost var s0 := View();
      LeadsToSelf(s0);
      InOrderLength(cpus[c].ready);
      if cpus[c].readyUpdates {
        RunClasses(c, work, s0);
        LeadsInvariant(s0, View());
        UpdateEndIsEnabled(View(), c);
        LeadsOn(s0, View(), UpdateEnd(c));
        FinishUpdate(c);
      }
    }

    /** Shift the batches of a CPU whose awaited generation has been reached. */
    method AdvanceBatches(c: Cpu) returns (waitingUpdates: bool)
      requires Enabled(View(), Notify(c)) && Accounted(cpus[c])
      modifies this`cpus
      ensures |cpus| == |old(cpus)| && cpus == old(cpus)[c := cpus[c]]
      ensures Shifted(old(cpus[c]), cpus[c]) && cpus[c].target == old(cpus[c].target)
      ensures waitingUpdates <==> SomeUpdates(old(cpus[c].next))
      ensures View() == Apply(old(View()), Notify(c)) && waitingUpdates == cpus[c].pc.Requesting?
    {
      BatchEmpty(cpus[c].ready);
      var my;
      my, waitingUpdates := ShiftBatches(cpus[c]);
      cpus := cpus[c := my.(pc := if waitingUpdates then Requesting(period.generation) else AtRest)];
    }

    /** Shift the batches and ask for a new period if updates are waiting now. */
    method AdvanceAndRequest(c: Cpu, others: seq<seq<Step>>, spurious: nat)
      requires Enabled(View(), Notify(c)) && Accounted(cpus[c])
      modifies this
      ensures Leads(old(View()), View()) && |cpus| == old(|cpus|) && cpus[c].pc.AtRest?
      ensures Shifted(old(cpus[c]), cpus[c]) && old(executed) <= executed
      ensures cpus[c].target == if SomeUpdates(old(cpus[c].next)) then old(period.generation) + 2
                                else old(cpus[c].target)
    {
      ghost var s0 := View();
      LeadsToSelf(s0);
      var currentGen := period.generation;
      LeadsOn(s0, s0, Notify(c));
      var waitingUpdates := AdvanceBatches(c);
      if waitingUpdates {
        ghost var s1 := View();
        RequestGracePeriod(c, currentGen, others, spurious);
        LeadsJoin(s0, s1, View());
      }
    }

    /** `rcu_bitmap_notify`: run what is ready, then advance the batches if the awaited
        generation has been reached, and request a new period for what is now waiting. */
    method NotifyCpu(c: Cpu, work: Update -> seq<nat>, others: seq<seq<Step>>, spurious: nat)
      returns (advanced: bool, ghost checked: State)
      requires c < |cpus| && cpus[c].pc.AtRest? && Accounting(View())
      modifies this
      ensures Leads(old(View()), View()) && |cpus| == old(|cpus|) && cpus[c].pc.AtRest?
      ensures old(cpus[c].updateCount) == 0 ==> View() == old(View()) && !advanced
      ensures old(cpus[c].updateCount) != 0 ==> old(executed) + InOrder(old(cpus[c].ready)) <= executed
      ensures Leads(old(View()), checked) && Leads(checked, View()) && |checked.cpus| == |cpus|
      ensures checked.cpus[c].waiting == old(cpus[c].waiting) &&
              if advanced then Shifted(checked.cpus[c], cpus[c]) else cpus[c] == checked.cpus[c]
      ensures advanced ==> cpus[c].target == if SomeUpdates(checked.cpus[c].next) then checked.period.generation + 2
                                             else old(cpus[c].target)
      ensures checked.cpus[c].target == old(cpus[c].target) && (others == [] ==> checked.period == old(period))
      ensures advanced <==> old(cpus[c].updateCount) != 0 && old(cpus[c].target) <= checked.period.generation
    {
      ghost var s0 := View();
      LeadsToSelf(s0);
      checked := s0;
      if cpus[c].updateCount == 0 {
        return false, checked;
      }
      RunReady(c, work);
      Interfere(c, others, 0, s0);
      checked := View();
      LeadsInvariant(s0, checked);
      LeadsToSelf(checked);
      if period.generation < cpus[c].target {
        return false, checked;
      }
      AdvanceAndRequest(c, if others == [] then [] else others[1..], spurious);
      LeadsJoin(s0, checked, View());
      return true, checked;
    }
  }
}
