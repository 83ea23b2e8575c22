/** The operations of `timer_queue.c` as imperative code. Each critical section is
    one step of `TimerProtocol`. Other CPUs run between the sections of an operation:
    `others` lists, section by section, what they do there, and a CPU that needs a
    timer's lock waits for the holder to finish. The loops of expiry and of the
    hand-over of an offline CPU's timers are proved against what they achieve. */
module TimerHandlers {
  import opened Outcomes
  import opened Lists
  import opened TimerProtocol
  import opened TimerSafety
  import opened TimerRuns
  import opened TimerPaths
  import opened TimerScan

  predicate NoLocks(s: State) {
    forall d | 0 <= d < |s.cpus| :: s.cpus[d].op.NoOp?
  }

  /** What a step of another CPU leaves alone, in particular on a CPU going offline. */
  ghost predicate Aside(s: State, r: State, c: Cpu) {
    |r.timers| == |s.timers| && |r.queues| == |s.queues| && c < |s.cpus| == |r.cpus| && c < |s.queues| &&
    r.functional == s.functional && r.cpus[c] == s.cpus[c] &&
    (!s.queues[c].online ==> !r.queues[c].online && |r.queues[c].list| <= |s.queues[c].list|)
  }

  lemma DequeueAside(s: State, q: Cpu, t: TimerId, clear: bool, c: Cpu)
    requires DequeueInternal(s, q, t, clear).Done? && c < |s.cpus| && c < |s.queues|
    ensures Aside(s, DequeueInternal(s, q, t, clear).value, c)
  {
    WithoutShorter(s.queues[q].list, t);
  }

  lemma InsertAside(s: State, step: Step, r: State, c: Cpu)
    requires Inv(s) && Enabled(s, step) && Apply(s, step) == Done(r) && step.cpu != c && c < |s.cpus|
    requires step.Enqueue? || step.UpdateFinish? || step.MigrateTry?
    ensures Aside(s, r, c)
  {
    assert CpuOk(s, step.cpu);
  }

  lemma StepAside(s: State, step: Step, r: State, c: Cpu)
    requires Inv(s) && Enabled(s, step) && Apply(s, step) == Done(r) && step.cpu != c && c < |s.cpus|
    ensures Aside(s, r, c)
  {
    var d := step.cpu;
    assert CpuOk(s, d);
    match step
    case DequeueFinish(_) => DequeueAside(s, s.cpus[d].op.queue, s.cpus[d].op.timer, true, c);
    case UpdateLeave(_) =>
      if s.cpus[d].op.seen.Some? { DequeueAside(s, s.cpus[d].op.seen.value, s.cpus[d].op.timer, true, c); }
    case ExpirePop(_) => DequeueAside(s, d, s.queues[d].list[0], true, c);
    case MigratePick(_) => DequeueAside(s, d, s.queues[d].list[0], false, c);
    case Enqueue(_, _, _) => InsertAside(s, step, r, c);
    case UpdateFinish(_) => InsertAside(s, step, r, c);
    case MigrateTry(_) => InsertAside(s, step, r, c);
    case _ =>
  }

  lemma StepFunctional(s: State, step: Step)
    requires Enabled(s, step) && Apply(s, step).Done?
    ensures Apply(s, step).value.functional == s.functional
  {
  }

  /** Every CPU the scan has met before `target`, the own one aside, refused when it was met. */
  ghost predicate MetInVain(s: State, t: State, c: Cpu, start: Cpu, target: Cpu, n: nat, others: seq<seq<Step>>)
    requires start < n && target < n
  {
    forall p: Cpu | p < n && p != c && Offset(start, p, n) < Offset(start, target, n) :: WasRefused(s, t, p, c, others)
  }

  /** Every other CPU has refused the timer when its turn came. */
  ghost predicate AllRefused(s: State, t: State, c: Cpu, n: nat, others: seq<seq<Step>>) {
    forall p: Cpu | p < n && p != c :: WasRefused(s, t, p, c, others)
  }

  /** The scan of CPU `c` goes on from `target`, which refuses. */
  lemma MetOne(s: State, at: State, t: State, c: Cpu, start: Cpu, target: Cpu, n: nat, others: seq<seq<Step>>)
    requires start < n && target < n && c < n && (start == c || target == c ==> n == 1)
    requires MetInVain(s, at, c, start, target, n, others) && Via(s, at, c, others) && Via(at, t, c, others)
    requires Refuses(at, target, c)
    ensures var next := NextTarget(target, c, n);
            next < n && if next == start then AllRefused(s, t, c, n, others)
                        else MetInVain(s, t, c, start, next, n, others) &&
                             Offset(start, next, n) > Offset(start, target, n)
  {
    ScanOn(c, start, target, n);
    forall p: Cpu | p < n && p != c && Offset(start, p, n) <= Offset(start, target, n)
      ensures WasRefused(s, t, p, c, others)
    {
      if p != target { RefusedOn(s, at, t, p, c, others); }
    }
  }

  lemma MetOn(s: State, t: State, u: State, c: Cpu, start: Cpu, target: Cpu, n: nat, others: seq<seq<Step>>)
    requires start < n && target < n && MetInVain(s, t, c, start, target, n, others) && Via(t, u, c, others)
    ensures MetInVain(s, u, c, start, target, n, others)
  {
    forall p: Cpu | p < n && p != c && Offset(start, p, n) < Offset(start, target, n)
      ensures WasRefused(s, u, p, c, others)
    {
      RefusedOn(s, t, u, p, c, others);
    }
  }

  lemma JoinFour(s0: State, s1: State, s2: State, s3: State, s4: State, c: Cpu, others: seq<seq<Step>>)
    requires Via(s0, s1, c, others) && Via(s1, s2, c, others) && Via(s2, s3, c, others) && Via(s3, s4, c, others)
    ensures Via(s0, s4, c, others)
  {
    ViaJoin(s0, s1, s2, c, others);
    ViaJoin(s0, s2, s3, c, others);
    ViaJoin(s0, s3, s4, c, others);
  }

  class TimerQueues {
    const functional: seq<bool>
    var timers: seq<Timer>
    var queues: seq<Queue>
    var cpus: seq<Local>

    function View(): (s: State)
      reads this
    {
      State(timers, queues, cpus, functional)
    }

    // -------------------------------------------------------------- other CPUs

    /** A critical section of another CPU. */
    method Other(step: Step, ghost c: Cpu, ghost others: seq<seq<Step>>)
      requires Inv(View()) && Enabled(View(), step) && Apply(View(), step).Done? && step.cpu != c && c < |cpus|
      requires Allowed(step, c, others)
      modifies this
      ensures Apply(old(View()), step) == Done(View()) && Inv(View())
      ensures Via(old(View()), View(), c, others) && Aside(old(View()), View(), c)
    {
      var r := Apply(View(), step).value;
      StepKeepsInv(View(), step);
      StepFunctional(View(), step);
      StepAside(View(), step, r, c);
      ViaBy(View(), step, r, c, others);
      timers, queues, cpus := r.timers, r.queues, r.cpus;
    }

    /** The other CPUs take whichever of the steps listed for section `k` they can. */
    method Interfere(c: Cpu, others: seq<seq<Step>>, k: nat)
      requires Inv(View()) && c < |cpus|
      modifies this
      ensures Inv(View()) && Via(old(View()), View(), c, others) && Aside(old(View()), View(), c)
      ensures k >= |others| ==> View() == old(View())
    {
      ViaSelf(View(), c, others);
      assert CpuOk(View(), c);
      if k < |others| {
        for i := 0 to |others[k]|
          invariant Inv(View()) && Via(old(View()), View(), c, others) && Aside(old(View()), View(), c)
        {
          if others[k][i].cpu != c && Enabled(View(), others[k][i]) && Apply(View(), others[k][i]).Done? {
            ghost var s := View();
            assert Listed(others[k][i], others);
            Other(others[k][i], c, others);
            ViaJoin(old(View()), s, View(), c, others);
          }
        }
      }
    }

    /** CPU `d` takes the timer out of another CPU's queue, if that is what its update does next. */
    method LeaveIfAway(d: Cpu, ghost c: Cpu, ghost others: seq<seq<Step>>)
      requires Inv(View()) && d < |cpus| && c < |cpus| && d != c && (cpus[d].op.Updating? || cpus[d].op.Rearming?)
      modifies this
      ensures Inv(View()) && Via(old(View()), View(), c, others) && Aside(old(View()), View(), c)
      ensures cpus == old(cpus)[d := cpus[d]] && Enabled(View(), UpdateFinish(d))
    {
      ViaSelf(View(), c, others);
      assert CpuOk(View(), c) && CpuOk(View(), d);
      if cpus[d].op.Updating? && cpus[d].op.seen != Some(d) {
        StepKeepsInv(View(), UpdateLeave(d));
        Other(UpdateLeave(d), c, others);
      }
    }

    /** CPU `d` finishes the operation in progress and drops the timer's lock. */
    method FinishOp(d: Cpu, ghost c: Cpu, ghost others: seq<seq<Step>>)
      requires Inv(View()) && d < |cpus| && c < |cpus| && d != c && !cpus[d].op.NoOp?
      modifies this
      ensures Inv(View()) && Via(old(View()), View(), c, others) && Aside(old(View()), View(), c)
      ensures cpus == old(cpus)[d := cpus[d]] && cpus[d].op.NoOp?
    {
      assert CpuOk(View(), d);
      if cpus[d].op.Dequeuing? {
        StepKeepsInv(View(), DequeueFinish(d));
        Other(DequeueFinish(d), c, others);
      } else {
        LeaveIfAway(d, c, others);
        ghost var s := View();
        StepKeepsInv(s, UpdateFinish(d));
        Other(UpdateFinish(d), c, others);
        ViaJoin(old(View()), s, View(), c, others);
      }
    }

    /** Wait for the lock of timer `t`. */
    method AwaitLock(c: Cpu, t: TimerId, ghost others: seq<seq<Step>>)
      requires Inv(View()) && c < |cpus| && cpus[c].op.NoOp?
      modifies this
      ensures Inv(View()) && Via(old(View()), View(), c, others) && Aside(old(View()), View(), c) && Unlocked(View(), t)
      ensures NoLocks(old(View())) ==> View() == old(View())
    {
      ViaSelf(View(), c, others);
      assert CpuOk(View(), c);
      for d := 0 to |cpus|
        invariant Inv(View()) && Via(old(View()), View(), c, others) && Aside(old(View()), View(), c)
        invariant NoLocks(old(View())) ==> View() == old(View())
        invariant forall e | 0 <= e < d :: !Holds(cpus[e].op, t)
      {
        if Holds(cpus[d].op, t) {
          ghost var s := View();
          FinishOp(d, c, others);
          ViaJoin(old(View()), s, View(), c, others);
        }
      }
    }

    // --------------------------------------------------- under a queue's lock

    method UpdateTimeout(c: Cpu)
      requires c < |queues|
      modifies this`queues
      ensures queues == old(queues)[c := old(queues)[c].(deadline := old(queues)[c].timeout)]
    {
      if queues[c].timeout != INVALID_TIMEOUT {
        queues := queues[c := queues[c].(deadline := queues[c].timeout)];
      } else {
        queues := queues[c := queues[c].(deadline := INVALID_TIMEOUT)];
      }
    }

    /** Afterwards the queue is the sorted list of what it held and `t`, and caches the
        least timeout; nothing else changes. */
    method EnqueueLocked(c: Cpu, t: TimerId, timeout: nat)
      requires Inv(View()) && c < |queues| && queues[c].online && t < |timers| && timers[t].queue.None?
      modifies this
      ensures timers == old(timers)[t := Timer(timeout, Some(c))] && cpus == old(cpus)
      ensures |queues| == |old(queues)| && queues == old(queues)[c := queues[c]] && QueueOk(timers, c, queues[c])
      ensures PutInOrder(timers, old(queues[c].list), queues[c].list, t) && queues[c].list != []
      ensures var x, head := old(queues[c]), queues[c].list[0];
              queues[c] == x.(list := queues[c].list, timeout := queues[c].timeout,
                              deadline := if head == t then timeout else x.deadline)
      ensures EnqueueInternal(old(View()), c, t, timeout) == Done(View())
    {
      EnqueueEffect(View(), c, t, timeout);
      EnqueuePuts(View(), c, t, timeout);
      Link(c, t, timeout);
    }

    /** Insert the timer in order; a new head is programmed into the hardware. */
    method Link(c: Cpu, t: TimerId, timeout: nat)
      requires Inv(View()) && c < |queues| && t < |timers| && EnqueueInternal(View(), c, t, timeout).Done?
      modifies this
      ensures EnqueueInternal(old(View()), c, t, timeout) == Done(View())
    {
      ghost var r := EnqueueInternal(View(), c, t, timeout).value;
      timers := timers[t := timers[t].(queue := Some(c))];
      timers := timers[t := timers[t].(timeout := timeout)];
      assert timers == old(timers)[t := Timer(timeout, Some(c))];
      var list := Insert(timers, queues[c].list, t);
      queues := queues[c := queues[c].(list := list)];
      if list[0] == t {
        queues := queues[c := queues[c].(timeout := timeout)];
        UpdateTimeout(c);
      }
      assert queues == r.queues;
    }

    /** Afterwards the queue is the sorted list of what it held without `t`, and caches
        the least timeout left; nothing else changes. */
    method DequeueLocked(q: Cpu, t: TimerId, clear: bool) returns (newTimeout: bool)
      requires Inv(View()) && q < |queues| && t < |timers| && !ListedElsewhere(View(), t, q)
      modifies this
      ensures timers == old(timers)[t := old(timers[t]).(queue := if clear then None else old(timers[t].queue))]
      ensures cpus == old(cpus) && |queues| == |old(queues)| && QueueOk(timers, q, queues[q])
      ensures queues == old(queues)[q := old(queues[q]).(list := queues[q].list, timeout := queues[q].timeout)]
      ensures Unlinked(old(queues[q].list), queues[q].list, t)
      ensures newTimeout <==> (old(queues[q].list) != [] && old(queues[q].list)[0] == t) || queues[q].list == []
      ensures DequeueInternal(old(View()), q, t, clear) == Done(View())
    {
      DequeueEffect(View(), q, t, clear);
      WithoutUnlinks(queues[q].list, t);
      newTimeout := Unlink(q, t, clear);
    }

    /** Delete the timer from the list and let the cached timeout follow. */
    method Unlink(q: Cpu, t: TimerId, clear: bool) returns (newTimeout: bool)
      requires Inv(View()) && q < |queues| && t < |timers| && DequeueInternal(View(), q, t, clear).Done?
      modifies this
      ensures DequeueInternal(old(View()), q, t, clear) == Done(View()) && |queues| == |old(queues)|
      ensures newTimeout <==> (old(queues[q].list) != [] && old(queues[q].list)[0] == t) || queues[q].list == []
    {
      ghost var r := DequeueInternal(View(), q, t, clear).value;
      newTimeout := false;
      var newHead := queues[q].list != [] && queues[q].list[0] == t;
      WithoutKnown(timers, queues[q].list, t);
      queues := queues[q := queues[q].(list := Without(queues[q].list, t))];
      newHead := newHead && queues[q].list != [];
      if newHead {
        queues := queues[q := queues[q].(timeout := timers[queues[q].list[0]].timeout)];
        newTimeout := true;
      } else if queues[q].list == [] {
        queues := queues[q := queues[q].(timeout := INVALID_TIMEOUT)];
        newTimeout := true;
      }
      if clear {
        timers := timers[t := timers[t].(queue := None)];
      }
      assert queues == r.queues && timers == r.timers;
    }

    /** Afterwards the queue is the sorted list of the same timers, with `t` at its new
        timeout, and caches the least one; nothing else changes. */
    method UpdateLocked(c: Cpu, t: TimerId, timeout: nat)
      requires Inv(View()) && c < |queues| && queues[c].online && t < |timers| && timers[t].queue == Some(c)
      requires t in queues[c].list
      modifies this
      ensures timers == old(timers)[t := Timer(timeout, Some(c))] && cpus == old(cpus)
      ensures |queues| == |old(queues)| && queues == old(queues)[c := queues[c]] && QueueOk(timers, c, queues[c])
      ensures if old(timers[t].timeout) == timeout then View() == old(View())
              else Retimed(timers, old(queues[c]), queues[c], t)
      ensures UpdateInternal(old(View()), c, t, timeout) == Done(View())
    {
      UpdateEffect(View(), c, t, timeout);
      assert QueueOk(timers, c, queues[c]);
      UpdatePuts(View(), c, t, timeout);
      if timers[t].timeout != timeout {
        Retime(c, t, timeout);
      }
    }

    /** Delete the timer, give it another timeout and insert it again. */
    method Retime(c: Cpu, t: TimerId, timeout: nat)
      requires Inv(View()) && c < |queues| && t < |timers| && timers[t].timeout != timeout
      requires UpdateInternal(View(), c, t, timeout).Done?
      modifies this
      ensures UpdateInternal(old(View()), c, t, timeout) == Done(View())
    {
      ghost var r := UpdateInternal(View(), c, t, timeout).value;
      var list := queues[c].list;
      var rest := Without(list, t);
      assert QueueOk(timers, c, queues[c]);
      WithoutKnown(timers, list, t);
      var headDeleted := list != [] && list[0] == t && rest != [];
      timers := timers[t := timers[t].(timeout := timeout)];
      list := Insert(timers, rest, t);
      InsertKnown(timers, rest, t);
      var headInserted := list[0] == t;
      queues := queues[c := queues[c].(list := list)];
      if headDeleted || headInserted {
        queues := queues[c := queues[c].(timeout := timers[list[0]].timeout)];
        UpdateTimeout(c);
      }
      assert timers == r.timers && queues == r.queues;
    }

    // -------------------------------------------------------------- interface

    /** Records what operation CPU `c` is in. */
    method MoveTo(c: Cpu, op: Op)
      requires c < |cpus|
      modifies this`cpus
      ensures cpus == old(cpus)[c := old(cpus)[c].(op := op)]
    {
      cpus := cpus[c := cpus[c].(op := op)];
    }

    method Enqueue(c: Cpu, t: TimerId, timeout: nat)
      requires Inv(View()) && Enabled(View(), Step.Enqueue(c, t, timeout))
      modifies this
      ensures Apply(old(View()), Step.Enqueue(c, t, timeout)) == Done(View()) && Inv(View())
      ensures timers == old(timers)[t := Timer(timeout, Some(c))] && |queues| == |old(queues)|
      ensures queues == old(queues)[c := queues[c]] && PutInOrder(timers, old(queues[c].list), queues[c].list, t)
    {
      StepKeepsInv(View(), Step.Enqueue(c, t, timeout));
      assert CpuOk(View(), c);
      EnqueueLocked(c, t, timeout);
    }

    /** The second section of a dequeue. */
    method FinishDequeueOf(c: Cpu, q: Cpu, t: TimerId, ghost others: seq<seq<Step>>)
      requires Inv(View()) && c < |cpus| && c < |queues| && cpus[c].op == Dequeuing(t, q)
      modifies this
      ensures Inv(View()) && Via(old(View()), View(), c, others) && t < |timers| == |old(timers)|
      ensures timers == old(timers)[t := old(timers)[t].(queue := None)]
      ensures cpus == old(cpus)[c := old(cpus)[c].(op := NoOp)]
    {
      StepKeepsInv(View(), DequeueFinish(c));
      assert CpuOk(View(), c);
      HeldIsNotElsewhere(View(), t, q);
      ViaBy(View(), DequeueFinish(c), Apply(View(), DequeueFinish(c)).value, c, others);
      DequeueAndProgram(c, q, t);
      MoveTo(c, NoOp);
    }

    /** Take the timer out of the queue; the hardware follows if that is the CPU's own. */
    method DequeueAndProgram(c: Cpu, q: Cpu, t: TimerId)
      requires Inv(View()) && c < |queues| && q < |queues| && t < |timers| && !ListedElsewhere(View(), t, q)
      modifies this
      ensures FinishDequeue(old(View()), c, q, t) == Done(View())
      ensures timers == old(timers)[t := old(timers)[t].(queue := None)] && cpus == old(cpus)
      ensures |queues| == |old(queues)| && QueueOk(timers, q, queues[q])
      ensures Unlinked(old(queues[q].list), queues[q].list, t)
      ensures var gone := (old(queues[q].list) != [] && old(queues[q].list)[0] == t) || queues[q].list == [];
              var deadline := if gone && q == c then queues[q].timeout else old(queues[q].deadline);
              queues == old(queues)[q := old(queues[q]).(list := queues[q].list, timeout := queues[q].timeout,
                                                         deadline := deadline)]
    {
      var newTimeout := DequeueLocked(q, t, true);
      if newTimeout && q == c {
        UpdateTimeout(c);
      }
    }

    /** A timer is armed nowhere after it was dequeued, wherever it was queued and
        whatever other CPUs do meanwhile. */
    method Dequeue(c: Cpu, t: TimerId, others: seq<seq<Step>>)
      requires Inv(View()) && Enabled(View(), DequeueLoad(c, t))
      modifies this
      ensures Inv(View()) && Via(old(View()), View(), c, others) && |cpus| == |old(cpus)| && cpus[c] == old(cpus[c])
      ensures t < |timers| && timers[t].queue.None? && Listings(queues, t) == 0
      ensures others == [] ==> timers == old(timers)[t := old(timers)[t].(queue := None)] && cpus == old(cpus)
    {
      ghost var s0 := View();
      ViaSelf(s0, c, others);
      var q := timers[t].queue;
      if q.Some? {
        StepKeepsInv(View(), DequeueLoad(c, t));
        ViaBy(s0, DequeueLoad(c, t), Apply(s0, DequeueLoad(c, t)).value, c, others);
        MoveTo(c, Dequeuing(t, q.value));
        ghost var s1 := View();
        Interfere(c, others, 0);
        ghost var s2 := View();
        ViaJoin(s0, s1, s2, c, others);
        FinishDequeueOf(c, q.value, t, others);
        ViaJoin(s0, s2, View(), c, others);
        assert cpus[c] == old(cpus[c]) && (others == [] ==> cpus == old(cpus));
      } else {
        assert timers == old(timers)[t := old(timers)[t].(queue := None)];
      }
      Unlisted(View(), t);
    }

    /** The section of an update that takes the timer out of another CPU's queue. */
    method LeaveQueue(c: Cpu, t: TimerId, timeout: nat, seen: Option<Cpu>, ghost others: seq<seq<Step>>)
      requires Inv(View()) && c < |cpus| && c < |queues| && cpus[c].op == Updating(t, timeout, seen) && seen != Some(c)
      modifies this
      ensures Inv(View()) && Via(old(View()), View(), c, others) && t < |timers| == |old(timers)|
      ensures timers == old(timers)[t := old(timers)[t].(queue := None)]
      ensures cpus == old(cpus)[c := old(cpus)[c].(op := Rearming(t, timeout))]
    {
      StepKeepsInv(View(), UpdateLeave(c));
      assert CpuOk(View(), c);
      ViaBy(View(), UpdateLeave(c), Apply(View(), UpdateLeave(c)).value, c, others);
      if seen.Some? {
        HeldIsNotElsewhere(View(), t, seen.value);
        var _ := DequeueLocked(seen.value, t, true);
      }
      MoveTo(c, Rearming(t, timeout));
      assert seen.None? ==> timers == old(timers)[t := old(timers)[t].(queue := None)];
    }

    /** The last section of an update. */
    method FinishUpdateOf(c: Cpu, t: TimerId, timeout: nat, ghost others: seq<seq<Step>>)
      requires Inv(View()) && Enabled(View(), UpdateFinish(c)) && Holds(cpus[c].op, t) && cpus[c].op.timeout == timeout
      modifies this
      ensures Inv(View()) && Via(old(View()), View(), c, others) && t < |timers| == |old(timers)|
      ensures timers == old(timers)[t := Timer(timeout, Some(c))] && cpus == old(cpus)[c := old(cpus)[c].(op := NoOp)]
    {
      StepKeepsInv(View(), UpdateFinish(c));
      assert CpuOk(View(), c);
      assert Backed(View(), t);
      ViaBy(View(), UpdateFinish(c), Apply(View(), UpdateFinish(c)).value, c, others);
      if cpus[c].op.Rearming? {
        EnqueueLocked(c, t, timeout);
      } else {
        UpdateLocked(c, t, timeout);
      }
      MoveTo(c, NoOp);
    }

    /** Bring a timer that is to be updated out of any other CPU's queue. */
    method BringHome(c: Cpu, t: TimerId, timeout: nat, seen: Option<Cpu>, others: seq<seq<Step>>)
      requires Inv(View()) && c < |cpus| && c < |queues| && cpus[c].op == Updating(t, timeout, seen) && t < |timers|
      modifies this
      ensures Inv(View()) && Via(old(View()), View(), c, others) && |cpus| == |old(cpus)| && |timers| == |old(timers)|
      ensures Enabled(View(), UpdateFinish(c)) && Holds(cpus[c].op, t) && cpus[c].op.timeout == timeout
      ensures cpus[c] == old(cpus[c]).(op := cpus[c].op)
      ensures others == [] ==> timers == old(timers)[t := timers[t]] && cpus == old(cpus)[c := cpus[c]]
    {
      ViaSelf(View(), c, others);
      if seen != Some(c) {
        LeaveQueue(c, t, timeout, seen, others);
        ghost var s := View();
        Interfere(c, others, 1);
        ViaJoin(old(View()), s, View(), c, others);
      }
    }

    /** A timer is armed on the calling CPU with the new timeout after an update,
        wherever it was queued and whatever other CPUs do meanwhile. */
    method Update(c: Cpu, t: TimerId, timeout: nat, others: seq<seq<Step>>)
      requires Inv(View()) && Enabled(View(), UpdateLoad(c, t, timeout))
      modifies this
      ensures Inv(View()) && Via(old(View()), View(), c, others) && |cpus| == |old(cpus)| && cpus[c] == old(cpus[c])
      ensures t < |timers| && timers[t] == Timer(timeout, Some(c))
      ensures others == [] ==> timers == old(timers)[t := Timer(timeout, Some(c))] && cpus == old(cpus)
    {
      ghost var s0 := View();
      StepKeepsInv(s0, UpdateLoad(c, t, timeout));
      ViaBy(s0, UpdateLoad(c, t, timeout), Apply(s0, UpdateLoad(c, t, timeout)).value, c, others);
      var seen := timers[t].queue;
      MoveTo(c, Updating(t, timeout, seen));
      ghost var s1 := View();
      Interfere(c, others, 0);
      ghost var s2 := View();
      BringHome(c, t, timeout, seen, others);
      ghost var s3 := View();
      FinishUpdateOf(c, t, timeout, others);
      JoinFour(s0, s1, s2, s3, View(), c, others);
      assert cpus[c] == old(cpus[c]) && (others == [] ==> cpus == old(cpus));
    }

    /** One round of expiry: the head of the queue leaves it. */
    method ExpireHead(c: Cpu) returns (t: TimerId)
      requires Inv(View()) && Enabled(View(), ExpirePop(c))
      modifies this
      ensures Apply(old(View()), ExpirePop(c)) == Done(View()) && Inv(View())
      ensures Popped(old(View()), View(), c, t) && timers[t].queue.None?
    {
      StepKeepsInv(View(), ExpirePop(c));
      PopEffect(View(), c, true);
      t := queues[c].list[0];
      var _ := DequeueLocked(c, t, true);
    }

    /** Fire every due timer, earliest first, and nothing else. */
    method DequeueExpired(c: Cpu, now: nat, sync: bool) returns (fired: seq<TimerId>)
      requires Inv(View()) && Enabled(View(), ExpireBegin(c, now, sync))
      modifies this
      ensures Inv(View()) && cpus == old(cpus) && |queues| == |old(queues)| && |timers| == |old(timers)|
      ensures fired + queues[c].list == old(queues)[c].list
      ensures forall i | 0 <= i < |fired| :: Fired(old(timers), timers, fired[i], now)
      ensures forall i | 0 <= i < |queues[c].list| :: queues[c].list[i] < |timers| &&
                                                      timers[queues[c].list[i]].timeout > now
      ensures queues[c].deadline == queues[c].timeout && queues[c].syncPending == (old(queues)[c].syncPending && !sync)
      ensures queues == old(queues)[c := queues[c]]
    {
      BeginExpiry(c, now, sync);
      fired := FireDue(c, now);
      FinishExpiry(c, now);
      assert cpus == old(cpus) && queues == old(queues)[c := queues[c]];
    }

    /** The loop of expiry: pop and fire while the head is due. */
    method FireDue(c: Cpu, now: nat) returns (fired: seq<TimerId>)
      requires Inv(View()) && c < |cpus| && c < |queues| && Idle(View(), c) && cpus[c].expiring == Some(now)
      modifies this
      ensures Inv(View()) && FiredFrom(old(View()), View(), c, now, fired) && queues[c].timeout > now
    {
      fired := [];
      while queues[c].timeout <= now
        invariant Inv(View()) && FiredFrom(old(View()), View(), c, now, fired)
        decreases |queues[c].list|
      {
        ghost var s := View();
        var t := ExpireHead(c);
        FiredOn(old(View()), s, View(), c, now, fired, t);
        fired := fired + [t];
      }
    }

    method BeginExpiry(c: Cpu, now: nat, sync: bool)
      requires Inv(View()) && Enabled(View(), ExpireBegin(c, now, sync))
      modifies this
      ensures Inv(View()) && timers == old(timers) && cpus == old(cpus)[c := old(cpus)[c].(expiring := Some(now))]
      ensures queues == old(queues)[c := old(queues)[c].(syncPending := old(queues)[c].syncPending && !sync)]
    {
      StepKeepsInv(View(), ExpireBegin(c, now, sync));
      if sync {
        queues := queues[c := queues[c].(syncPending := false)];
      }
      assert queues == old(queues)[c := old(queues)[c].(syncPending := old(queues)[c].syncPending && !sync)];
      cpus := cpus[c := cpus[c].(expiring := Some(now))];
    }

    method FinishExpiry(c: Cpu, now: nat)
      requires Inv(View()) && Enabled(View(), ExpireEnd(c)) && cpus[c].expiring == Some(now)
      modifies this
      ensures Inv(View()) && timers == old(timers)
      ensures queues == old(queues)[c := old(queues)[c].(deadline := old(queues)[c].timeout)]
      ensures cpus == old(cpus)[c := old(cpus)[c].(expiring := None)]
      ensures forall i | 0 <= i < |queues[c].list| :: queues[c].list[i] < |timers| &&
                                                      timers[queues[c].list[i]].timeout > now
    {
      StepKeepsInv(View(), ExpireEnd(c));
      AllLater(View(), c, now);
      UpdateTimeout(c);
      cpus := cpus[c := cpus[c].(expiring := None)];
    }

    // ---------------------------------------------------------- going offline

    /** Take the head out of the queue but leave its pointer, so that a concurrent dequeue is noticed. */
    method PickHead(c: Cpu) returns (t: TimerId)
      requires Inv(View()) && Enabled(View(), MigratePick(c))
      modifies this
      ensures Apply(old(View()), MigratePick(c)) == Done(View()) && Inv(View())
      ensures |cpus| == |old(cpus)| && cpus == old(cpus)[c := old(cpus)[c].(phase := cpus[c].phase)]
      ensures var start := old(cpus)[c].phase.start; cpus[c].phase == Migrating(start, Some(t), start)
      ensures Popped(old(View()), View().(cpus := old(cpus)), c, t) && timers == old(timers)
      ensures timers[t].queue == Some(c)
    {
      StepKeepsInv(View(), MigratePick(c));
      assert CpuOk(View(), c) && QueueOk(timers, c, queues[c]);
      PopEffect(View(), c, false);
      t := queues[c].list[0];
      ListedNames(View(), t, c);
      var _ := DequeueLocked(c, t, false);
      var start := cpus[c].phase.start;
      cpus := cpus[c := cpus[c].(phase := Migrating(start, Some(t), start))];
    }

    /** `timer_try_move_to_cpu`: the target takes the timer in transit if and only if its
        queue is online, unless the timer was dequeued or moved by others meanwhile. */
    method TryMove(c: Cpu) returns (moved: bool)
      requires Inv(View()) && Enabled(View(), MigrateTry(c)) && Functional(View(), cpus[c].phase.target)
      modifies this
      ensures moved <==> old(Usable(View(), cpus[c].phase.target))
      ensures !moved ==> View() == old(View())
      ensures moved ==> Apply(old(View()), MigrateTry(c)) == Done(View()) && Inv(View())
      ensures moved && old(timers[cpus[c].phase.transit.value].queue) == Some(c) ==>
                Taken(old(View()), View(), c, old(cpus[c].phase.target))
    {
      StepKeepsInv(View(), MigrateTry(c));
      assert CpuOk(View(), c);
      ghost var s := View();
      var t, target := cpus[c].phase.transit.value, cpus[c].phase.target;
      moved := false;
      if queues[target].online {
        if timers[t].queue == Some(c) {
          timers := timers[t := timers[t].(queue := Some(target))];
          var list := Insert(timers, queues[target].list, t);
          queues := queues[target := queues[target].(list := list)];
          if list[0] == t {
            queues := queues[target := queues[target].(timeout := timers[t].timeout, syncPending := true)];
          }
        }
        moved := true;
        cpus := cpus[c := cpus[c].(phase := Migrating(target, None, target))];
        assert queues == TimerProtocol.MoveTo(s, c, t, target).value.queues;
        MoveTaken(s, View(), c);
      }
    }

    /** One try of the scan, made in the state `at`: the timer goes to a usable target,
        else the scan goes on, or gives up when it is back at its start. */
    method TryTarget(c: Cpu, others: seq<seq<Step>>, k: nat) returns (moved: bool, gaveUp: bool, ghost at: State)
      requires Inv(View()) && Scanning(View(), c)
      modifies this
      ensures Inv(View()) && Via(old(View()), at, c, others) && Via(at, View(), c, others) && Inv(at)
      ensures Aside(old(View()), at, c)
      ensures Enabled(at, MigrateTry(c)) && (moved <==> Usable(at, at.cpus[c].phase.target))
      ensures gaveUp <==> GivesUp(at, MigrateTry(c))
      ensures if gaveUp then View() == at else Apply(at, MigrateTry(c)) == Done(View())
      ensures k >= |others| && NoLocks(old(View())) ==> at == old(View())
    {
      assert CpuOk(View(), c);
      Interfere(c, others, k);
      ghost var s1 := View();
      var target := cpus[c].phase.target;
      moved := false;
      if functional[target] {
        AwaitLock(c, cpus[c].phase.transit.value, others);
        at := View();
        StepKeepsInv(at, MigrateTry(c));
        moved := TryMove(c);
      } else {
        ViaSelf(s1, c, others);
        at := View();
        StepKeepsInv(at, MigrateTry(c));
      }
      ViaJoin(old(View()), s1, at, c, others);
      gaveUp := false;
      if !moved {
        gaveUp := AdvanceScan(c);
      }
      TryVia(at, View(), c, gaveUp, others);
    }

    /** Go on to the next CPU of the scan, or give up. */
    method AdvanceScan(c: Cpu) returns (gaveUp: bool)
      requires Inv(View()) && Enabled(View(), MigrateTry(c)) && !Usable(View(), cpus[c].phase.target)
      modifies this`cpus
      ensures gaveUp <==> GivesUp(old(View()), MigrateTry(c))
      ensures if gaveUp then View() == old(View()) else Apply(old(View()), MigrateTry(c)) == Done(View()) && Inv(View())
    {
      StepKeepsInv(View(), MigrateTry(c));
      var target := (cpus[c].phase.target + 1) % |queues|;
      if target == c {
        target := (target + 1) % |queues|;
      }
      gaveUp := target == cpus[c].phase.start;
      if !gaveUp {
        cpus := cpus[c := cpus[c].(phase := cpus[c].phase.(target := target))];
      }
    }

    /** Scan the other CPUs once around for one that takes the timer in transit. Whatever
        other CPUs do meanwhile, the scan ends, and it gives up only if every other CPU
        was unusable when its turn came; so never while one of them stays up. */
    method FindTarget(c: Cpu, others: seq<seq<Step>>, k: nat) returns (found: bool)
      requires Inv(View()) && Scanning(View(), c) && cpus[c].phase.target == cpus[c].phase.start
      modifies this
      ensures Inv(View()) && Via(old(View()), View(), c, others) && Settled(old(View()), View(), c, found)
      ensures !found ==> AllRefused(old(View()), View(), c, |queues|, others)
      ensures OneStaysUp(old(View()), c, others) ==> found
      ensures others == [] && NoLocks(old(View())) ==> QuietTo(old(View()), View(), c, |queues|, found, !found)
    {
      var n, start, k' := |queues|, cpus[c].phase.start, k;
      ghost var s0 := View();
      ScanBegins(s0, c, others);
      found := false;
      var gaveUp := false;
      while !found && !gaveUp
        invariant ScanTo(s0, View(), c, start, n, found, gaveUp, others)
        invariant others == [] && NoLocks(s0) ==> QuietTo(s0, View(), c, n, found, gaveUp)
        decreases !found && !gaveUp, if !found && !gaveUp then n - Offset(start, cpus[c].phase.target, n) else 0
      {
        ghost var s := View();
        ghost var at;
        found, gaveUp, at := TryTarget(c, others, k');
        ScanRound(s0, s, at, View(), c, start, n, found, gaveUp, others);
        if others == [] && NoLocks(s0) { QuietRound(s0, s, View(), c, n, found, gaveUp); }
        k' := k' + 1;
      }
      ScanEnds(s0, View(), c, start, n, found, gaveUp, others);
    }

    /** One round of the hand-over: move the head of `c`'s queue to a CPU that takes it. */
    method MoveHead(c: Cpu, others: seq<seq<Step>>, k: nat) returns (found: bool)
      requires Inv(View()) && Enabled(View(), MigratePick(c))
      modifies this
      ensures Inv(View()) && Via(old(View()), View(), c, others) && Settled(old(View()), View(), c, found)
      ensures found ==> |queues[c].list| < |old(queues[c].list)|
      ensures !found ==> Failed(old(View()), View(), c, others)
      ensures others == [] && NoLocks(old(View())) ==> QuietMove(old(View()), View(), c, found)
    {
      assert CpuOk(View(), c);
      ghost var s := View();
      ViaBy(s, MigratePick(c), Apply(s, MigratePick(c)).value, c, others);
      var t := PickHead(c);
      ghost var s1 := View();
      found := FindTarget(c, others, k);
      ViaJoin(s, s1, View(), c, others);
      if others == [] && NoLocks(s) { QuietHead(s, s1, View(), c, t, found); }
    }

    /** The rounds of a hand-over that began in `s0`. */
    method MoveAll(c: Cpu, others: seq<seq<Step>>, ghost s0: State) returns (ok: bool)
      requires Inv(View()) && HandState(s0, View(), c, others) && Picking(View(), c)
      requires others == [] && NoLocks(s0) ==> HandingOver(s0, View(), c)
      modifies this
      ensures Inv(View()) && HandState(s0, View(), c, others)
      ensures if ok then Picking(View(), c) && queues[c].timeout == INVALID_TIMEOUT else Failed(s0, View(), c, others)
      ensures others == [] && NoLocks(s0) ==> if ok then HandingOver(s0, View(), c) else NobodyTakes(s0, c)
    {
      var k: nat := 0;
      ok := true;
      while queues[c].timeout != INVALID_TIMEOUT
        invariant Inv(View()) && HandState(s0, View(), c, others) && Picking(View(), c)
        invariant others == [] && NoLocks(s0) ==> HandingOver(s0, View(), c)
        decreases |queues[c].list|
      {
        ghost var s := View();
        ok := MoveHead(c, others, k);
        ViaJoin(s0, s, View(), c, others);
        if !ok {
          FailedOn(s0, s, View(), c, others);
          if others == [] && NoLocks(s0) { GivenUp(s0, s, View(), c); }
          return;
        }
        if others == [] && NoLocks(s0) { HandedHead(s0, s, View(), c, cpus[c].phase.start); }
        k := k + |queues|;
      }
    }

    /** Hand every timer of a CPU that goes offline over to CPUs that stay. It ends,
        whatever other CPUs do meanwhile, with no timer left but those armed with the
        reserved timeout; or it fails after a scan in which every other CPU refused when
        its turn came. It does not fail if one other CPU is usable and nobody takes that
        one offline. If others do nothing, each timer goes to a CPU that was usable, and
        a failure means that none was. */
    method HandleOffline(c: Cpu, others: seq<seq<Step>>) returns (ok: bool)
      requires Inv(View()) && Enabled(View(), OfflineBegin(c))
      modifies this
      ensures Inv(View()) && HandState(old(View()), View(), c, others)
      ensures ok ==> cpus[c].phase.Offline? &&
                     forall t | 0 <= t < |timers| && timers[t].queue == Some(c) :: timers[t].timeout == INVALID_TIMEOUT
      ensures !ok ==> Failed(old(View()), View(), c, others)
      ensures OneStaysUp(old(View()), c, others) ==> ok
      ensures others == [] && NoLocks(old(View())) ==>
                if ok then forall t | 0 <= t < |timers| :: Handed(old(View()), c, old(timers)[t], timers[t])
                else NobodyTakes(old(View()), c)
    {
      ghost var s0 := View();
      ViaBy(s0, OfflineBegin(c), Apply(s0, OfflineBegin(c)).value, c, others);
      BeginOffline(c);
      ok := MoveAll(c, others, s0);
      if ok {
        ghost var s := View();
        ViaBy(s, OfflineEnd(c), Apply(s, OfflineEnd(c)).value, c, others);
        EndOffline(c);
        ViaJoin(s0, s, View(), c, others);
        OnlyReservedLeft(View(), c);
        if others == [] && NoLocks(s0) { HandedAll(s0, View(), c); }
      } else {
        ghost var m :| Via(s0, m, c, others) && AllRefused(m, View(), c, |queues|, others);
        NotAllRefused(s0, m, View(), c, |queues|, others);
      }
    }

    method BeginOffline(c: Cpu)
      requires Inv(View()) && Enabled(View(), OfflineBegin(c))
      modifies this
      ensures Apply(old(View()), OfflineBegin(c)) == Done(View()) && Inv(View())
      ensures timers == old(timers) && |cpus| == |old(cpus)|
      ensures cpus == old(cpus)[c := old(cpus)[c].(phase := cpus[c].phase)]
      ensures cpus[c].phase.Migrating? && cpus[c].phase.transit.None?
      ensures queues == old(queues)[c := old(queues)[c].(online := false, deadline := INVALID_TIMEOUT)]
    {
      StepKeepsInv(View(), OfflineBegin(c));
      var start := (c + 1) % |queues|;
      queues := queues[c := queues[c].(online := false, deadline := INVALID_TIMEOUT)];
      cpus := cpus[c := cpus[c].(phase := Migrating(start, None, start))];
    }

    method EndOffline(c: Cpu)
      requires Inv(View()) && Enabled(View(), OfflineEnd(c))
      modifies this
      ensures Inv(View()) && timers == old(timers) && queues == old(queues)
      ensures cpus == old(cpus)[c := old(cpus)[c].(phase := Offline)]
    {
      StepKeepsInv(View(), OfflineEnd(c));
      cpus := cpus[c := cpus[c].(phase := Offline)];
    }
  }

  ghost predicate Sizes(s: State, t: State) {
    |t.timers| == |s.timers| && |t.queues| == |s.queues| && |t.cpus| == |s.cpus| && t.functional == s.functional
  }

  /** CPU `c` is between two timers of its hand-over. */
  predicate Picking(s: State, c: Cpu) {
    c < |s.cpus| && s.cpus[c].phase.Migrating? && s.cpus[c].phase.transit.None?
  }

  /** How a scan ends: with the timer passed on, or still in transit. */
  ghost predicate Settled(s: State, t: State, c: Cpu, found: bool) {
    Sizes(s, t) && c < |s.cpus| && c < |s.queues| && |t.queues[c].list| <= |s.queues[c].list| &&
    if found then Picking(t, c) else Scanning(t, c)
  }

  /** A state on the way of the hand-over that began in `s0`. */
  ghost predicate HandState(s0: State, s: State, c: Cpu, others: seq<seq<Step>>) {
    Via(s0, s, c, others) && Sizes(s0, s) && c < |s.cpus| && c < |s.queues|
  }

  /** From some state on, every other CPU refused the timer when its turn came. */
  ghost predicate Failed(s0: State, t: State, c: Cpu, others: seq<seq<Step>>) {
    exists m :: Via(s0, m, c, others) && AllRefused(m, t, c, |t.queues|, others)
  }

  /** Some other CPU takes timers and no step given takes it offline. */
  ghost predicate OneStaysUp(s: State, c: Cpu, others: seq<seq<Step>>) {
    exists p: Cpu :: StaysUp(s, p, c, others)
  }

  /** While one other CPU stays up, no scan fails. */
  lemma NotAllRefused(s0: State, m: State, t: State, c: Cpu, n: nat, others: seq<seq<Step>>)
    requires Via(s0, m, c, others) && AllRefused(m, t, c, n, others) && |s0.queues| <= n
    ensures !OneStaysUp(s0, c, others)
  {
    forall p: Cpu | StaysUp(s0, p, c, others) ensures false {
      ViaLeavesUp(s0, m, p, c, others);
      UpIsNotRefused(m, t, p, c, others);
    }
  }

  /** The CPU has a timer to hand over and no other CPU takes it. */
  ghost predicate NobodyTakes(s: State, c: Cpu) {
    c < |s.queues| && s.queues[c].timeout != INVALID_TIMEOUT &&
    forall p | 0 <= p < |s.queues| && p != c :: !Usable(s, p)
  }

  lemma FailedOn(s0: State, s: State, t: State, c: Cpu, others: seq<seq<Step>>)
    requires Via(s0, s, c, others) && Failed(s, t, c, others)
    ensures Failed(s0, t, c, others)
  {
    var m :| Via(s, m, c, others) && AllRefused(m, t, c, |t.queues|, others);
    ViaJoin(s0, s, m, c, others);
  }

  lemma TryVia(at: State, t: State, c: Cpu, gaveUp: bool, others: seq<seq<Step>>)
    requires Enabled(at, MigrateTry(c)) && if gaveUp then t == at else Apply(at, MigrateTry(c)) == Done(t)
    ensures Via(at, t, c, others)
  {
    if gaveUp { ViaSelf(at, c, others); } else { ViaBy(at, MigrateTry(c), t, c, others); }
  }

  /** The scan that began in `s0` has come to `s`. */
  ghost predicate ScanTo(s0: State, s: State, c: Cpu, start: Cpu, n: nat, found: bool, gaveUp: bool,
                         others: seq<seq<Step>>)
  {
    Inv(s) && Via(s0, s, c, others) && Settled(s0, s, c, found) && |s.queues| == n && start < n && !(found && gaveUp) &&
    (!found ==> s.cpus[c].phase.start == start && !s.queues[c].online) &&
    (!found && !gaveUp ==>
       s.cpus[c].phase.target < n && MetInVain(s0, s, c, start, s.cpus[c].phase.target, n, others)) &&
    (gaveUp ==> AllRefused(s0, s, c, n, others))
  }

  lemma ScanEnds(s0: State, s: State, c: Cpu, start: Cpu, n: nat, found: bool, gaveUp: bool, others: seq<seq<Step>>)
    requires ScanTo(s0, s, c, start, n, found, gaveUp, others) && (found || gaveUp)
    ensures Inv(s) && Via(s0, s, c, others) && Settled(s0, s, c, found)
    ensures !found ==> AllRefused(s0, s, c, n, others)
    ensures OneStaysUp(s0, c, others) ==> found
  {
    if gaveUp {
      ViaSelf(s0, c, others);
      NotAllRefused(s0, s0, s, c, n, others);
    }
  }

  lemma ScanRound(s0: State, s: State, at: State, t: State, c: Cpu, start: Cpu, n: nat, found: bool, gaveUp: bool,
                  others: seq<seq<Step>>)
    requires ScanTo(s0, s, c, start, n, false, false, others) && Inv(at) && Inv(t)
    requires Via(s, at, c, others) && Via(at, t, c, others)
    requires Aside(s, at, c)
    requires Enabled(at, MigrateTry(c)) && (found <==> Usable(at, at.cpus[c].phase.target))
    requires gaveUp <==> GivesUp(at, MigrateTry(c))
    requires if gaveUp then t == at else Apply(at, MigrateTry(c)) == Done(t)
    ensures ScanTo(s0, t, c, start, n, found, gaveUp, others)
    ensures !found && !gaveUp ==> Offset(start, t.cpus[c].phase.target, n) > Offset(start, s.cpus[c].phase.target, n)
  {
    var target := s.cpus[c].phase.target;
    assert CpuOk(s, c) && CpuOk(at, c);
    ViaJoin(s0, s, at, c, others);
    ViaJoin(s0, at, t, c, others);
    MetOn(s0, s, at, c, start, target, n, others);
    if !found {
      MetOne(s0, at, t, c, start, target, n, others);
    }
    TryEffect(at, t, c, found, gaveUp);
  }

  /** What a try does to the CPU's own queue and place. */
  lemma TryEffect(at: State, t: State, c: Cpu, found: bool, gaveUp: bool)
    requires Inv(at) && Enabled(at, MigrateTry(c)) && (found <==> Usable(at, at.cpus[c].phase.target))
    requires if gaveUp then t == at else Apply(at, MigrateTry(c)) == Done(t)
    ensures Sizes(at, t) && t.queues[c].list == at.queues[c].list
    ensures found && !gaveUp ==> Picking(t, c)
    ensures !found && !gaveUp ==> t == SetCpu(at, c, at.cpus[c].(phase := t.cpus[c].phase)) && Scanning(t, c) &&
                                  t.cpus[c].phase.start == at.cpus[c].phase.start &&
                                  t.cpus[c].phase.target == NextTarget(at.cpus[c].phase.target, c, |at.queues|)
  {
    assert CpuOk(at, c);
  }

  /** The scan of CPU `c` has come to `target`. */
  function At(s: State, c: Cpu, target: Cpu): (r: State)
    requires c < |s.cpus| && s.cpus[c].phase.Migrating?
  {
    SetCpu(s, c, s.cpus[c].(phase := s.cpus[c].phase.(target := target)))
  }

  /** The scan that began in `s0`, when other CPUs do nothing. */
  ghost predicate QuietTo(s0: State, s: State, c: Cpu, n: nat, found: bool, gaveUp: bool) {
    Scanning(s0, c) && c < |s.cpus| && s.cpus[c].phase.Migrating? && |s0.queues| == n && s0.cpus[c].phase.start < n &&
    if found then Usable(s0, s.cpus[c].phase.start) && (Owns(s0, c) ==> Taken(s0, s, c, s.cpus[c].phase.start))
    else s == At(s0, c, s.cpus[c].phase.target) &&
         if gaveUp then forall p: Cpu | p < n && p != c :: !Usable(s0, p)
         else s.cpus[c].phase.target < n && MetUnusable(s0, c, s0.cpus[c].phase.start, s.cpus[c].phase.target, n)
  }

  /** The timer in transit still names the queue it came from. */
  predicate Owns(s: State, c: Cpu) {
    Scanning(s, c) && s.cpus[c].phase.transit.value < |s.timers| &&
    s.timers[s.cpus[c].phase.transit.value].queue == Some(c)
  }

  ghost predicate MetUnusable(s: State, c: Cpu, start: Cpu, target: Cpu, n: nat)
    requires start < n && target < n
  {
    forall p: Cpu | p < n && p != c && Offset(start, p, n) < Offset(start, target, n) :: !Usable(s, p)
  }

  lemma ScanBegins(s: State, c: Cpu, others: seq<seq<Step>>)
    requires Inv(s) && Scanning(s, c) && s.cpus[c].phase.target == s.cpus[c].phase.start
    ensures ScanTo(s, s, c, s.cpus[c].phase.start, |s.queues|, false, false, others)
    ensures QuietTo(s, s, c, |s.queues|, false, false)
  {
    ViaSelf(s, c, others);
    assert CpuOk(s, c);
    assert s.cpus[c := s.cpus[c]] == s.cpus;
  }

  lemma QuietRound(s0: State, s: State, t: State, c: Cpu, n: nat, found: bool, gaveUp: bool)
    requires Inv(s) && QuietTo(s0, s, c, n, false, false) && Enabled(s, MigrateTry(c))
    requires (found <==> Usable(s, s.cpus[c].phase.target)) && (gaveUp <==> GivesUp(s, MigrateTry(c)))
    requires if gaveUp then t == s else Apply(s, MigrateTry(c)) == Done(t)
    ensures QuietTo(s0, t, c, n, found, gaveUp)
  {
    if found {
      MoveTaken(s, t, c);
    } else {
      TryEffect(s, t, c, found, gaveUp);
      QuietOn(s0, s, t, c, n, gaveUp);
    }
  }

  lemma QuietOn(s0: State, s: State, t: State, c: Cpu, n: nat, gaveUp: bool)
    requires Inv(s) && QuietTo(s0, s, c, n, false, false) && Scanning(s, c) && !Usable(s, s.cpus[c].phase.target)
    requires c < n
    requires gaveUp <==> NextTarget(s.cpus[c].phase.target, c, n) == s.cpus[c].phase.start
    requires if gaveUp then t == s else t == At(s, c, NextTarget(s.cpus[c].phase.target, c, n))
    ensures QuietTo(s0, t, c, n, false, gaveUp)
  {
    assert CpuOk(s, c);
    ScanOn(c, s.cpus[c].phase.start, s.cpus[c].phase.target, n);
    assert !gaveUp ==> t == At(s0, c, t.cpus[c].phase.target);
  }

  lemma MoveTaken(s: State, t: State, c: Cpu)
    requires Inv(s) && Enabled(s, MigrateTry(c)) && Usable(s, s.cpus[c].phase.target)
    requires Apply(s, MigrateTry(c)) == Done(t)
    ensures c < |t.cpus| && t.cpus[c].phase == Migrating(s.cpus[c].phase.target, None, s.cpus[c].phase.target)
    ensures Owns(s, c) ==> Taken(s, t, c, s.cpus[c].phase.target)
  {
    assert CpuOk(s, c);
    if Owns(s, c) {
      MoveEffect(s, c, s.cpus[c].phase.transit.value, s.cpus[c].phase.target);
      MovePuts(s, c);
    }
  }

  /** One round of the hand-over, when other CPUs do nothing. */
  ghost predicate QuietMove(s: State, t: State, c: Cpu, found: bool) {
    c < |s.queues| && c < |t.cpus| && t.cpus[c].phase.Migrating? &&
    if found then
      var target := t.cpus[c].phase.start;
      target < |s.queues| && MovedHead(s, t, c, target) && Usable(s, target)
    else SameQueues(s, t, c) && forall p | 0 <= p < |s.queues| && p != c :: !Usable(s, p)
  }

  /** From the pick of timer `u` to the end of the scan. */
  lemma QuietHead(s: State, m: State, t: State, c: Cpu, u: TimerId, found: bool)
    requires c < |s.cpus| == |m.cpus| && c < |s.queues| && Popped(s, m.(cpus := s.cpus), c, u)
    requires m.timers == s.timers && m.timers[u].queue == Some(c)
    requires m.functional == s.functional && m.cpus == s.cpus[c := m.cpus[c]] && !s.queues[c].online
    requires s.cpus[c].phase.Migrating?
    requires m.cpus[c] == s.cpus[c].(phase := Migrating(s.cpus[c].phase.start, Some(u), s.cpus[c].phase.start))
    requires |s.queues| == |m.queues| && QuietTo(m, t, c, |m.queues|, found, !found)
    ensures QuietMove(s, t, c, found)
  {
    var target := t.cpus[c].phase.start;
    assert forall p: Cpu :: Usable(m, p) <==> Usable(s, p);
    if found {
      assert Owns(m, c);
      assert t.cpus == s.cpus[c := s.cpus[c].(phase := Migrating(target, None, target))];
    }
  }

  /** The head of `c`'s queue has become a timer of `target`. */
  ghost predicate MovedHead(s: State, r: State, c: Cpu, target: Cpu)
    requires c < |s.queues| && target < |s.queues|
  {
    |r.queues| == |s.queues| && c < |s.cpus| == |r.cpus| &&
    r.cpus == s.cpus[c := s.cpus[c].(phase := Migrating(target, None, target))] &&
    target != c && s.queues[c].list != [] && r.functional == s.functional &&
    var t := s.queues[c].list[0];
    t < |s.timers| && s.timers[t].queue == Some(c) && s.timers[t].timeout == s.queues[c].timeout &&
    r.timers == s.timers[t := s.timers[t].(queue := Some(target))] &&
    r.queues[c].list == s.queues[c].list[1..] &&
    forall p | 0 <= p < |r.queues| :: r.queues[p].online == s.queues[p].online
  }

  ghost predicate SameQueues(s: State, r: State, c: Cpu) {
    r.timers == s.timers && |r.queues| == |s.queues| && r.functional == s.functional &&
    forall p | 0 <= p < |r.queues| :: r.queues[p].online == s.queues[p].online
  }

  /** The state `s` in the middle of the hand-over that began in `s0`. */
  ghost predicate HandingOver(s0: State, s: State, c: Cpu) {
    |s0.queues| == |s.queues| == |s0.cpus| == |s.cpus| && c < |s0.cpus| && |s.timers| == |s0.timers| &&
    s.functional == s0.functional && NoLocks(s) && s.cpus == s0.cpus[c := s0.cpus[c].(phase := s.cpus[c].phase)] &&
    s.cpus[c].phase.Migrating? && s.cpus[c].phase.transit.None? &&
    (forall p | 0 <= p < |s.queues| :: s.queues[p].online == (p != c && s0.queues[p].online)) &&
    (forall t | 0 <= t < |s.timers| :: s.timers[t] == s0.timers[t] || Handed(s0, c, s0.timers[t], s.timers[t])) &&
    (s0.queues[c].timeout == INVALID_TIMEOUT ==> s.queues[c].timeout == INVALID_TIMEOUT)
  }

  lemma HandedHead(s0: State, s: State, r: State, c: Cpu, target: Cpu)
    requires HandingOver(s0, s, c) && s.queues[c].timeout != INVALID_TIMEOUT && target < |s.queues|
    requires MovedHead(s, r, c, target) && Usable(s, target)
    ensures HandingOver(s0, r, c)
  {
    forall t | 0 <= t < |r.timers| ensures r.timers[t] == s0.timers[t] || Handed(s0, c, s0.timers[t], r.timers[t]) {
      if t == s.queues[c].list[0] {
        assert s.timers[t] == s0.timers[t];
      }
    }
  }

  lemma GivenUp(s0: State, s: State, r: State, c: Cpu)
    requires HandingOver(s0, s, c) && s.queues[c].timeout != INVALID_TIMEOUT
    requires SameQueues(s, r, c) && forall p | 0 <= p < |s.queues| && p != c :: !Usable(s, p)
    ensures NobodyTakes(s0, c)
  {
    forall p | 0 <= p < |s0.queues| && p != c ensures !Usable(s0, p) {
      assert !Usable(s, p);
    }
  }

  lemma HandedAll(s0: State, s: State, c: Cpu)
    requires Inv(s) && c < |s.cpus| && s.cpus[c].phase.Offline? && |s.timers| == |s0.timers|
    requires forall t | 0 <= t < |s.timers| :: s.timers[t] == s0.timers[t] || Handed(s0, c, s0.timers[t], s.timers[t])
    ensures forall t | 0 <= t < |s.timers| :: Handed(s0, c, s0.timers[t], s.timers[t])
  {
    assert CpuOk(s, c);
    OnlyReservedLeft(s, c);
  }

  /** `t` has gone from the head of `c`'s queue, and nothing else has changed in it. */
  ghost predicate Popped(s: State, r: State, c: Cpu, t: TimerId) {
    |r.queues| == |s.queues| && |r.timers| == |s.timers| && c < |s.queues| && t < |s.timers| &&
    s.queues[c].list == [t] + r.queues[c].list && s.queues[c].timeout == s.timers[t].timeout &&
    r.queues == s.queues[c := s.queues[c].(list := r.queues[c].list, timeout := r.queues[c].timeout)] &&
    r.timers == s.timers[t := s.timers[t].(queue := r.timers[t].queue)] && r.cpus == s.cpus
  }

  lemma PopEffect(s: State, c: Cpu, clear: bool)
    requires Inv(s) && c < |s.queues| && s.queues[c].list != []
    ensures var t := s.queues[c].list[0];
            var d := DequeueInternal(s, c, t, clear);
            d.Done? && Popped(s, d.value, c, t) && s.timers[t].queue == Some(c) &&
            d.value.timers[t].queue == if clear then None else Some(c)
  {
    var t := s.queues[c].list[0];
    assert t in s.queues[c].list;
    ListedNames(s, t, c);
    assert QueueOk(s.timers, c, s.queues[c]);
    DequeueEffect(s, c, t, clear);
  }

  /** `t` was due and is no longer queued. */
  ghost predicate Fired(before: seq<Timer>, after: seq<Timer>, t: TimerId, now: nat) {
    t < |before| && t < |after| && before[t].timeout <= now && after[t].queue.None?
  }

  /** Since `s0`, exactly `fired` has been popped from the front of `c`'s queue, all due. */
  ghost predicate FiredFrom(s0: State, s: State, c: Cpu, now: nat, fired: seq<TimerId>) {
    |s.queues| == |s0.queues| && |s.timers| == |s0.timers| && c < |s0.queues| && s.cpus == s0.cpus &&
    s.queues == s0.queues[c := s0.queues[c].(list := s.queues[c].list, timeout := s.queues[c].timeout)] &&
    fired + s.queues[c].list == s0.queues[c].list &&
    (forall i | 0 <= i < |fired| :: Fired(s0.timers, s.timers, fired[i], now)) &&
    (forall i | 0 <= i < |s.timers| :: s.timers[i].timeout == s0.timers[i].timeout)
  }

  lemma FiredOn(s0: State, s: State, r: State, c: Cpu, now: nat, fired: seq<TimerId>, t: TimerId)
    requires FiredFrom(s0, s, c, now, fired) && s.queues[c].timeout <= now
    requires Popped(s, r, c, t) && r.timers[t].queue.None?
    ensures FiredFrom(s0, r, c, now, fired + [t])
  {
    assert fired + [t] + r.queues[c].list == fired + s.queues[c].list;
  }

  /** The timer in transit from `c` is now queued on `target`. */
  ghost predicate Taken(s: State, r: State, c: Cpu, target: Cpu)
    requires c < |s.cpus| && s.cpus[c].phase.Migrating? && s.cpus[c].phase.transit.Some?
  {
    var t := s.cpus[c].phase.transit.value;
    t < |s.timers| && target < |s.queues| == |r.queues| &&
    r.timers == s.timers[t := s.timers[t].(queue := Some(target))] &&
    PutInOrder(r.timers, s.queues[target].list, r.queues[target].list, t) && r.queues[target].list != [] &&
    r.queues == s.queues[target := s.queues[target].(
                list := r.queues[target].list, timeout := r.queues[target].timeout,
                syncPending := s.queues[target].syncPending || r.queues[target].list[0] == t)] &&
    r.cpus == s.cpus[c := s.cpus[c].(phase := Migrating(target, None, target))] && r.functional == s.functional
  }

  /** The queue that takes the timer over stays in order. */
  lemma MovePuts(s: State, c: Cpu)
    requires Inv(s) && Enabled(s, MigrateTry(c)) && Usable(s, s.cpus[c].phase.target)
    ensures var t, target := s.cpus[c].phase.transit.value, s.cpus[c].phase.target;
            t < |s.timers| && (s.timers[t].queue == Some(c) ==>
              var r := TimerProtocol.MoveTo(s, c, t, target);
              r.Done? && |r.value.queues| == |s.queues| &&
              PutInOrder(r.value.timers, s.queues[target].list, r.value.queues[target].list, t))
  {
    var t, target := s.cpus[c].phase.transit.value, s.cpus[c].phase.target;
    assert CpuOk(s, c);
    if s.timers[t].queue == Some(c) {
      assert QueueOk(s.timers, target, s.queues[target]);
      UnqueuedUnlisted(s, t, target);
      SortedFrame(s.timers, t, s.timers[t].(queue := Some(target)), s.queues[target].list);
      InsertPuts(s.timers[t := s.timers[t].(queue := Some(target))], s.queues[target].list, t);
    }
  }

  /** How a timer fares when CPU `c` goes offline. */
  predicate Handed(s: State, c: Cpu, before: Timer, after: Timer) {
    after.timeout == before.timeout &&
    if before.queue == Some(c) && before.timeout != INVALID_TIMEOUT
    then after.queue.Some? && after.queue.value != c && Usable(s, after.queue.value)
    else after.queue == before.queue
  }

  lemma Unlisted(s: State, t: TimerId)
    requires Inv(s) && t < |s.timers| && s.timers[t].queue.None?
    ensures Listings(s.queues, t) == 0
  {
    ListingsUnique(s.timers, s.queues, t);
  }

  /** Once the head of a queue is not due, none of its timers is. */
  lemma AllLater(s: State, c: Cpu, now: nat)
    requires Inv(s) && c < |s.queues| && s.queues[c].timeout > now
    ensures forall i | 0 <= i < |s.queues[c].list| :: s.queues[c].list[i] < |s.timers| &&
                                                      s.timers[s.queues[c].list[i]].timeout > now
  {
    var list := s.queues[c].list;
    forall i | 0 <= i < |list| ensures list[i] < |s.timers| && s.timers[list[i]].timeout > now {
      assert list[i] in list;
      CacheIsMinimum(s, c, list[i]);
    }
  }

  /** Once the queue caches the reserved timeout, no timer with another one names it. */
  lemma OnlyReservedLeft(s: State, c: Cpu)
    requires Inv(s) && c < |s.queues| && s.queues[c].timeout == INVALID_TIMEOUT && s.cpus[c].phase.Offline?
    ensures forall t | 0 <= t < |s.timers| && s.timers[t].queue == Some(c) :: s.timers[t].timeout == INVALID_TIMEOUT
  {
    forall t | 0 <= t < |s.timers| && s.timers[t].queue == Some(c) ensures s.timers[t].timeout == INVALID_TIMEOUT {
      assert Backed(s, t);
      CacheIsMinimum(s, c, t);
    }
  }
}
