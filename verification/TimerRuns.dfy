/** Every step keeps the invariant of the timer queues and none panics; the
    theorems about whole runs follow. */
module TimerRuns {
  import opened Outcomes
  import opened Lists
  import opened TimerProtocol
  import opened TimerSafety

  // ------------------------------------------------------------------- pieces

  lemma ListUpdated(timers: seq<Timer>, list: seq<TimerId>, t: TimerId, x: Timer, q: Cpu)
    requires t < |timers| && Known(timers, list) && Sorted(timers, list) && Distinct(list) && Names(timers, list, q)
    requires t !in list && x.queue == Some(q)
    ensures var ts := timers[t := x]; var r := Insert(ts, list, t);
            Known(ts, r) && Sorted(ts, r) && Distinct(r) && Names(ts, r, q) && r != [] &&
            (r[0] == t || (list != [] && r[0] == list[0])) &&
            HeadTimeout(ts, r) == (if r[0] == t then x.timeout else HeadTimeout(timers, list))
    ensures forall u: TimerId :: u in Insert(timers[t := x], list, t) <==> u == t || u in list
  {
    var ts := timers[t := x];
    SortedFrame(timers, t, x, list);
    InsertKeeps(ts, list, t);
    forall u: TimerId ensures u in Insert(ts, list, t) <==> u == t || u in list {
      InsertMembers(ts, list, t, u);
    }
    var r := Insert(ts, list, t);
    forall i | 0 <= i < |r| ensures ts[r[i]].queue == Some(q) {
      assert r[i] in r;
    }
  }

  /** Unlinking through the queue a timer is in, or a redundant unlinking, keeps the queue. */
  lemma DequeueEffect(s: State, q: Cpu, t: TimerId, clear: bool)
    requires Inv(s) && t < |s.timers| && q < |s.queues| && !ListedElsewhere(s, t, q)
    ensures var d := DequeueInternal(s, q, t, clear);
            d.Done? && d.value.cpus == s.cpus && d.value.functional == s.functional &&
            |d.value.timers| == |s.timers| && |d.value.queues| == |s.queues| &&
            d.value.timers == s.timers[t := if clear then s.timers[t].(queue := None) else s.timers[t]] &&
            d.value.queues ==
              s.queues[q := s.queues[q].(list := d.value.queues[q].list, timeout := d.value.queues[q].timeout)] &&
            QueueOk(d.value.timers, q, d.value.queues[q]) && Remote(s, d.value, q) &&
            forall u: TimerId :: u in d.value.queues[q].list <==> u in s.queues[q].list && u != t
  {
    var tq := s.queues[q];
    var list := Without(tq.list, t);
    assert QueueOk(s.timers, q, tq);
    WithoutKeeps(s.timers, tq.list, t);
    WithoutMembers(tq.list, t);
    assert t !in list;
    SortedFrame(s.timers, t, s.timers[t].(queue := None), list);
    forall i | 0 <= i < |list| ensures s.timers[list[i]].queue == Some(q) {
      assert list[i] in list;
    }
    assert tq.timeout <= INVALID_TIMEOUT by {
      if tq.list != [] { assert Backed(s, tq.list[0]); }
    }
    if list != [] {
      assert list[0] in list;
      assert Backed(s, list[0]);
    }
    assert s.timers[t := s.timers[t]] == s.timers;
  }

  lemma EnqueueEffect(s: State, c: Cpu, t: TimerId, timeout: nat)
    requires Inv(s) && t < |s.timers| && c < |s.queues| && s.timers[t].queue.None? && s.queues[c].online
    ensures var d := EnqueueInternal(s, c, t, timeout);
            d.Done? && d.value.cpus == s.cpus && d.value.functional == s.functional && |d.value.queues| == |s.queues| &&
            d.value.timers == s.timers[t := Timer(timeout, Some(c))] &&
            d.value.queues == s.queues[c := d.value.queues[c]] &&
            QueueOk(d.value.timers, c, d.value.queues[c]) &&
            d.value.queues[c].online && d.value.queues[c].syncPending == s.queues[c].syncPending &&
            (d.value.queues[c].deadline <= d.value.queues[c].timeout ||
             (d.value.queues[c].deadline == s.queues[c].deadline &&
              d.value.queues[c].timeout == s.queues[c].timeout)) &&
            forall u: TimerId :: u in d.value.queues[c].list <==> u in s.queues[c].list || u == t
  {
    var tq := s.queues[c];
    assert QueueOk(s.timers, c, tq);
    UnqueuedUnlisted(s, t, c);
    ListUpdated(s.timers, tq.list, t, Timer(timeout, Some(c)), c);
  }

  lemma UpdateEffect(s: State, c: Cpu, t: TimerId, timeout: nat)
    requires Inv(s) && t < |s.timers| && c < |s.queues| && s.timers[t].queue == Some(c) && t in s.queues[c].list
    requires s.queues[c].online
    ensures var d := UpdateInternal(s, c, t, timeout);
            d.Done? && d.value.cpus == s.cpus && d.value.functional == s.functional && |d.value.queues| == |s.queues| &&
            d.value.timers == s.timers[t := Timer(timeout, Some(c))] &&
            d.value.queues == s.queues[c := d.value.queues[c]] &&
            QueueOk(d.value.timers, c, d.value.queues[c]) &&
            d.value.queues[c].online && d.value.queues[c].syncPending == s.queues[c].syncPending &&
            (d.value.queues[c].deadline <= d.value.queues[c].timeout ||
             (d.value.queues[c].deadline == s.queues[c].deadline &&
              d.value.queues[c].timeout == s.queues[c].timeout)) &&
            forall u: TimerId :: u in d.value.queues[c].list <==> u in s.queues[c].list
  {
    var tq := s.queues[c];
    assert QueueOk(s.timers, c, tq);
    ListedNames(s, t, c);
    if s.timers[t].timeout == timeout {
      assert s.timers[t := Timer(timeout, Some(c))] == s.timers;
    } else {
      var rest := Without(tq.list, t);
      WithoutKeeps(s.timers, tq.list, t);
      WithoutMembers(tq.list, t);
      forall i | 0 <= i < |rest| ensures s.timers[rest[i]].queue == Some(c) {
        assert rest[i] in rest;
      }
      ListUpdated(s.timers, rest, t, Timer(timeout, Some(c)), c);
      assert s.timers[t].(timeout := timeout) == Timer(timeout, Some(c));
    }
  }

  lemma MoveEffect(s: State, c: Cpu, t: TimerId, target: Cpu)
    requires Inv(s) && t < |s.timers| && target < |s.queues| && s.timers[t].queue == Some(c) && target != c
    ensures var d := MoveTo(s, c, t, target);
            d.Done? && d.value.cpus == s.cpus && d.value.functional == s.functional && |d.value.queues| == |s.queues| &&
            d.value.timers == s.timers[t := s.timers[t].(queue := Some(target))] &&
            d.value.queues == s.queues[target := d.value.queues[target]] &&
            QueueOk(d.value.timers, target, d.value.queues[target]) &&
            (s.queues[target].online ==> Remote(s, d.value, target)) &&
            forall u: TimerId :: u in d.value.queues[target].list <==> u in s.queues[target].list || u == t
  {
    var tq := s.queues[target];
    assert QueueOk(s.timers, target, tq);
    UnqueuedUnlisted(s, t, target);
    ListUpdated(s.timers, tq.list, t, s.timers[t].(queue := Some(target)), target);
  }

  lemma EnqueuePuts(s: State, c: Cpu, t: TimerId, timeout: nat)
    requires Inv(s) && EnqueueInternal(s, c, t, timeout).Done?
    ensures var r := EnqueueInternal(s, c, t, timeout).value;
            |r.queues| == |s.queues| && PutInOrder(r.timers, s.queues[c].list, r.queues[c].list, t)
  {
    assert QueueOk(s.timers, c, s.queues[c]);
    UnqueuedUnlisted(s, t, c);
    SortedFrame(s.timers, t, Timer(timeout, Some(c)), s.queues[c].list);
    InsertPuts(s.timers[t := Timer(timeout, Some(c))], s.queues[c].list, t);
  }

  lemma UpdatePuts(s: State, c: Cpu, t: TimerId, timeout: nat)
    requires UpdateInternal(s, c, t, timeout).Done? && t in s.queues[c].list && QueueOk(s.timers, c, s.queues[c])
    ensures var r := UpdateInternal(s, c, t, timeout).value;
            |r.queues| == |s.queues| &&
            if s.timers[t].timeout == timeout then r == s else Retimed(r.timers, s.queues[c], r.queues[c], t)
  {
    PutsBack(s.timers, s.queues[c].list, t, s.timers[t].(timeout := timeout));
  }

  lemma PutsBack(timers: seq<Timer>, list: seq<TimerId>, t: TimerId, x: Timer)
    requires t < |timers| && Known(timers, list) && Sorted(timers, list) && Distinct(list) && t in list
    ensures var ts, rest := timers[t := x], Without(list, t);
            Known(ts, rest) && PutBack(ts, list, Insert(ts, rest, t), t) && Insert(ts, rest, t) != []
  {
    WithoutKeeps(timers, list, t);
    WithoutMembers(list, t);
    WithoutDrops(list, t);
    SortedFrame(timers, t, x, Without(list, t));
    InsertPuts(timers[t := x], Without(list, t), t);
  }

  // ---------------------------------------------------------- steps, one by one

  /** A CPU that only moves on by itself, and keeps its own queue's list. */
  lemma LocalStep(s: State, r: State, c: Cpu)
    requires Inv(s) && c < |s.cpus| && |r.queues| == |s.queues| && |r.cpus| == |s.cpus| && r.timers == s.timers
    requires r.functional == s.functional
    requires r.cpus == s.cpus[c := r.cpus[c]] && r.queues == s.queues[c := r.queues[c]]
    requires r.queues[c].list == s.queues[c].list && r.queues[c].timeout == s.queues[c].timeout
    requires CpuOk(r, c)
    requires s.cpus[c].phase == r.cpus[c].phase || !s.cpus[c].phase.Migrating? || s.cpus[c].phase.transit.None? ||
             InTransit(r.cpus[c].phase, s.cpus[c].phase.transit.value)
    requires r.cpus[c].op.NoOp? || Holds(s.cpus[c].op, r.cpus[c].op.timer) || Unlocked(s, r.cpus[c].op.timer)
    ensures Inv(r)
  {
    assert QueueOk(s.timers, c, s.queues[c]);
    forall q | 0 <= q < |r.queues| ensures QueueOk(r.timers, q, r.queues[q]) {
      assert QueueOk(s.timers, q, s.queues[q]);
    }
    forall t | 0 <= t < |r.timers| ensures Backed(r, t) {
      assert Backed(s, t);
    }
    forall d | 0 <= d < |r.cpus| ensures CpuOk(r, d) {
      assert CpuOk(s, d);
    }
  }

  /** The lock of `t` is held by `c` alone, or by nobody. */
  lemma SoleHolder(s: State, c: Cpu, t: TimerId)
    requires Inv(s) && c < |s.cpus| && (Unlocked(s, t) || Holds(s.cpus[c].op, t))
    ensures forall d | 0 <= d < |s.cpus| && d != c :: !Holds(s.cpus[d].op, t)
  {
    forall d | 0 <= d < |s.cpus| && d != c ensures !Holds(s.cpus[d].op, t) {
      if d < c {
      } else {
      }
    }
  }

  lemma EnqueueStep(s: State, step: Step)
    requires Inv(s) && Enabled(s, step) && step.Enqueue?
    ensures Apply(s, step).Done? && Inv(Apply(s, step).value)
  {
    var c, t := step.cpu, step.timer;
    assert CpuOk(s, c);
    assert Backed(s, t);
    EnqueueEffect(s, c, t, step.timeout);
    SoleHolder(s, c, t);
    forall p | 0 <= p < |s.queues| ensures t !in s.queues[p].list { UnqueuedUnlisted(s, t, p); }
    DeltaKeepsInv(s, Apply(s, step).value, t, c, c);
  }

  /** While its lock is held by an operation that saw it in `q`, a timer is in no other queue. */
  lemma HeldIsNotElsewhere(s: State, t: TimerId, q: Cpu)
    requires Inv(s) && t < |s.timers| && q < |s.queues| && (s.timers[t].queue.None? || s.timers[t].queue == Some(q))
    ensures !ListedElsewhere(s, t, q)
  {
    forall p | 0 <= p < |s.queues| && p != q ensures t !in s.queues[p].list { UnqueuedUnlisted(s, t, p); }
  }

  lemma DequeueFinishStep(s: State, step: Step)
    requires Inv(s) && Enabled(s, step) && step.DequeueFinish?
    ensures Apply(s, step).Done? && Inv(Apply(s, step).value)
  {
    var c := step.cpu;
    var op := s.cpus[c].op;
    assert CpuOk(s, c);
    assert Backed(s, op.timer);
    HeldIsNotElsewhere(s, op.timer, op.queue);
    DequeueEffect(s, op.queue, op.timer, true);
    SoleHolder(s, c, op.timer);
    var r := Apply(s, step).value;
    DeltaKeepsInv(s, r, op.timer, op.queue, c);
  }

  lemma UpdateLeaveStep(s: State, step: Step)
    requires Inv(s) && Enabled(s, step) && step.UpdateLeave?
    ensures Apply(s, step).Done? && Inv(Apply(s, step).value)
  {
    var c := step.cpu;
    var op := s.cpus[c].op;
    assert CpuOk(s, c);
    assert Backed(s, op.timer);
    SoleHolder(s, c, op.timer);
    var r := Apply(s, step);
    if op.seen.None? {
      assert s.queues[c := s.queues[c]] == s.queues;
      LocalStep(s, r.value, c);
    } else {
      HeldIsNotElsewhere(s, op.timer, op.seen.value);
      DequeueEffect(s, op.seen.value, op.timer, true);
      DeltaKeepsInv(s, r.value, op.timer, op.seen.value, c);
    }
  }

  lemma UpdateFinishStep(s: State, step: Step)
    requires Inv(s) && Enabled(s, step) && step.UpdateFinish?
    ensures Apply(s, step).Done? && Inv(Apply(s, step).value)
  {
    var c := step.cpu;
    var op := s.cpus[c].op;
    assert CpuOk(s, c);
    assert Backed(s, op.timer);
    SoleHolder(s, c, op.timer);
    HeldIsNotElsewhere(s, op.timer, c);
    if op.Rearming? {
      EnqueueEffect(s, c, op.timer, op.timeout);
    } else {
      UpdateEffect(s, c, op.timer, op.timeout);
    }
    DeltaKeepsInv(s, Apply(s, step).value, op.timer, c, c);
  }

  lemma ExpirePopStep(s: State, step: Step)
    requires Inv(s) && Enabled(s, step) && step.ExpirePop?
    ensures Apply(s, step).Done? && Inv(Apply(s, step).value)
  {
    var c := step.cpu;
    assert CpuOk(s, c);
    assert QueueOk(s.timers, c, s.queues[c]);
    var t := s.queues[c].list[0];
    ListedNames(s, t, c);
    assert Backed(s, t);
    DequeueEffect(s, c, t, true);
    var r := Apply(s, step).value;
    forall d | 0 <= d < |s.cpus| && d != c && Holds(s.cpus[d].op, t)
      ensures OpOk(r.timers, |r.queues|, d, s.cpus[d].op)
    {
      assert CpuOk(s, d);
    }
    DeltaKeepsInv(s, r, t, c, c);
  }

  lemma MigratePickStep(s: State, step: Step)
    requires Inv(s) && Enabled(s, step) && step.MigratePick?
    ensures Apply(s, step).Done? && Inv(Apply(s, step).value)
  {
    var c := step.cpu;
    assert CpuOk(s, c);
    assert QueueOk(s.timers, c, s.queues[c]);
    var t := s.queues[c].list[0];
    ListedNames(s, t, c);
    assert Backed(s, t);
    DequeueEffect(s, c, t, false);
    var r := Apply(s, step).value;
    assert r.timers == s.timers;
    forall d | 0 <= d < |s.cpus| && d != c && Holds(s.cpus[d].op, t)
      ensures OpOk(r.timers, |r.queues|, d, s.cpus[d].op)
    {
      assert CpuOk(s, d);
    }
    DeltaKeepsInv(s, r, t, c, c);
  }

  /** The scan for a target comes back to where it began without having found one. */
  predicate GivesUp(s: State, step: Step)
    requires Enabled(s, step)
  {
    step.MigrateTry? &&
    var phase := s.cpus[step.cpu].phase;
    !Usable(s, phase.target) && NextTarget(phase.target, step.cpu, |s.queues|) == phase.start
  }

  lemma Modulo(p: Cpu, n: nat)
    requires p < n
    ensures (p + 1) % n == if p + 1 == n then 0 else p + 1
  {
  }

  /** A CPU that takes timers over gets the one in transit, unless it was dequeued meanwhile. */
  lemma MigrateMove(s: State, step: Step)
    requires Inv(s) && Enabled(s, step) && step.MigrateTry? && Usable(s, s.cpus[step.cpu].phase.target)
    ensures Apply(s, step).Done? && Inv(Apply(s, step).value)
  {
    var c, target := step.cpu, s.cpus[step.cpu].phase.target;
    var t := s.cpus[c].phase.transit.value;
    assert CpuOk(s, c);
    assert Backed(s, t);
    assert CpuOk(s, target);
    assert QueueOk(s.timers, target, s.queues[target]);
    var r := Apply(s, step);
    SoleHolder(s, c, t);
    if s.timers[t].queue == Some(c) {
      MoveEffect(s, c, t, target);
      forall p | 0 <= p < |s.queues| && p != target ensures t !in s.queues[p].list {
        if p != c { UnqueuedUnlisted(s, t, p); }
      }
      DeltaKeepsInv(s, r.value, t, target, c);
    } else {
      assert s.timers[t := s.timers[t]] == s.timers;
      assert s.queues[c := s.queues[c]] == s.queues;
      assert QueueOk(s.timers, c, s.queues[c]);
      DeltaKeepsInv(s, r.value, t, c, c);
    }
  }

  lemma MigrateTryStep(s: State, step: Step)
    requires Inv(s) && Enabled(s, step) && step.MigrateTry?
    ensures Apply(s, step).Panic? <==> GivesUp(s, step)
    ensures Apply(s, step).Done? ==> Inv(Apply(s, step).value)
  {
    var c := step.cpu;
    assert CpuOk(s, c);
    if Usable(s, s.cpus[c].phase.target) {
      MigrateMove(s, step);
    } else if !GivesUp(s, step) {
      Modulo(s.cpus[c].phase.target, |s.queues|);
      Modulo(c, |s.queues|);
      assert s.queues[c := s.queues[c]] == s.queues;
      LocalStep(s, Apply(s, step).value, c);
    }
  }

  /** Every step an interleaving may take keeps the invariant, and only a scan that
      gives up panics. */
  lemma StepKeepsInv(s: State, step: Step)
    requires Inv(s) && Enabled(s, step)
    ensures Apply(s, step).Panic? <==> GivesUp(s, step)
    ensures Apply(s, step).Done? ==> Inv(Apply(s, step).value)
  {
    var c := step.cpu;
    assert CpuOk(s, c);
    match step {
      case Enqueue(_, _, _) => EnqueueStep(s, step);
      case DequeueFinish(_) => DequeueFinishStep(s, step);
      case UpdateLeave(_) => UpdateLeaveStep(s, step);
      case UpdateFinish(_) => UpdateFinishStep(s, step);
      case ExpirePop(_) => ExpirePopStep(s, step);
      case MigratePick(_) => MigratePickStep(s, step);
      case MigrateTry(_) => MigrateTryStep(s, step);
      case _ => SimpleStep(s, step);
    }
  }

  lemma SimpleStep(s: State, step: Step)
    requires Inv(s) && Enabled(s, step)
    requires step.DequeueLoad? || step.UpdateLoad? || step.ExpireBegin? || step.ExpireEnd? || step.OfflineBegin? ||
             step.OfflineEnd? || step.OnlineAgain?
    ensures Apply(s, step).Done? && Inv(Apply(s, step).value)
  {
    var c := step.cpu;
    assert CpuOk(s, c);
    assert QueueOk(s.timers, c, s.queues[c]);
    assert s.queues[c := s.queues[c]] == s.queues;
    assert s.cpus[c := s.cpus[c]] == s.cpus;
    if step.DequeueLoad? || step.UpdateLoad? {
      assert Backed(s, step.timer);
    }
    if step.OfflineBegin? { Modulo(c, |s.queues|); }
    LocalStep(s, Apply(s, step).value, c);
  }

  // ---------------------------------------------------------------- whole runs

  lemma {:induction false} InvHolds(states: seq<State>, steps: seq<Step>, k: nat)
    requires IsRun(states, steps) && k <= |steps|
    ensures Inv(states[k])
  {
    if k > 0 {
      InvHolds(states, steps, k - 1);
      assert Follows(states, steps, k - 1);
      StepKeepsInv(states[k - 1], steps[k - 1]);
    }
  }

  /** No interleaving enqueues a queued timer, unlinks a timer through the wrong
      queue, pops an empty one, or enqueues on a CPU that is offline. The one panic
      that can happen is that of a scan which gives up; `TimerScan` says when. */
  lemma OnlyScansPanic(states: seq<State>, steps: seq<Step>, k: nat, step: Step)
    requires IsRun(states, steps) && k <= |steps| && Enabled(states[k], step)
    ensures Apply(states[k], step).Panic? <==> GivesUp(states[k], step)
    ensures Apply(states[k], step).Done? ==> Inv(Apply(states[k], step).value)
  {
    InvHolds(states, steps, k);
    StepKeepsInv(states[k], step);
  }

  /** How often a timer is listed, over all queues. */
  function Listings(queues: seq<Queue>, t: TimerId): (n: nat) {
    if queues == [] then 0
    else Listings(queues[..|queues| - 1], t) + Count(queues[|queues| - 1].list, t)
  }

  function Count(list: seq<TimerId>, t: TimerId): (n: nat) {
    if list == [] then 0 else (if list[0] == t then 1 else 0) + Count(list[1..], t)
  }

  lemma {:induction false} CountDistinct(list: seq<TimerId>, t: TimerId)
    requires Distinct(list)
    ensures Count(list, t) == if t in list then 1 else 0
  {
    if list != [] {
      assert list == [list[0]] + list[1..];
      CountDistinct(list[1..], t);
    }
  }

  lemma {:induction false} ListingsUnique(timers: seq<Timer>, queues: seq<Queue>, t: TimerId)
    requires t < |timers| && forall q | 0 <= q < |queues| :: QueueOk(timers, q, queues[q])
    ensures Listings(queues, t) == if exists q | 0 <= q < |queues| :: t in queues[q].list then 1 else 0
    ensures Listings(queues, t) == 1 ==> timers[t].queue.Some? && timers[t].queue.value < |queues|
  {
    if queues != [] {
      var n := |queues| - 1;
      var front := queues[..n];
      ListingsUnique(timers, front, t);
      CountDistinct(queues[n].list, t);
      assert QueueOk(timers, n, queues[n]);
      forall q | 0 <= q < n ensures (t in queues[q].list) == (t in front[q].list) {}
      if t in queues[n].list {
        forall q | 0 <= q < n ensures t !in front[q].list { assert QueueOk(timers, q, queues[q]); }
      } else if q :| 0 <= q < |queues| && t in queues[q].list {
        assert t in front[q].list;
      }
    }
  }

  /** In every state of every run a timer is listed at most once over all CPUs. A
      timer that names a queue is listed in that queue, unless that CPU is handing
      this very timer over; a timer that names none is listed nowhere. */
  lemma NoTimerLostOrDuplicated(states: seq<State>, steps: seq<Step>, k: nat, t: TimerId)
    requires IsRun(states, steps) && k <= |steps| && t < |states[k].timers|
    ensures var s := states[k]; var q := s.timers[t].queue;
            |s.cpus| == |s.queues| && Listings(s.queues, t) <= 1 &&
            (q.None? ==> Listings(s.queues, t) == 0) &&
            (q.Some? ==> q.value < |s.queues| &&
                         (t in s.queues[q.value].list <==> Listings(s.queues, t) == 1) &&
                         (t !in s.queues[q.value].list <==> InTransit(s.cpus[q.value].phase, t)))
  {
    InvHolds(states, steps, k);
    var s := states[k];
    var q := s.timers[t].queue;
    ListingsUnique(s.timers, s.queues, t);
    assert Backed(s, t);
    forall p | 0 <= p < |s.queues| && q != Some(p) ensures t !in s.queues[p].list { UnqueuedUnlisted(s, t, p); }
    if q.Some? { assert CpuOk(s, q.value); }
  }

  lemma {:induction false} SortedPairs(timers: seq<Timer>, list: seq<TimerId>, i: nat, j: nat)
    requires Known(timers, list) && Sorted(timers, list) && i <= j < |list|
    ensures timers[list[i]].timeout <= timers[list[j]].timeout
  {
    if i > 0 {
      assert list[i] == list[1..][i - 1] && list[j] == list[1..][j - 1];
      SortedPairs(timers, list[1..], i - 1, j - 1);
    } else if j > 0 {
      assert list[j] == list[1..][j - 1];
    }
  }

  /** A queue's cached timeout is the minimum over all timers that name it and are
      listed, and `INVALID_TIMEOUT` when there are none. */
  lemma CacheIsMinimum(s: State, q: Cpu, t: TimerId)
    requires Inv(s) && q < |s.queues| && t in s.queues[q].list
    ensures t < |s.timers| && s.queues[q].timeout <= s.timers[t].timeout
    ensures exists u | u in s.queues[q].list :: u < |s.timers| && s.queues[q].timeout == s.timers[u].timeout
  {
    var list := s.queues[q].list;
    assert QueueOk(s.timers, q, s.queues[q]);
    var i :| 0 <= i < |list| && list[i] == t;
    SortedPairs(s.timers, list, 0, i);
    assert list[0] in list;
  }

  /** On a CPU that is up and has neither a synchronisation request nor an expiry
      in progress, the hardware fires no later than any timer naming its queue. */
  lemma DeadlineCoversAll(states: seq<State>, steps: seq<Step>, k: nat, c: Cpu, t: TimerId)
    requires IsRun(states, steps) && k <= |steps|
    requires c < |states[k].cpus| && states[k].cpus[c].phase.Running? && states[k].cpus[c].expiring.None?
    requires c < |states[k].queues| && !states[k].queues[c].syncPending
    requires t < |states[k].timers| && states[k].timers[t].queue == Some(c)
    ensures states[k].queues[c].deadline <= states[k].timers[t].timeout
  {
    InvHolds(states, steps, k);
    assert CpuOk(states[k], c);
    assert Backed(states[k], t);
    CacheIsMinimum(states[k], c, t);
  }

  /** Expiry fires the earliest timer, which is due; it stops only when none is. */
  lemma ExpiryIsExact(states: seq<State>, steps: seq<Step>, k: nat, t: TimerId)
    requires IsRun(states, steps) && k < |steps| && (steps[k].ExpirePop? || steps[k].ExpireEnd?)
    requires t < |states[k].timers| && states[k].timers[t].queue == Some(steps[k].cpu)
    ensures var s, c := states[k], steps[k].cpu;
            c < |s.cpus| && c < |s.queues| && s.cpus[c].expiring.Some? &&
            (steps[k].ExpireEnd? ==> s.timers[t].timeout > s.cpus[c].expiring.value) &&
            (steps[k].ExpirePop? && t < |states[k + 1].timers| && states[k + 1].timers[t].queue.None? ==>
               s.timers[t].timeout <= s.cpus[c].expiring.value &&
               forall u | u in s.queues[c].list :: u < |s.timers| && s.timers[t].timeout <= s.timers[u].timeout)
  {
    InvHolds(states, steps, k);
    var s, c := states[k], steps[k].cpu;
    assert Follows(states, steps, k);
    assert Backed(s, t);
    assert CpuOk(s, c);
    assert QueueOk(s.timers, c, s.queues[c]);
    CacheIsMinimum(s, c, t);
    if steps[k].ExpirePop? {
      assert states[k + 1].timers == s.timers[s.queues[c].list[0] := s.timers[s.queues[c].list[0]].(queue := None)];
      forall u | u in s.queues[c].list ensures u < |s.timers| && s.queues[c].timeout <= s.timers[u].timeout {
        CacheIsMinimum(s, c, u);
      }
    }
  }

  /** The steps that take a timer out of the queues. */
  predicate Disarms(s: State, step: Step, t: TimerId) {
    step.cpu < |s.cpus| && step.cpu < |s.queues| &&
    ((step.ExpirePop? && s.queues[step.cpu].list != [] && s.queues[step.cpu].list[0] == t) ||
     ((step.DequeueFinish? || step.UpdateLeave?) && Holds(s.cpus[step.cpu].op, t)))
  }

  /** The step that gives a timer its new timeout. */
  predicate Retimes(s: State, step: Step, t: TimerId) {
    step.UpdateFinish? && step.cpu < |s.cpus| && Holds(s.cpus[step.cpu].op, t)
  }

  predicate Armed(s: State, t: TimerId, timeout: nat) {
    t < |s.timers| && s.timers[t].queue.Some? && s.timers[t].timeout == timeout
  }

  lemma ArmedStep(s: State, step: Step, t: TimerId, timeout: nat)
    requires Inv(s) && Enabled(s, step) && Apply(s, step).Done? && Armed(s, t, timeout)
    requires !Disarms(s, step, t) && !Retimes(s, step, t)
    ensures Armed(Apply(s, step).value, t, timeout)
  {
    StepKeepsInv(s, step);
    assert CpuOk(s, step.cpu);
  }

  /** Through any interleaving an armed timer stays armed with its timeout until a
      dequeue or an update of it, or its own expiry; migration never drops or re-times it. */
  lemma {:induction false} StaysArmed(states: seq<State>, steps: seq<Step>, i: nat, j: nat, t: TimerId, timeout: nat)
    requires IsRun(states, steps) && i <= j <= |steps| && Armed(states[i], t, timeout)
    requires forall k | i <= k < j :: !Disarms(states[k], steps[k], t) && !Retimes(states[k], steps[k], t)
    ensures Armed(states[j], t, timeout)
    decreases j
  {
    if i < j {
      StaysArmed(states, steps, i, j - 1, t, timeout);
      InvHolds(states, steps, j - 1);
      assert Follows(states, steps, j - 1);
      ArmedStep(states[j - 1], steps[j - 1], t, timeout);
    }
  }

  /** What a CPU that has gone offline still lists is exactly what was armed with
      `INVALID_TIMEOUT`: its queue is empty if and only if no such timer names it. */
  lemma OfflineQueueIsEmptyIff(states: seq<State>, steps: seq<Step>, k: nat, c: Cpu)
    requires IsRun(states, steps) && k <= |steps|
    requires c < |states[k].cpus| && states[k].cpus[c].phase.Offline?
    ensures var s := states[k];
            c < |s.queues| && !s.queues[c].online &&
            (s.queues[c].list == [] <==>
             !exists t | 0 <= t < |s.timers| :: s.timers[t] == Timer(INVALID_TIMEOUT, Some(c)))
  {
    InvHolds(states, steps, k);
    var s := states[k];
    assert CpuOk(s, c);
    assert QueueOk(s.timers, c, s.queues[c]);
    if s.queues[c].list != [] {
      var t := s.queues[c].list[0];
      assert Backed(s, t) && s.timers[t] == Timer(INVALID_TIMEOUT, Some(c));
    } else {
      forall t | 0 <= t < |s.timers| ensures s.timers[t] != Timer(INVALID_TIMEOUT, Some(c)) {
        assert Backed(s, t);
      }
    }
  }

  /** Whether a step arms a timer with the reserved timeout. */
  predicate ArmsInvalid(step: Step) {
    (step.Enqueue? || step.UpdateLoad?) && step.timeout == INVALID_TIMEOUT
  }

  predicate Finite(s: State) {
    (forall t | 0 <= t < |s.timers| :: s.timers[t].queue.Some? ==> s.timers[t].timeout < INVALID_TIMEOUT) &&
    (forall c | 0 <= c < |s.cpus| && (s.cpus[c].op.Updating? || s.cpus[c].op.Rearming?) ::
       s.cpus[c].op.timeout < INVALID_TIMEOUT)
  }

  lemma {:induction false} FiniteHolds(states: seq<State>, steps: seq<Step>, k: nat)
    requires IsRun(states, steps) && k <= |steps|
    requires forall i | 0 <= i < k :: !ArmsInvalid(steps[i])
    ensures Finite(states[k])
  {
    if k > 0 {
      FiniteHolds(states, steps, k - 1);
      InvHolds(states, steps, k - 1);
      assert Follows(states, steps, k - 1);
      FiniteStep(states[k - 1], steps[k - 1]);
    }
  }

  lemma FiniteStep(s: State, step: Step)
    requires Inv(s) && Finite(s) && Enabled(s, step) && Apply(s, step).Done? && !ArmsInvalid(step)
    ensures Finite(Apply(s, step).value)
  {
    assert CpuOk(s, step.cpu);
    if step.DequeueFinish? || step.UpdateLeave? || step.UpdateFinish? {
      FiniteOp(s, step);
    } else if step.Enqueue? || step.ExpirePop? || step.MigratePick? || step.MigrateTry? {
      FiniteQueue(s, step);
    }
  }

  lemma FiniteOp(s: State, step: Step)
    requires Inv(s) && Finite(s) && Enabled(s, step) && Apply(s, step).Done?
    requires step.DequeueFinish? || step.UpdateLeave? || step.UpdateFinish?
    ensures Finite(Apply(s, step).value)
  {
    var r := Apply(s, step).value;
    var op := s.cpus[step.cpu].op;
    assert CpuOk(s, step.cpu);
    assert r.timers == s.timers[op.timer := r.timers[op.timer]];
    assert r.cpus == s.cpus[step.cpu := r.cpus[step.cpu]];
  }

  lemma FiniteQueue(s: State, step: Step)
    requires Inv(s) && Finite(s) && Enabled(s, step) && Apply(s, step).Done? && !ArmsInvalid(step)
    requires step.Enqueue? || step.ExpirePop? || step.MigratePick? || step.MigrateTry?
    ensures Finite(Apply(s, step).value)
  {
    assert CpuOk(s, step.cpu);
    assert QueueOk(s.timers, step.cpu, s.queues[step.cpu]);
    var r := Apply(s, step).value;
    assert |r.timers| == |s.timers| && |r.cpus| == |s.cpus|;
  }

  /** While nobody arms a timer with the reserved timeout, a CPU that has gone
      offline has nothing left in its queue, and nothing enters it until it is back. */
  lemma OfflineQueueIsEmpty(states: seq<State>, steps: seq<Step>, k: nat, c: Cpu)
    requires IsRun(states, steps) && k <= |steps|
    requires forall i | 0 <= i < k :: !ArmsInvalid(steps[i])
    requires c < |states[k].cpus| && states[k].cpus[c].phase.Offline?
    ensures c < |states[k].queues| && states[k].queues[c].list == []
  {
    FiniteHolds(states, steps, k);
    OfflineQueueIsEmptyIff(states, steps, k, c);
  }

  const UP := Local(NoOp, None, Running)

  /** One CPU with one timer that is armed with the reserved timeout. */
  function Alone(queued: bool, online: bool, x: Local): (s: State) {
    State([Timer(INVALID_TIMEOUT, if queued then Some(0) else None)],
          [Queue(if queued then [0] else [], INVALID_TIMEOUT, online, INVALID_TIMEOUT, false)], [x], [true])
  }

  lemma ArmAlone()
    ensures Apply(Alone(false, true, UP), Enqueue(0, 0, INVALID_TIMEOUT)) == Done(Alone(true, true, UP))
  {
    var s, r := Alone(false, true, UP), Alone(true, true, UP);
    assert s.timers[0 := r.timers[0]] == r.timers && s.queues[0 := r.queues[0]] == r.queues;
    assert Insert(r.timers, [], 0) == [0];
  }

  lemma LeaveAlone()
    ensures Apply(Alone(true, true, UP), OfflineBegin(0)) ==
            Done(Alone(true, false, UP.(phase := Migrating(0, None, 0))))
    ensures Apply(Alone(true, false, UP.(phase := Migrating(0, None, 0))), OfflineEnd(0)) ==
            Done(Alone(true, false, UP.(phase := Offline)))
  {
    var s, r := Alone(true, true, UP), Alone(true, false, UP.(phase := Migrating(0, None, 0)));
    assert s.queues[0 := r.queues[0]] == r.queues && s.cpus[0 := r.cpus[0]] == r.cpus;
    assert r.cpus[0 := UP.(phase := Offline)] == [UP.(phase := Offline)];
  }

  /** A timer armed with the reserved timeout is left behind by the hand-over. */
  lemma ReservedTimeoutStrandsTimer()
    ensures exists states: seq<State>, steps: seq<Step> ::
              IsRun(states, steps) && |steps| == 3 && |states[3].cpus| == 1 && states[3].cpus[0].phase.Offline? &&
              |states[3].queues| == 1 && states[3].queues[0].list == [0]
  {
    ArmAlone();
    LeaveAlone();
    var states :=
      [Alone(false, true, UP), Alone(true, true, UP), Alone(true, false, UP.(phase := Migrating(0, None, 0))),
                   Alone(true, false, UP.(phase := Offline))];
    var steps := [Enqueue(0, 0, INVALID_TIMEOUT), OfflineBegin(0), OfflineEnd(0)];
    forall i | 0 <= i < |steps| ensures Follows(states, steps, i) {}
    assert IsRun(states, steps);
  }
}
