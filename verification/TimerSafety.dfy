/** What every run of the timer queues keeps: each queue is the sorted list of
    exactly the timers that name it, no armed timer is lost between queues, and the
    hardware deadline covers the earliest timer. */
module TimerSafety {
  import opened Outcomes
  import opened Lists
  import opened TimerProtocol

  // ------------------------------------------------------------- sorted lists

  predicate AtLeast(timers: seq<Timer>, list: seq<TimerId>, n: nat)
    requires Known(timers, list)
  {
    forall i | 0 <= i < |list| :: n <= timers[list[i]].timeout
  }

  /** Ordered by timeout. */
  predicate Sorted(timers: seq<Timer>, list: seq<TimerId>)
    requires Known(timers, list)
  {
    list == [] || (AtLeast(timers, list[1..], timers[list[0]].timeout) && Sorted(timers, list[1..]))
  }

  predicate Names(timers: seq<Timer>, list: seq<TimerId>, q: Cpu)
    requires Known(timers, list)
  {
    forall i | 0 <= i < |list| :: timers[list[i]].queue == Some(q)
  }

  lemma {:induction false} InsertMembers(timers: seq<Timer>, list: seq<TimerId>, t: TimerId, u: TimerId)
    requires t < |timers| && Known(timers, list)
    ensures u in Insert(timers, list, t) <==> u == t || u in list
  {
    if list != [] && timers[t].timeout >= timers[list[0]].timeout {
      assert list == [list[0]] + list[1..];
      InsertMembers(timers, list[1..], t, u);
    }
  }

  /** Insertion keeps order and distinctness, and reports a new head exactly when
      the cached timeout has to change. */
  lemma {:induction false} InsertKeeps(timers: seq<Timer>, list: seq<TimerId>, t: TimerId)
    requires t < |timers| && Known(timers, list) && Sorted(timers, list) && Distinct(list) && t !in list
    ensures var r := Insert(timers, list, t);
            Known(timers, r) && Sorted(timers, r) && Distinct(r) && r != [] &&
            (r[0] == t || (list != [] && r[0] == list[0])) &&
            (forall n: nat :: AtLeast(timers, list, n) && n <= timers[t].timeout ==> AtLeast(timers, r, n))
  {
    InsertKnown(timers, list, t);
    if list != [] && timers[t].timeout >= timers[list[0]].timeout {
      InsertKeeps(timers, list[1..], t);
      InsertMembers(timers, list[1..], t, list[0]);
    } else if list != [] {
      var r := [t] + list;
      assert r[1..] == list;
      assert AtLeast(timers, list, timers[t].timeout);
    }
  }

  /** `t` has been put behind all timers that are not later and before all later ones;
      the others keep their order. */
  ghost predicate PutInOrder(timers: seq<Timer>, before: seq<TimerId>, after: seq<TimerId>, t: TimerId) {
    t < |timers| && Known(timers, before) &&
    exists k | 0 <= k <= |before| ::
      after == before[..k] + [t] + before[k..] &&
      (forall i | 0 <= i < k :: timers[before[i]].timeout <= timers[t].timeout) &&
      (forall i | k <= i < |before| :: timers[before[i]].timeout > timers[t].timeout)
  }

  /** `t` has been taken out of the list and put back in order. */
  ghost predicate PutBack(timers: seq<Timer>, before: seq<TimerId>, after: seq<TimerId>, t: TimerId) {
    exists rest :: Dropped(before, rest, t) && PutInOrder(timers, rest, after, t)
  }

  /** `t` is at the place of its new timeout; the hardware follows if `t` was or is the
      first timer. */
  ghost predicate Retimed(timers: seq<Timer>, before: Queue, after: Queue, t: TimerId) {
    before.list != [] && after.list != [] && PutBack(timers, before.list, after.list, t) &&
    after == before.(list := after.list, timeout := after.timeout,
                     deadline := if before.list[0] == t || after.list[0] == t then after.timeout else before.deadline)
  }

  lemma InsertPuts(timers: seq<Timer>, list: seq<TimerId>, t: TimerId)
    requires t < |timers| && Known(timers, list) && Sorted(timers, list)
    ensures PutInOrder(timers, list, Insert(timers, list, t), t)
  {
    var k := InsertPlace(timers, list, t);
  }

  lemma {:induction false} InsertPlace(timers: seq<Timer>, list: seq<TimerId>, t: TimerId) returns (k: nat)
    requires t < |timers| && Known(timers, list) && Sorted(timers, list)
    ensures k <= |list| && Insert(timers, list, t) == list[..k] + [t] + list[k..]
    ensures forall i | 0 <= i < k :: timers[list[i]].timeout <= timers[t].timeout
    ensures forall i | k <= i < |list| :: timers[list[i]].timeout > timers[t].timeout
  {
    if list == [] || timers[t].timeout < timers[list[0]].timeout {
      k := 0;
      forall i | 0 <= i < |list| ensures timers[list[i]].timeout > timers[t].timeout {
        if i > 0 { assert list[i] == list[1..][i - 1]; }
      }
    } else {
      var rest := list[1..];
      var j := InsertPlace(timers, rest, t);
      k := j + 1;
      assert [list[0]] + (rest[..j] + [t] + rest[j..]) == list[..k] + [t] + list[k..];
      forall i | 0 <= i < |list|
        ensures if i < k then timers[list[i]].timeout <= timers[t].timeout
                else timers[list[i]].timeout > timers[t].timeout
      {
        if i > 0 { assert list[i] == rest[i - 1]; }
      }
    }
  }

  /** `t` is out of the list if it was in it. */
  ghost predicate Unlinked(before: seq<TimerId>, after: seq<TimerId>, t: TimerId) {
    if t in before then Dropped(before, after, t) else after == before
  }

  lemma WithoutUnlinks(list: seq<TimerId>, t: TimerId)
    ensures Unlinked(list, Without(list, t), t)
  {
    if t in list {
      WithoutDrops(list, t);
    } else {
      WithoutAbsent(list, t);
    }
  }

  lemma {:induction false} WithoutKeeps(timers: seq<Timer>, list: seq<TimerId>, t: TimerId)
    requires Known(timers, list) && Sorted(timers, list) && Distinct(list)
    ensures var r := Without(list, t);
            Known(timers, r) && Sorted(timers, r) && Distinct(r) &&
            (r != [] ==> HeadTimeout(timers, list) <= HeadTimeout(timers, r))
    ensures forall n: nat :: AtLeast(timers, list, n) ==> AtLeast(timers, Without(list, t), n)
  {
    WithoutKnown(timers, list, t);
    WithoutDistinct(list, t);
    if list != [] && list[0] != t {
      WithoutKeeps(timers, list[1..], t);
      WithoutMembers(list[1..], t);
    }
  }

  /** Order depends only on the listed timers. */
  lemma {:induction false} SortedFrame(timers: seq<Timer>, t: TimerId, x: Timer, list: seq<TimerId>)
    requires t < |timers| && Known(timers, list) && t !in list && Sorted(timers, list)
    ensures Known(timers[t := x], list) && Sorted(timers[t := x], list)
    ensures HeadTimeout(timers[t := x], list) == HeadTimeout(timers, list)
  {
    if list != [] {
      SortedFrame(timers, t, x, list[1..]);
    }
  }

  // ---------------------------------------------------------------- invariant

  /** A queue is the sorted list of timers naming it, and caches its head's timeout. */
  predicate QueueOk(timers: seq<Timer>, q: Cpu, tq: Queue) {
    Known(timers, tq.list) && Distinct(tq.list) && Sorted(timers, tq.list) &&
    Names(timers, tq.list, q) && tq.timeout == HeadTimeout(timers, tq.list)
  }

  predicate InTransit(phase: Phase, t: TimerId) {
    phase.Migrating? && phase.transit == Some(t)
  }

  /** A timer that names a queue is listed there, or on its way out of it. */
  predicate Backed(s: State, t: TimerId)
    requires t < |s.timers| && |s.queues| == |s.cpus|
  {
    var q := s.timers[t].queue;
    s.timers[t].timeout <= INVALID_TIMEOUT &&
    (q.None? || (q.value < |s.queues| &&
                 (t in s.queues[q.value].list || InTransit(s.cpus[q.value].phase, t))))
  }

  /** What the holder of a timer's lock may rely on. */
  predicate OpOk(timers: seq<Timer>, n: nat, c: Cpu, op: Op) {
    !op.NoOp? ==>
      op.timer < |timers| &&
      var q := timers[op.timer].queue;
      match op
      case NoOp => true
      case Dequeuing(_, seen) => seen < n && (q.None? || q == Some(seen))
      case Updating(_, timeout, seen) =>
        timeout <= INVALID_TIMEOUT && (seen.Some? ==> seen.value < n) &&
        (q.None? || q == seen) && (seen == Some(c) ==> q == seen)
      case Rearming(_, timeout) => timeout <= INVALID_TIMEOUT && q.None?
  }

  /** The earliest timer is covered: by the programmed deadline, by a pending
      request to synchronise, or by the expiry handler that is at work. */
  predicate Covered(x: Local, tq: Queue) {
    tq.deadline <= tq.timeout || tq.syncPending || x.expiring.Some?
  }

  predicate LocalOk(n: nat, x: Local, tq: Queue) {
    (x.phase.Running? <==> tq.online) &&
    (x.phase.Running? ==> Covered(x, tq)) &&
    (!x.phase.Running? ==> x.op.NoOp? && x.expiring.None? && tq.deadline == INVALID_TIMEOUT) &&
    (x.phase.Offline? ==> tq.timeout == INVALID_TIMEOUT) &&
    (x.phase.Migrating? && x.phase.transit.Some? ==> x.phase.transit.value < n && x.phase.transit.value !in tq.list) &&
    (x.expiring.Some? ==> x.expiring.value < INVALID_TIMEOUT)
  }

  /** The scan for a target stays among the other CPUs, if there are any. */
  predicate ScanOk(n: nat, c: Cpu, phase: Phase) {
    phase.Migrating? ==>
      phase.start < n && phase.target < n && (phase.start == c || phase.target == c ==> n == 1)
  }

  predicate CpuOk(s: State, c: Cpu)
    requires c < |s.queues| == |s.cpus|
  {
    OpOk(s.timers, |s.queues|, c, s.cpus[c].op) && LocalOk(|s.timers|, s.cpus[c], s.queues[c]) &&
    ScanOk(|s.queues|, c, s.cpus[c].phase)
  }

  /** Two CPUs never hold the same timer's lock. */
  predicate Exclusive(s: State) {
    forall c, d | 0 <= c < d < |s.cpus| && !s.cpus[d].op.NoOp? :: !Holds(s.cpus[c].op, s.cpus[d].op.timer)
  }

  predicate Inv(s: State) {
    |s.queues| == |s.cpus| == |s.functional| && Exclusive(s) &&
    (forall q | 0 <= q < |s.queues| :: QueueOk(s.timers, q, s.queues[q])) &&
    (forall t | 0 <= t < |s.timers| :: Backed(s, t)) &&
    (forall c | 0 <= c < |s.cpus| :: CpuOk(s, c))
  }

  lemma ListedNames(s: State, t: TimerId, q: Cpu)
    requires Inv(s) && q < |s.queues| && t in s.queues[q].list
    ensures t < |s.timers| && s.timers[t].queue == Some(q) && !ListedElsewhere(s, t, q)
  {
    assert QueueOk(s.timers, q, s.queues[q]);
    forall p | 0 <= p < |s.queues| && p != q ensures t !in s.queues[p].list {
      assert QueueOk(s.timers, p, s.queues[p]);
    }
  }

  /** A timer whose pointer is clear is listed nowhere. */
  lemma UnqueuedUnlisted(s: State, t: TimerId, q: Cpu)
    requires Inv(s) && t < |s.timers| && q < |s.queues| && s.timers[t].queue != Some(q)
    ensures t !in s.queues[q].list
  {
    assert QueueOk(s.timers, q, s.queues[q]);
  }

  // -------------------------------------------- changes of one timer, queue, CPU

  /** Only timer `t`, queue `q` and CPU `c` differ. */
  predicate Delta(s: State, r: State, t: TimerId, q: Cpu, c: Cpu) {
    t < |s.timers| == |r.timers| && q < |s.queues| == |r.queues| && c < |s.cpus| == |r.cpus| &&
    r.timers == s.timers[t := r.timers[t]] &&
    r.queues == s.queues[q := r.queues[q]] &&
    r.cpus == s.cpus[c := r.cpus[c]] && r.functional == s.functional
  }

  lemma DeltaQueues(s: State, r: State, t: TimerId, q: Cpu, c: Cpu)
    requires Inv(s) && Delta(s, r, t, q, c)
    requires QueueOk(r.timers, q, r.queues[q])
    requires s.timers[t] == r.timers[t] || !ListedElsewhere(s, t, q)
    ensures forall p | 0 <= p < |r.queues| :: QueueOk(r.timers, p, r.queues[p])
  {
    assert s.timers[t] == r.timers[t] ==> r.timers == s.timers;
    forall p | 0 <= p < |r.queues| ensures QueueOk(r.timers, p, r.queues[p]) {
      assert QueueOk(s.timers, p, s.queues[p]);
      if p != q && s.timers[t] != r.timers[t] {
        assert t !in s.queues[p].list;
        SortedFrame(s.timers, t, r.timers[t], s.queues[p].list);
      }
    }
  }

  /** No other timer leaves or enters a list, or stops being on its way out. */
  ghost predicate OthersStay(s: State, r: State, t: TimerId, q: Cpu, c: Cpu)
    requires Delta(s, r, t, q, c)
  {
    (forall u: TimerId :: u != t ==> (u in r.queues[q].list <==> u in s.queues[q].list)) &&
    (s.cpus[c].phase == r.cpus[c].phase || !s.cpus[c].phase.Migrating? || s.cpus[c].phase.transit.None? ||
     s.cpus[c].phase.transit == Some(t))
  }

  lemma DeltaBacked(s: State, r: State, t: TimerId, q: Cpu, c: Cpu)
    requires Inv(s) && Delta(s, r, t, q, c) && OthersStay(s, r, t, q, c)
    requires Backed(r, t)
    ensures forall u | 0 <= u < |r.timers| :: Backed(r, u)
  {
    forall u | 0 <= u < |r.timers| ensures Backed(r, u) {
      assert Backed(s, u);
    }
  }

  /** What a change may do to a queue of a CPU other than the one that acts. */
  ghost predicate Remote(s: State, r: State, q: Cpu)
    requires q < |s.queues| == |r.queues|
  {
    var a, b := s.queues[q], r.queues[q];
    b.online == a.online && b.deadline == a.deadline && (a.syncPending ==> b.syncPending) &&
    (a.timeout <= b.timeout || b.syncPending) &&
    (!a.online ==> (a.timeout == INVALID_TIMEOUT ==> b.timeout == INVALID_TIMEOUT) &&
                   forall u: TimerId :: u in b.list ==> u in a.list)
  }

  lemma DeltaCpus(s: State, r: State, t: TimerId, q: Cpu, c: Cpu)
    requires Inv(s) && Delta(s, r, t, q, c)
    requires CpuOk(r, c)
    requires q == c || Remote(s, r, q)
    requires forall d | 0 <= d < |s.cpus| && d != c &&
             Holds(s.cpus[d].op, t) :: OpOk(r.timers, |r.queues|, d, s.cpus[d].op)
    ensures forall d | 0 <= d < |r.cpus| :: CpuOk(r, d)
  {
    forall d | 0 <= d < |r.cpus| ensures CpuOk(r, d) {
      assert CpuOk(s, d);
      if d != c && d == q {
        assert Remote(s, r, q);
      }
    }
  }

  lemma DeltaKeepsInv(s: State, r: State, t: TimerId, q: Cpu, c: Cpu)
    requires Inv(s) && Delta(s, r, t, q, c)
    requires QueueOk(r.timers, q, r.queues[q]) && (s.timers[t] == r.timers[t] || !ListedElsewhere(s, t, q))
    requires OthersStay(s, r, t, q, c) && Backed(r, t)
    requires CpuOk(r, c) && (q == c || Remote(s, r, q))
    requires forall d | 0 <= d < |s.cpus| && d != c &&
             Holds(s.cpus[d].op, t) :: OpOk(r.timers, |r.queues|, d, s.cpus[d].op)
    requires r.cpus[c].op.NoOp? || Holds(s.cpus[c].op, r.cpus[c].op.timer) || Unlocked(s, r.cpus[c].op.timer)
    ensures Inv(r)
  {
    DeltaQueues(s, r, t, q, c);
    DeltaBacked(s, r, t, q, c);
    DeltaCpus(s, r, t, q, c);
  }
}
