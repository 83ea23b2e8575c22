/** What every run of the protocol of `RcuProtocol` keeps: the accounting of the
    batches, and the bounds that hold the generation and its targets together. */
module RcuSafety {
  import opened Outcomes
  import opened Sums
  import opened RcuProtocol
  import opened Arithmetic
  import opened SerialNumbers

  // --------------------------------------------------------------- accounting

  ghost predicate Shape(x: CpuState) {
    |x.next| == |x.waiting| == |x.ready| >= 1 &&
    (x.pc.Updating? ==> x.pc.cls < |x.ready| && forall k | 0 <= k <= x.pc.cls :: x.ready[k] == [])
  }

  /** The counters and flags of one CPU describe its batches. */
  ghost predicate Accounted(x: CpuState) {
    Shape(x) &&
    x.updateCount == CpuHits(x, None) + Finished(x.pc) &&
    (x.readyUpdates <==> x.pc.Updating? || BatchHits(x.ready, None) != 0)
  }

  /** Every update ever enqueued is either executed or pending, each exactly once. */
  ghost predicate Conserved(s: State, key: Option<Update>) {
    Hits(s.enqueued, key) == Hits(s.executed, key) + Pending(s.cpus, key)
  }

  ghost predicate Accounting(s: State) {
    (forall c | 0 <= c < |s.cpus| :: Accounted(s.cpus[c])) &&
    s.waiterCount == Waiters(s.cpus) &&
    (forall key :: Conserved(s, key)) &&
    (forall i | 0 <= i < |s.enqueued| :: s.enqueued[i].id == i)
  }

  /** One CPU changes: what it gains was enqueued, what it loses was executed. */
  ghost predicate Moved(s: State, r: State, c: Cpu, enqueued: seq<Update>, executed: seq<Update>, key: Option<Update>)
    requires c < |s.cpus| == |r.cpus|
  {
    CpuHits(s.cpus[c], key) + Hits(enqueued, key) == CpuHits(r.cpus[c], key) + Hits(executed, key)
  }

  lemma AccountingMove(s: State, r: State, c: Cpu, enqueued: seq<Update>, executed: seq<Update>)
    requires Accounting(s) && c < |s.cpus| == |r.cpus| && r.cpus == s.cpus[c := r.cpus[c]] && Accounted(r.cpus[c])
    requires r.waiterCount == s.waiterCount - HasUpdates(s.cpus[c]) + HasUpdates(r.cpus[c])
    requires r.enqueued == s.enqueued + enqueued && r.executed == s.executed + executed
    requires forall i | |s.enqueued| <= i < |r.enqueued| :: r.enqueued[i].id == i
    requires forall key :: Moved(s, r, c, enqueued, executed, key)
    ensures Accounting(r)
  {
    SumReplace(s.cpus, c, r.cpus[c], HasUpdates);
    forall key ensures Conserved(r, key) {
      assert Moved(s, r, c, enqueued, executed, key) && Conserved(s, key);
      SumReplace(s.cpus, c, r.cpus[c], CpuHitsOf(key));
    }
  }

  lemma PushAccounted(x: CpuState, x': CpuState, cls: nat, u: Update)
    requires Accounted(x) && cls < |x.next|
    requires x' == x.(updateCount := x.updateCount + 1, next := x.next[cls := [u] + x.next[cls]])
    ensures Accounted(x') && forall key :: CpuHits(x', key) == CpuHits(x, key) + Hits([u], key)
  {
    forall key ensures CpuHits(x', key) == CpuHits(x, key) + Hits([u], key) {
      BatchReplace(x.next, cls, [u] + x.next[cls], key);
    }
  }

  lemma AdvanceAccounted(x: CpuState, x': CpuState)
    requires Accounted(x) && x.pc.AtRest? && !x.readyUpdates
    requires x'.ready == x.waiting && x'.waiting == x.next && x'.next == EmptyBatch(|x.next|)
    requires x'.readyUpdates <==> exists k | 0 <= k < |x.waiting| :: x.waiting[k] != []
    requires !x'.pc.Updating? && x'.updateCount == x.updateCount
    ensures Accounted(x') && forall key :: CpuHits(x', key) == CpuHits(x, key)
  {
    BatchEmpty(x.waiting);
    BatchEmpty(x.ready);
    forall key ensures CpuHits(x', key) == CpuHits(x, key) {
      SumZero(x.ready, HitsOf(key));
      SumZero(x'.next, HitsOf(key));
    }
  }

  /** Taking the list of class `k` off the ready batch. */
  lemma TakeAccounted(x: CpuState, x': CpuState, k: nat)
    requires Accounted(x) && x.readyUpdates && k < |x.ready| && Rest(x.pc) == []
    requires k == if x.pc.Updating? then x.pc.cls + 1 else 0
    requires x' == x.(pc := Updating(k, x.ready[k], Finished(x.pc)), ready := x.ready[k := []])
    ensures Accounted(x') && forall key :: CpuHits(x', key) == CpuHits(x, key)
  {
    forall key ensures CpuHits(x', key) == CpuHits(x, key) {
      BatchReplace(x.ready, k, [], key);
    }
  }

  lemma RunAccounted(x: CpuState, x': CpuState)
    requires Accounted(x) && x.pc.Updating? && x.pc.rest != []
    requires x' == x.(pc := x.pc.(rest := x.pc.rest[1..], done := x.pc.done + 1))
    ensures Accounted(x') && forall key :: CpuHits(x, key) == CpuHits(x', key) + Hits([x.pc.rest[0]], key)
  {
    assert x.pc.rest == [x.pc.rest[0]] + x'.pc.rest;
  }

  lemma EndAccounted(x: CpuState)
    requires Accounted(x) && x.pc.Updating? && x.pc.rest == [] && x.pc.cls + 1 == |x.ready|
    ensures x.pc.done <= x.updateCount
    ensures var x' := x.(updateCount := x.updateCount - x.pc.done, readyUpdates := false, pc := AtRest);
            Accounted(x') && forall key :: CpuHits(x', key) == CpuHits(x, key)
  {
    BatchEmpty(x.ready);
  }

  /** The subtractions at the end of `rcu_bitmap_update` cannot underflow. */
  lemma UpdateEndIsEnabled(s: State, c: Cpu)
    requires Accounting(s) && c < |s.cpus| && s.cpus[c].pc.Updating?
    requires s.cpus[c].pc.rest == [] && s.cpus[c].pc.cls + 1 == |s.cpus[c].ready| && s.cpus[c].pc.done > 0
    ensures Enabled(s, UpdateEnd(c))
  {
    SumZero(s.cpus, HasUpdates);
    assert HasUpdates(s.cpus[c]) == 1;
  }

  /** A step that leaves the batches, counts and flags of its CPU alone. */
  ghost predicate Untouched(s: State, r: State, c: Cpu) {
    c < |s.cpus| == |r.cpus| && r.cpus == s.cpus[c := r.cpus[c]] &&
    r.waiterCount == s.waiterCount && r.enqueued == s.enqueued && r.executed == s.executed &&
    var x, x' := s.cpus[c], r.cpus[c];
    x'.next == x.next && x'.waiting == x.waiting && x'.ready == x.ready && x'.updateCount == x.updateCount &&
    x'.readyUpdates == x.readyUpdates && (x'.pc == x.pc || (!x'.pc.Updating? && !x.pc.Updating?))
  }

  lemma UntouchedAccounting(s: State, r: State, c: Cpu)
    requires Accounting(s) && Untouched(s, r, c)
    ensures Accounting(r)
  {
    AccountingMove(s, r, c, [], []);
  }

  lemma EnqueueAccounting(s: State, c: Cpu, cls: nat)
    requires Accounting(s) && Enabled(s, Enqueue(c, cls))
    ensures Accounting(DoEnqueue(s, c, cls))
  {
    var r := DoEnqueue(s, c, cls);
    PushAccounted(s.cpus[c], r.cpus[c], cls, r.enqueued[|s.enqueued|]);
    AccountingMove(s, r, c, [r.enqueued[|s.enqueued|]], []);
  }

  lemma NotifyAccounting(s: State, c: Cpu)
    requires Accounting(s) && Enabled(s, Notify(c))
    ensures Accounting(SetCpu(s, c, DoNotify(s, c)))
  {
    AdvanceAccounted(s.cpus[c], DoNotify(s, c));
    AccountingMove(s, SetCpu(s, c, DoNotify(s, c)), c, [], []);
  }

  lemma TakeAccounting(s: State, c: Cpu, x': CpuState, k: nat)
    requires Accounting(s) && c < |s.cpus| && s.cpus[c].readyUpdates && k < |s.cpus[c].ready|
    requires Rest(s.cpus[c].pc) == [] && k == if s.cpus[c].pc.Updating? then s.cpus[c].pc.cls + 1 else 0
    requires x' == s.cpus[c].(pc := Updating(k, s.cpus[c].ready[k], Finished(s.cpus[c].pc)),
                              ready := s.cpus[c].ready[k := []])
    ensures Accounting(SetCpu(s, c, x'))
  {
    TakeAccounted(s.cpus[c], x', k);
    AccountingMove(s, SetCpu(s, c, x'), c, [], []);
  }

  lemma RunAccounting(s: State, c: Cpu)
    requires Accounting(s) && Enabled(s, UpdateRun(c))
    ensures Accounting(Apply(s, UpdateRun(c)))
  {
    var r := Apply(s, UpdateRun(c));
    RunAccounted(s.cpus[c], r.cpus[c]);
    AccountingMove(s, r, c, [], [s.cpus[c].pc.rest[0]]);
  }

  lemma EndAccounting(s: State, c: Cpu)
    requires Accounting(s) && Enabled(s, UpdateEnd(c))
    ensures Accounting(DoUpdateEnd(s, c))
  {
    EndAccounted(s.cpus[c]);
    AccountingMove(s, DoUpdateEnd(s, c), c, [], []);
  }

  lemma AccountingStep(s: State, step: Step)
    requires Accounting(s) && Enabled(s, step)
    ensures Accounting(Apply(s, step))
  {
    var c := step.cpu;
    match step
    case Enqueue(_, cls) => EnqueueAccounting(s, c, cls);
    case Notify(_) => NotifyAccounting(s, c);
    case UpdateBegin(_) => TakeAccounting(s, c, Apply(s, step).cpus[c], 0);
    case UpdateNextClass(_) => TakeAccounting(s, c, Apply(s, step).cpus[c], s.cpus[c].pc.cls + 1);
    case UpdateRun(_) => RunAccounting(s, c);
    case UpdateEnd(_) => EndAccounting(s, c);
    case _ =>
      QuietStep(s, step);
      UntouchedAccounting(s, Apply(s, step), c);
  }

  lemma QuietStep(s: State, step: Step)
    requires Enabled(s, step)
    requires !step.Enqueue? && !step.Notify? && !step.UpdateBegin? && !step.UpdateNextClass? && !step.UpdateRun? &&
             !step.UpdateEnd?
    ensures Untouched(s, Apply(s, step), step.cpu)
  {}

  // ------------------------------------------------------------------- bounds

  /** A CPU's own target is at most two ahead, and once its request has returned
      the global target is not below it. */
  ghost predicate CpuBound(s: State, x: CpuState) {
    var g := s.period.generation;
    x.target <= g + 2 &&
    match x.pc
    case QuiesceLoaded(seen) => seen.generation <= g && x.target <= s.maxTarget
    case QuiesceWantsNew(seen) =>
      seen.generation <= g && x.target <= s.maxTarget && (seen.generation == g ==> g < s.maxTarget)
    case QuiesceReady(seen, next, starts) =>
      seen.generation <= g && x.target <= s.maxTarget &&
      if starts then next.generation == seen.generation + 1 && (seen.generation == g ==> g < s.maxTarget)
      else next.generation == seen.generation
    case Requesting(generation) => generation <= g
    case RequestStored(target) => target == x.target
    case RequestUnmet(target) => target == x.target
    case RequestLoop(target, oldMax) => target == x.target <= oldMax + 2 && oldMax <= s.maxTarget
    case _ => x.target <= s.maxTarget
  }

  ghost predicate Bounded(s: State) {
    s.period.generation <= s.maxTarget <= s.period.generation + 2 &&
    forall c | 0 <= c < |s.cpus| :: CpuBound(s, s.cpus[c])
  }

  lemma TargetsGrow(s: State, step: Step)
    requires Bounded(s) && Enabled(s, step)
    ensures s.period.generation <= Apply(s, step).period.generation
    ensures s.maxTarget <= Apply(s, step).maxTarget
    ensures Apply(s, step).period.generation <= Apply(s, step).maxTarget <= Apply(s, step).period.generation + 2
    ensures Apply(s, step).cpus == s.cpus[step.cpu := Apply(s, step).cpus[step.cpu]]
  {
    assert CpuBound(s, s.cpus[step.cpu]);
  }

  lemma BoundedStep(s: State, step: Step)
    requires Bounded(s) && Enabled(s, step)
    ensures Bounded(Apply(s, step))
    ensures s.period.generation <= Apply(s, step).period.generation
    ensures s.maxTarget <= Apply(s, step).maxTarget
  {
    var r := Apply(s, step);
    TargetsGrow(s, step);
    assert CpuBound(s, s.cpus[step.cpu]);
    assert CpuBound(r, r.cpus[step.cpu]);
    forall c | 0 <= c < |r.cpus| ensures CpuBound(r, r.cpus[c]) {
      assert CpuBound(s, s.cpus[c]);
      if c != step.cpu { BoundLasts(s, r, s.cpus[c]); }
    }
  }

  lemma BoundLasts(s: State, r: State, x: CpuState)
    requires CpuBound(s, x) && s.period.generation <= r.period.generation && s.maxTarget <= r.maxTarget
    ensures CpuBound(r, x)
  {
  }

  // --------------------------------------------------------------------- runs

  lemma {:induction false} AccountingHolds(states: seq<State>, steps: seq<Step>, i: nat)
    requires IsRun(states, steps) && i < |states|
    ensures Accounting(states[i])
  {
    if i == 0 {
      InitAccounting(states[0]);
    } else {
      AccountingHolds(states, steps, i - 1);
      assert Follows(states, steps, i - 1);
      AccountingStep(states[i - 1], steps[i - 1]);
    }
  }

  lemma InitAccounting(s: State)
    requires Init(s)
    ensures Accounting(s)
  {
    SumZero(s.cpus, HasUpdates);
    forall c, key | 0 <= c < |s.cpus| ensures CpuHits(s.cpus[c], key) == 0 {
      var x := s.cpus[c];
      SumZero(x.next, HitsOf(key));
    }
    forall key ensures Conserved(s, key) {
      SumZero(s.cpus, CpuHitsOf(key));
    }
  }

  /** The generation trails the furthest target by at most two and neither ever
      decreases, whatever the interleaving of the atomic accesses. */
  lemma {:induction false} GenerationBounds(states: seq<State>, steps: seq<Step>, i: nat, j: nat)
    requires IsRun(states, steps) && i <= j < |states|
    ensures Bounded(states[j])
    ensures states[j].period.generation <= states[j].maxTarget <= states[j].period.generation + 2
    ensures states[i].period.generation <= states[j].period.generation
    ensures states[i].maxTarget <= states[j].maxTarget
    decreases j
  {
    if i < j {
      GenerationBounds(states, steps, i, j - 1);
      assert Follows(states, steps, j - 1);
      BoundedStep(states[j - 1], steps[j - 1]);
    } else if j > 0 {
      GenerationBounds(states, steps, j - 1, j - 1);
      assert Follows(states, steps, j - 1);
      BoundedStep(states[j - 1], steps[j - 1]);
    }
  }

  /** The stored 32-bit counters are compared as the true ones. */
  ghost predicate ComparedRight(a: nat, b: nat) {
    IsBefore(Stored(a), Stored(b)) == (a < b)
  }

  /** The loop of `rcu_bitmap_request_grace_period` compares the new target with the
      global one it has loaded. That is right if and only if the global target is not
      ahead, or ahead by at most 2^31, modulo 2^32. */
  lemma MaxComparisonIff(states: seq<State>, steps: seq<Step>, i: nat, c: Cpu)
    requires IsRun(states, steps) && i < |states| && c < |states[i].cpus| && states[i].cpus[c].pc.RequestLoop?
    ensures var target, oldMax := states[i].cpus[c].pc.target, states[i].cpus[c].pc.oldMax;
            ComparedRight(target, oldMax) <==> oldMax <= target || (oldMax - target - 1) % TWO_32 < TWO_31
  {
    var target, oldMax := states[i].cpus[c].pc.target, states[i].cpus[c].pc.oldMax;
    GenerationBounds(states, steps, i, i);
    assert CpuBound(states[i], states[i].cpus[c]);
    AheadIff(target, oldMax);
  }

  /** All three comparisons of the code agree with the true order while less than
      2^31 - 2 generations have passed since the CPU chose its target. */
  lemma ComparisonIsExact(states: seq<State>, steps: seq<Step>, i: nat, c: Cpu)
    requires IsRun(states, steps) && i < |states| && c < |states[i].cpus|
    requires states[i].period.generation + 2 < states[i].cpus[c].target + TWO_31
    ensures ComparedRight(states[i].period.generation, states[i].cpus[c].target)
    ensures states[i].cpus[c].pc.RequestLoop? ==>
              ComparedRight(states[i].cpus[c].pc.target, states[i].cpus[c].pc.oldMax)
  {
    GenerationBounds(states, steps, i, i);
    assert CpuBound(states[i], states[i].cpus[c]);
    AgreesIff(states[i].period.generation, states[i].cpus[c].target);
    if states[i].cpus[c].pc.RequestLoop? {
      AgreesIff(states[i].cpus[c].pc.target, states[i].cpus[c].pc.oldMax);
    }
  }

  /** `rcu_bitmap_notify`, and the recheck within a request, compare the generation with
      the target of the CPU's last request, however old. The comparison is right if
      and only if the generation has moved on from that target by less than 2^31,
      modulo 2^32. */
  lemma TargetComparisonIff(states: seq<State>, steps: seq<Step>, i: nat, c: Cpu)
    requires IsRun(states, steps) && i < |states| && c < |states[i].cpus|
    ensures var g, target := states[i].period.generation, states[i].cpus[c].target;
            ComparedRight(g, target) <==> g < target || (g - target) % TWO_32 < TWO_31
  {
    var g, target := states[i].period.generation, states[i].cpus[c].target;
    GenerationBounds(states, steps, i, i);
    assert CpuBound(states[i], states[i].cpus[c]);
    StoredDifference(g, target);
  }

  lemma {:induction false} WaitersIsCardinality(cpus: seq<CpuState>)
    ensures Waiters(cpus) == |set c | 0 <= c < |cpus| && cpus[c].updateCount > 0|
  {
    if cpus != [] {
      var n := |cpus| - 1;
      WaitersIsCardinality(cpus[..n]);
      assert Waiters(cpus) == Waiters(cpus[..n]) + HasUpdates(cpus[n]);
      OneMoreWaiter(cpus, n);
    }
  }

  lemma OneMoreWaiter(cpus: seq<CpuState>, n: nat)
    requires |cpus| == n + 1
    ensures |set c | 0 <= c < |cpus| && cpus[c].updateCount > 0| ==
            |set c | 0 <= c < |cpus[..n]| && cpus[..n][c].updateCount > 0| + HasUpdates(cpus[n])
  {
    var before := set c | 0 <= c < |cpus[..n]| && cpus[..n][c].updateCount > 0;
    var all := set c | 0 <= c < |cpus| && cpus[c].updateCount > 0;
    assert n !in before;
    assert all == before + if cpus[n].updateCount > 0 then {n} else {};
  }

  /** At handler boundaries the counters are exact: a CPU's update count is the
      length of its three batches, the global count is the number of CPUs with
      updates, and the ready flag says whether the ready batch has anything in it. */
  lemma CountersAreExact(states: seq<State>, steps: seq<Step>, i: nat)
    requires IsRun(states, steps) && i < |states|
    ensures states[i].waiterCount == |set c | 0 <= c < |states[i].cpus| && states[i].cpus[c].updateCount > 0|
    ensures forall c | 0 <= c < |states[i].cpus| && !states[i].cpus[c].pc.Updating? ::
              var x := states[i].cpus[c];
              x.updateCount == BatchHits(x.next, None) + BatchHits(x.waiting, None) + BatchHits(x.ready, None) &&
              (x.readyUpdates <==> exists k | 0 <= k < |x.ready| :: x.ready[k] != [])
  {
    AccountingHolds(states, steps, i);
    WaitersIsCardinality(states[i].cpus);
    forall c | 0 <= c < |states[i].cpus| {
      BatchEmpty(states[i].cpus[c].ready);
    }
  }

  lemma {:induction false} IdsAreUnique(q: seq<Update>, u: Update)
    requires forall i | 0 <= i < |q| :: q[i].id == i
    ensures multiset(q)[u] == if u in q then 1 else 0
  {
    if q != [] {
      var n := |q| - 1;
      IdsAreUnique(q[..n], u);
      assert q == q[..n] + [q[n]];
      assert u in q[..n] ==> u.id < n;
    }
  }

  lemma CountTwo(q: seq<Update>, a: nat, b: nat)
    requires a < b < |q| && q[a] == q[b]
    ensures multiset(q)[q[a]] >= 2
  {
    assert q == q[..b] + q[b..];
    assert q[a] == q[..b][a] && q[b] == q[b..][0];
  }

  /** Every enqueued update runs at most once, only enqueued updates run, and none
      is left out once all counts are back to zero, however callbacks interleave. */
  lemma ExactlyOnce(states: seq<State>, steps: seq<Step>, i: nat)
    requires IsRun(states, steps) && i < |states|
    ensures var s := states[i];
            (forall a, b | 0 <= a < b < |s.executed| :: s.executed[a] != s.executed[b]) &&
            (forall u | u in s.executed :: u in s.enqueued) &&
            ((forall c | 0 <= c < |s.cpus| :: s.cpus[c].updateCount == 0) ==>
             forall u | u in s.enqueued :: u in s.executed)
  {
    var s := states[i];
    AccountingHolds(states, steps, i);
    forall a, b | 0 <= a < b < |s.executed| ensures s.executed[a] != s.executed[b] {
      if s.executed[a] == s.executed[b] {
        CountTwo(s.executed, a, b);
        assert Conserved(s, Some(s.executed[a]));
        IdsAreUnique(s.enqueued, s.executed[a]);
      }
    }
    forall u | u in s.executed ensures u in s.enqueued {
      assert Conserved(s, Some(u));
      assert multiset(s.executed)[u] > 0;
    }
    if forall c | 0 <= c < |s.cpus| :: s.cpus[c].updateCount == 0 {
      forall u | u in s.enqueued ensures u in s.executed {
        assert Conserved(s, Some(u)) && Conserved(s, None);
        NothingPending(s, u);
        assert multiset(s.enqueued)[u] > 0;
      }
    }
  }

  lemma NothingHeld(x: CpuState, u: Update)
    requires Accounted(x) && x.updateCount == 0
    ensures CpuHits(x, Some(u)) == 0
  {
    assert CpuHits(x, None) == 0;
    BatchEmpty(x.next);
    BatchEmpty(x.waiting);
    BatchEmpty(x.ready);
    SumZero(x.next, HitsOf(Some(u)));
    SumZero(x.waiting, HitsOf(Some(u)));
    SumZero(x.ready, HitsOf(Some(u)));
  }

  lemma NothingPending(s: State, u: Update)
    requires Accounting(s) && forall c | 0 <= c < |s.cpus| :: s.cpus[c].updateCount == 0
    ensures Pending(s.cpus, Some(u)) == 0
  {
    forall c | 0 <= c < |s.cpus| ensures CpuHitsOf(Some(u))(s.cpus[c]) == 0 {
      NothingHeld(s.cpus[c], u);
    }
    SumZero(s.cpus, CpuHitsOf(Some(u)));
  }

  /** Whatever the handlers do, they keep the accounting and the bounds. */
  lemma {:induction false} PathInvariant(states: seq<State>, steps: seq<Step>)
    requires IsPath(states, steps)
    ensures Accounting(states[0]) ==> Accounting(states[|steps|])
    ensures Bounded(states[0]) ==> Bounded(states[|steps|])
  {
    if steps != [] {
      var n := |steps| - 1;
      var states', steps' := states[..n + 1], steps[..n];
      forall i | 0 <= i < n ensures Follows(states', steps', i) {
        assert Follows(states, steps, i);
      }
      PathInvariant(states', steps');
      assert Follows(states, steps, n);
      if Accounting(states[n]) { AccountingStep(states[n], steps[n]); }
      if Bounded(states[n]) { BoundedStep(states[n], steps[n]); }
    }
  }

  lemma LeadsInvariant(s: State, t: State)
    requires Leads(s, t)
    ensures Accounting(s) ==> Accounting(t)
    ensures Bounded(s) ==> Bounded(t)
  {
    var states, steps :| IsPath(states, steps) && states[0] == s && states[|steps|] == t;
    PathInvariant(states, steps);
  }
}
