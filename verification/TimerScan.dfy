/** When the hand-over of an offline CPU's timers panics. The scan offers the timer
    in transit to every other CPU once around, while CPUs go offline and come back.
    It gives up exactly when each of them was unusable at the moment it was tried,
    which can happen although some CPU was usable all the time. */
module TimerScan {
  import opened Outcomes
  import opened Lists
  import opened TimerProtocol
  import opened TimerSafety
  import opened TimerRuns

  /** How many places after `start` the cyclic scan over `n` CPUs meets `p`. */
  function Offset(start: Cpu, p: Cpu, n: nat): (d: nat)
    requires start < n && p < n
  {
    if p >= start then p - start else p + n - start
  }

  /** The scan moves by one, or by two over the own CPU, and is back at its start
      only when it has met every other CPU. */
  lemma ScanOn(c: Cpu, start: Cpu, last: Cpu, n: nat)
    requires start < n && last < n && c < n && (start == c || last == c ==> n == 1)
    ensures var next := NextTarget(last, c, n);
            next < n && (next == c ==> n == 1) &&
            if next == start then forall p: Cpu | p < n && p != c :: Offset(start, p, n) <= Offset(start, last, n)
            else Offset(start, next, n) > Offset(start, last, n) &&
                 forall p: Cpu | p < n && p != c :: Offset(start, p, n) < Offset(start, next, n) <==>
                                               Offset(start, p, n) <= Offset(start, last, n)
  {
    Modulo(last, n);
    Modulo(c, n);
  }

  // ------------------------------------------------------------- the scan in a run

  /** CPU `c` is looking for a target. */
  predicate Scanning(s: State, c: Cpu) {
    c < |s.cpus| && s.cpus[c].phase.Migrating? && s.cpus[c].phase.transit.Some?
  }

  /** The state in which the last scan of CPU `c` began. */
  ghost function ScanStart(steps: seq<Step>, k: nat, c: Cpu): (j: nat)
    requires k <= |steps|
    ensures j <= k
  {
    if k == 0 || steps[k - 1] == MigratePick(c) then k else ScanStart(steps, k - 1, c)
  }

  /** In state `i` CPU `c` offers the timer to `p`, which does not take it. */
  ghost predicate RefusedAt(states: seq<State>, steps: seq<Step>, c: Cpu, p: Cpu, i: nat)
    requires i < |steps| < |states|
  {
    steps[i] == MigrateTry(c) && Scanning(states[i], c) && states[i].cpus[c].phase.target == p && !Usable(states[i], p)
  }

  /** Since state `j`, and before state `k`, CPU `p` has been tried and was not usable then. */
  ghost predicate TriedInVain(states: seq<State>, steps: seq<Step>, c: Cpu, p: Cpu, j: nat, k: nat)
    requires k <= |steps| < |states|
  {
    exists i | j <= i < k :: RefusedAt(states, steps, c, p, i)
  }

  /** A scan begins with the pick of a timer and moves only by its own tries. */
  lemma ScanStep(s: State, step: Step, r: State, c: Cpu)
    requires Inv(s) && Enabled(s, step) && Apply(s, step) == Done(r) && c < |s.cpus|
    ensures |r.cpus| == |s.cpus| == |s.queues| == |r.queues|
    ensures Scanning(r, c) && step == MigratePick(c) ==> r.cpus[c].phase.target == r.cpus[c].phase.start
    ensures Scanning(r, c) && step == MigrateTry(c) ==>
              Scanning(s, c) && !Usable(s, s.cpus[c].phase.target) && r.cpus[c].phase.start == s.cpus[c].phase.start &&
              r.cpus[c].phase.target == NextTarget(s.cpus[c].phase.target, c, |s.queues|) != r.cpus[c].phase.start
    ensures Scanning(r, c) && step != MigratePick(c) && step != MigrateTry(c) ==>
              r.cpus[c].phase == s.cpus[c].phase
  {
    StepKeepsInv(s, step);
    assert CpuOk(s, step.cpu);
  }

  /** In state `k` of its scan, CPU `c` has tried in vain exactly the CPUs before its target. */
  ghost predicate ScannedTo(states: seq<State>, steps: seq<Step>, k: nat, c: Cpu)
    requires k <= |steps| < |states| && Scanning(states[k], c)
  {
    var phase, n := states[k].cpus[c].phase, |states[k].queues|;
    phase.start < n && phase.target < n &&
    forall p: Cpu | p < n && p != c ::
      TriedInVain(states, steps, c, p, ScanStart(steps, k, c), k) <==>
      Offset(phase.start, p, n) < Offset(phase.start, phase.target, n)
  }

  lemma ScanTried(states: seq<State>, steps: seq<Step>, k: nat, c: Cpu)
    requires IsRun(states, steps) && 0 < k <= |steps| && Scanning(states[k], c) && steps[k - 1] == MigrateTry(c)
    requires Scanning(states[k - 1], c) && ScannedTo(states, steps, k - 1, c)
    ensures ScannedTo(states, steps, k, c)
  {
    var s, j := states[k - 1], ScanStart(steps, k - 1, c);
    var phase, n := s.cpus[c].phase, |s.queues|;
    InvHolds(states, steps, k - 1);
    assert Follows(states, steps, k - 1);
    ScanStep(s, steps[k - 1], states[k], c);
    assert CpuOk(s, c);
    ScanOn(c, phase.start, phase.target, n);
    assert RefusedAt(states, steps, c, phase.target, k - 1);
    forall p: Cpu | p < n && p != c
      ensures TriedInVain(states, steps, c, p, j, k) <==>
              TriedInVain(states, steps, c, p, j, k - 1) || p == phase.target
    {
    }
  }

  /** A scan that has just begun has tried nobody. */
  lemma ScanBegun(states: seq<State>, steps: seq<Step>, k: nat, c: Cpu)
    requires IsRun(states, steps) && k <= |steps| && Scanning(states[k], c)
    requires k == 0 || steps[k - 1] == MigratePick(c)
    ensures ScannedTo(states, steps, k, c)
  {
    InvHolds(states, steps, k);
    assert CpuOk(states[k], c);
    if k > 0 {
      InvHolds(states, steps, k - 1);
      assert Follows(states, steps, k - 1);
      SameSize(states[k - 1], steps[k - 1]);
      ScanStep(states[k - 1], steps[k - 1], states[k], c);
    }
  }

  lemma {:induction false} ScanHistory(states: seq<State>, steps: seq<Step>, k: nat, c: Cpu)
    requires IsRun(states, steps) && k <= |steps| && Scanning(states[k], c)
    ensures ScannedTo(states, steps, k, c)
  {
    if k == 0 || steps[k - 1] == MigratePick(c) {
      ScanBegun(states, steps, k, c);
    } else {
      InvHolds(states, steps, k - 1);
      assert Follows(states, steps, k - 1);
      SameSize(states[k - 1], steps[k - 1]);
      ScanStep(states[k - 1], steps[k - 1], states[k], c);
      if steps[k - 1] == MigrateTry(c) {
        ScanHistory(states, steps, k - 1, c);
        ScanTried(states, steps, k, c);
      } else {
        ScanHistory(states, steps, k - 1, c);
        StillScanning(states, steps, k, c);
      }
    }
  }

  lemma SameSize(s: State, step: Step)
    requires Inv(s) && Enabled(s, step) && Apply(s, step).Done?
    ensures |Apply(s, step).value.cpus| == |s.cpus|
  {
    assert CpuOk(s, step.cpu);
  }

  lemma StillScanning(states: seq<State>, steps: seq<Step>, k: nat, c: Cpu)
    requires 0 < k <= |steps| < |states| && Scanning(states[k], c) && Scanning(states[k - 1], c)
    requires steps[k - 1] != MigratePick(c) && steps[k - 1] != MigrateTry(c)
    requires states[k].cpus[c].phase == states[k - 1].cpus[c].phase && |states[k].queues| == |states[k - 1].queues|
    requires ScannedTo(states, steps, k - 1, c)
    ensures ScannedTo(states, steps, k, c)
  {
    var j := ScanStart(steps, k, c);
    forall p ensures TriedInVain(states, steps, c, p, j, k) <==> TriedInVain(states, steps, c, p, j, k - 1) {
      assert !RefusedAt(states, steps, c, p, k - 1);
    }
  }

  lemma TryFacts(states: seq<State>, steps: seq<Step>, k: nat, c: Cpu)
    requires IsRun(states, steps) && k <= |steps| && Enabled(states[k], MigrateTry(c))
    ensures ScanOk(|states[k].queues|, c, states[k].cpus[c].phase) && !Usable(states[k], c)
    ensures Apply(states[k], MigrateTry(c)).Panic? <==> GivesUp(states[k], MigrateTry(c))
  {
    OnlyScansPanic(states, steps, k, MigrateTry(c));
    InvHolds(states, steps, k);
    assert CpuOk(states[k], c);
  }

  /** The panic of the hand-over, exactly: the next try panics if and only if every
      other CPU has been unusable at the moment this scan tried it. */
  lemma PanicsIff(states: seq<State>, steps: seq<Step>, k: nat, c: Cpu)
    requires IsRun(states, steps) && k <= |steps| && Enabled(states[k], MigrateTry(c))
    ensures Apply(states[k], MigrateTry(c)).Panic? <==>
            forall p: Cpu | p < |states[k].queues| && p != c ::
              TriedInVain(states, steps, c, p, ScanStart(steps, k, c), k) ||
              (p == states[k].cpus[c].phase.target && !Usable(states[k], p))
  {
    var s := states[k];
    var phase, n := s.cpus[c].phase, |s.queues|;
    TryFacts(states, steps, k, c);
    ScanHistory(states, steps, k, c);
    ScanOn(c, phase.start, phase.target, n);
    if n > 1 && Usable(s, phase.target) {
      assert !TriedInVain(states, steps, c, phase.target, ScanStart(steps, k, c), k);
    } else if n > 1 && NextTarget(phase.target, c, n) != phase.start {
      var next := NextTarget(phase.target, c, n);
      assert !TriedInVain(states, steps, c, next, ScanStart(steps, k, c), k);
    }
  }

  /** What rules the panic out: one other CPU stays usable for the whole scan. */
  lemma SteadyCpuPreventsPanic(states: seq<State>, steps: seq<Step>, k: nat, c: Cpu, p: Cpu)
    requires IsRun(states, steps) && k <= |steps| && Enabled(states[k], MigrateTry(c)) && p != c
    requires forall i | ScanStart(steps, k, c) <= i <= k :: Usable(states[i], p)
    ensures Apply(states[k], MigrateTry(c)).Done?
  {
    PanicsIff(states, steps, k, c);
    assert Usable(states[k], p);
    assert !TriedInVain(states, steps, c, p, ScanStart(steps, k, c), k);
  }

  // ------------------------------------------------------- a scan that is outrun

  const DOWN := Local(NoOp, None, Offline)
  const EMPTY := Queue([], INVALID_TIMEOUT, true, INVALID_TIMEOUT, false)
  const CLOSED := EMPTY.(online := false)

  /** CPU 0 hands its one timer over; `x` are the queues and places of CPUs 1 and 2. */
  function Trio(timer: Timer, q0: Queue, x0: Local, x: seq<(Queue, Local)>): (s: State)
    requires |x| == 2
  {
    State([timer], [q0, x[0].0, x[1].0], [x0, x[0].1, x[1].1], [true, true, true])
  }

  const ARMED := Timer(5, Some(0))
  const ONE_UP := [(CLOSED, DOWN), (EMPTY, UP)]
  const BOTH_UP := [(EMPTY, UP), (EMPTY, UP)]
  const OTHER_UP := [(EMPTY, UP), (CLOSED, UP.(phase := Migrating(0, None, 0)))]

  lemma Arms()
    ensures Enabled(Trio(Timer(INVALID_TIMEOUT, None), EMPTY, UP, ONE_UP), Enqueue(0, 0, 5))
    ensures Apply(Trio(Timer(INVALID_TIMEOUT, None), EMPTY, UP, ONE_UP), Enqueue(0, 0, 5)) ==
            Done(Trio(ARMED, Queue([0], 5, true, 5, false), UP, ONE_UP))
  {
    var s, r := Trio(Timer(INVALID_TIMEOUT, None), EMPTY, UP, ONE_UP),
        Trio(ARMED, Queue([0], 5, true, 5, false), UP, ONE_UP);
    assert s.timers[0 := ARMED] == r.timers && s.queues[0 := r.queues[0]] == r.queues;
    assert Insert(r.timers, [], 0) == [0];
  }

  function Hand(transit: Option<TimerId>, target: Cpu): (x: Local) {
    UP.(phase := Migrating(1, transit, target))
  }

  lemma Leaves()
    ensures Apply(Trio(ARMED, Queue([0], 5, true, 5, false), UP, ONE_UP), OfflineBegin(0)) ==
            Done(Trio(ARMED, Queue([0], 5, false, INVALID_TIMEOUT, false), Hand(None, 1), ONE_UP))
  {
    var s := Trio(ARMED, Queue([0], 5, true, 5, false), UP, ONE_UP);
    var r := Trio(ARMED, Queue([0], 5, false, INVALID_TIMEOUT, false), Hand(None, 1), ONE_UP);
    assert s.queues[0 := r.queues[0]] == r.queues && s.cpus[0 := r.cpus[0]] == r.cpus;
  }

  lemma Picks()
    ensures Apply(Trio(ARMED, Queue([0], 5, false, INVALID_TIMEOUT, false), Hand(None, 1), ONE_UP), MigratePick(0)) ==
            Done(Trio(ARMED, CLOSED, Hand(Some(0), 1), ONE_UP))
  {
    var s := Trio(ARMED, Queue([0], 5, false, INVALID_TIMEOUT, false), Hand(None, 1), ONE_UP);
    var r := Trio(ARMED, CLOSED, Hand(Some(0), 1), ONE_UP);
    assert Without([0], 0) == [];
    assert s.queues[0 := r.queues[0]] == r.queues && s.cpus[0 := r.cpus[0]] == r.cpus;
    assert !ListedElsewhere(s, 0, 0);
  }

  lemma Misses()
    ensures Apply(Trio(ARMED, CLOSED, Hand(Some(0), 1), ONE_UP), MigrateTry(0)) ==
            Done(Trio(ARMED, CLOSED, Hand(Some(0), 2), ONE_UP))
    ensures Apply(Trio(ARMED, CLOSED, Hand(Some(0), 2), ONE_UP), OnlineAgain(1)) ==
            Done(Trio(ARMED, CLOSED, Hand(Some(0), 2), BOTH_UP))
  {
    var s, r := Trio(ARMED, CLOSED, Hand(Some(0), 1), ONE_UP), Trio(ARMED, CLOSED, Hand(Some(0), 2), ONE_UP);
    var u := Trio(ARMED, CLOSED, Hand(Some(0), 2), BOTH_UP);
    assert s.cpus[0 := r.cpus[0]] == r.cpus;
    assert r.queues[1 := u.queues[1]] == u.queues && r.cpus[1 := u.cpus[1]] == u.cpus;
  }

  lemma Outrun()
    ensures Apply(Trio(ARMED, CLOSED, Hand(Some(0), 2), BOTH_UP), OfflineBegin(2)) ==
            Done(Trio(ARMED, CLOSED, Hand(Some(0), 2), OTHER_UP))
    ensures Enabled(Trio(ARMED, CLOSED, Hand(Some(0), 2), OTHER_UP), MigrateTry(0))
    ensures Apply(Trio(ARMED, CLOSED, Hand(Some(0), 2), OTHER_UP), MigrateTry(0)).Panic?
  {
    var s, r := Trio(ARMED, CLOSED, Hand(Some(0), 2), BOTH_UP), Trio(ARMED, CLOSED, Hand(Some(0), 2), OTHER_UP);
    assert s.queues[2 := r.queues[2]] == r.queues && s.cpus[2 := r.cpus[2]] == r.cpus;
  }

  const OUTRUN := [
    Trio(Timer(INVALID_TIMEOUT, None), EMPTY, UP, ONE_UP), Trio(ARMED, Queue([0], 5, true, 5, false), UP, ONE_UP),
    Trio(ARMED, Queue([0], 5, false, INVALID_TIMEOUT, false), Hand(None, 1), ONE_UP),
    Trio(ARMED, CLOSED, Hand(Some(0), 1), ONE_UP), Trio(ARMED, CLOSED, Hand(Some(0), 2), ONE_UP),
    Trio(ARMED, CLOSED, Hand(Some(0), 2), BOTH_UP), Trio(ARMED, CLOSED, Hand(Some(0), 2), OTHER_UP)]
  const OUTRUNNING := [
    Enqueue(0, 0, 5), OfflineBegin(0), MigratePick(0), MigrateTry(0), OnlineAgain(1), OfflineBegin(2)]

  lemma OutrunFollows(i: nat)
    requires i < 6
    ensures Follows(OUTRUN, OUTRUNNING, i)
  {
    match i
    case 0 => Arms();
    case 1 => Leaves();
    case 2 => Picks();
    case 3 => Misses();
    case 4 => Misses();
    case _ => Outrun();
  }

  lemma OutrunIsRun()
    ensures IsRun(OUTRUN, OUTRUNNING)
  {
    forall i | 0 <= i < |OUTRUNNING| ensures Follows(OUTRUN, OUTRUNNING, i) {
      OutrunFollows(i);
    }
  }

  /** The panic is reachable although CPU 1 or CPU 2 is usable in every state: CPU 1
      comes back just after it was tried, and CPU 2 leaves just before. */
  lemma OutrunScanPanics()
    ensures exists states: seq<State>, steps: seq<Step> ::
              IsRun(states, steps) && |steps| == 6 && Enabled(states[6], MigrateTry(0)) &&
              Apply(states[6], MigrateTry(0)).Panic? &&
              forall i | 0 <= i <= 6 :: Usable(states[i], 1) || Usable(states[i], 2)
  {
    OutrunIsRun();
    Outrun();
  }
}
