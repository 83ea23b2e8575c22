/** The 32-bit comparisons do go wrong. While one CPU stands still another one can
    drive the generation on for ever, so a CPU comes to compare a target of any age. */
module RcuStaleTargets {
  import opened Outcomes
  import opened Arithmetic
  import opened SerialNumbers
  import opened RcuProtocol
  import opened RcuSafety
  import opened RcuGrace
  import opened RcuOvertaking

  /** Nobody is active, the period waits for nobody, and CPU `q` is free to drive it. */
  ghost predicate Drivable(s: State, q: Cpu) {
    Reachable(s) && s.active == {} && s.period.waitingFor == {} && q < |s.cpus| && s.cpus[q].pc.AtRest? &&
    s.cpus[q].section.None?
  }

  /** From `s` to `t` nobody but CPU `q` has moved. */
  ghost predicate Driven(s: State, t: State, q: Cpu) {
    Leads(s, t) && Drivable(t, q) && q < |s.cpus| == |t.cpus| && t.cpus == s.cpus[q := t.cpus[q]]
  }

  lemma DrivenJoin(s: State, t: State, u: State, q: Cpu)
    requires Driven(s, t, q) && Driven(t, u, q)
    ensures Driven(s, u, q)
  {
    LeadsJoin(s, t, u);
  }

  /** CPU `q` runs the updates it has ready. */
  lemma RunReady(s: State, q: Cpu) returns (t: State)
    requires Drivable(s, q)
    ensures Driven(s, t, q) && t.period == s.period && t.maxTarget == s.maxTarget && !t.cpus[q].readyUpdates
  {
    LeadsToSelf(s);
    assert s.cpus[q := s.cpus[q]] == s.cpus;
    CpuFacts(s, q);
    if s.cpus[q].readyUpdates {
      var r := Go(s, s, UpdateBegin(q));
      t := FinishUpdates(s, r, q);
    } else {
      t := s;
    }
  }

  /** CPU `q` queues an update and asks for two more generations. */
  lemma AskForMore(s: State, q: Cpu) returns (t: State)
    requires Drivable(s, q) && s.maxTarget == s.period.generation && !s.cpus[q].readyUpdates
    ensures Driven(s, t, q) && t.period == s.period && t.maxTarget > s.period.generation
  {
    LeadsToSelf(s);
    CpuFacts(s, q);
    var r := Go(s, s, Enqueue(q, 0));
    assert r.cpus[q].next[0] != [];
    var r' := Go(s, r, Notify(q));
    t := FinishRequest(s, r', q);
    CpuFacts(t, q);
  }

  lemma Pass(s: State, q: Cpu) returns (t: State)
    requires Drivable(s, q) && s.period.generation < s.maxTarget
    ensures Driven(s, t, q) && t.period.generation == s.period.generation + 1
  {
    LeadsToSelf(s);
    var r := Go(s, s, QuiesceLoad(q));
    t := FreshPass(s, r, q);
    assert s.period.waitingFor - {q} == {};
  }

  /** One generation more. */
  lemma DriveOne(s: State, q: Cpu) returns (t: State)
    requires Drivable(s, q)
    ensures Driven(s, t, q) && t.period.generation == s.period.generation + 1
  {
    IsSteady(s);
    if s.period.generation < s.maxTarget {
      t := Pass(s, q);
    } else {
      var r := RunReady(s, q);
      var r' := AskForMore(r, q);
      DrivenJoin(s, r, r', q);
      t := Pass(r', q);
      DrivenJoin(s, r', t, q);
    }
  }

  /** Any number of generations can pass while no other CPU moves. */
  lemma {:induction false} Drive(s: State, q: Cpu, n: nat) returns (t: State)
    requires Drivable(s, q)
    ensures Driven(s, t, q) && t.period.generation == s.period.generation + n
  {
    if n == 0 {
      t := s;
      LeadsToSelf(s);
      assert s.cpus[q := s.cpus[q]] == s.cpus;
    } else {
      var r := Drive(s, q, n - 1);
      t := DriveOne(r, q);
      DrivenJoin(s, r, t, q);
    }
  }

  /** CPU `c` could move its batches on, as its target was reached `age` generations
      ago, and it has updates to move. */
  ghost predicate TargetReached(s: State, c: Cpu, age: nat) {
    Reachable(s) && Enabled(s, Notify(c)) && s.cpus[c].updateCount > 0 &&
    s.period.generation == s.cpus[c].target + age
  }

  /** A CPU that asked for a grace period and then turned inactive may find its target
      reached any number of generations ago. `rcu_bitmap_notify` then takes it for one
      still to come, and holds the updates back, if and only if the age is in the upper
      half of the 32-bit range. */
  lemma StaleTargetMisleads(age: nat)
    ensures exists s, c: Cpu :: TargetReached(s, c, age) &&
              (IsBefore(Stored(s.period.generation), Stored(s.cpus[c].target)) <==> age % TWO_32 >= TWO_31)
  {
    var s := FirstRequest();
    var t := Drive(s, 1, 2 + age);
    assert t.cpus[0] == DRIVER;
    StoredDifference(2 + age, 2);
    assert TargetReached(t, 0, age);
  }

  /** An inactive CPU queues an update and publishes its target, but does not yet look
      at the global one. */
  lemma HalfRequest() returns (t: State)
    ensures Drivable(t, 1) && t.period.generation == 0 && |t.cpus| == 3 && t.cpus[0].pc == RequestUnmet(2)
  {
    var s := StartState();
    var r := Take(s, Enqueue(0, 0));
    assert r.cpus[0].next[0] != [];
    r := Take(r, Notify(0));
    r := Take(r, RequestStore(0));
    t := Take(r, RequestRecheck(0));
  }

  /** The comparison with the global target goes wrong in the same way: the request
      takes a target that is long passed for one beyond `max_target`. */
  lemma StaleRequestMisleads()
    ensures exists s, c: Cpu :: Reachable(s) && c < |s.cpus| && s.cpus[c].pc.RequestLoop? &&
              s.cpus[c].pc.target < s.cpus[c].pc.oldMax &&
              !IsBefore(Stored(s.cpus[c].pc.target), Stored(s.cpus[c].pc.oldMax))
  {
    var s := HalfRequest();
    var r := Drive(s, 1, TWO_31 + 3);
    assert r.cpus[0].pc == RequestUnmet(2);
    var t := Take(r, RequestReadMax(0));
    assert t.cpus[0].pc == RequestLoop(2, r.maxTarget);
    FarAhead(r);
  }

  lemma FarAhead(s: State)
    requires Reachable(s) && s.period.generation == TWO_31 + 3
    ensures 2 < s.maxTarget && !IsBefore(Stored(2), Stored(s.maxTarget))
  {
    IsSteady(s);
    AgreesIff(2, s.maxTarget);
  }
}
