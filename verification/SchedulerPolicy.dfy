/** What `get_next_target` chooses, against a simple reference: every CPU has one
    line per priority, the active thread stands first in its line, a thread whose
    timeslice is used up goes to the end of its line, and the target is the first
    thread of the best non-empty line. */
module SchedulerPolicy {
  import opened Outcomes
  import opened SchedulerState
  import opened SchedulerInvariant
  import opened SchedulerRuns

  /** The lines of CPU `c`, the active thread included. */
  function Lines(s: State, c: Cpu): (lines: seq<seq<Tid>>)
    requires Inv(s) && c < |s.scheds|
    ensures |lines| == NUM_PRIORITIES
  {
    var sc := s.scheds[c];
    assert Placed(s.threads, sc, c);
    if sc.active.None? then sc.runqueue
    else
      var prev := sc.active.value;
      assert ThreadOk(s, prev);
      var l := MAX_PRIORITY - s.threads[prev].priority;
      sc.runqueue[l := [prev] + sc.runqueue[l]]
  }

  function Turned(q: seq<Tid>): (r: seq<Tid>) {
    if q == [] then [] else q[1..] + [q[0]]
  }

  predicate ActiveExpired(s: State, c: Cpu, now: nat)
    requires c < |s.scheds|
  {
    var sc := s.scheds[c];
    sc.active.Some? && sc.active.value < |s.threads| && Expired(sc, s.threads[sc.active.value], now)
  }

  /** The reference: the lines after the active thread's time has been looked at. */
  function TurnedLines(s: State, c: Cpu, now: nat): (lines: seq<seq<Tid>>)
    requires Inv(s) && c < |s.scheds|
    ensures |lines| == NUM_PRIORITIES
  {
    if !ActiveExpired(s, c, now) then Lines(s, c)
    else
      assert ThreadOk(s, s.scheds[c].active.value);
      var l := MAX_PRIORITY - s.threads[s.scheds[c].active.value].priority;
      Lines(s, c)[l := Turned(Lines(s, c)[l])]
  }

  /** `t` is first in line at the best level that has anyone. */
  ghost predicate FirstOfBest(lines: seq<seq<Tid>>, t: Tid) {
    exists l | 0 <= l < |lines| :: lines[l] != [] && lines[l][0] == t && forall k | 0 <= k < l :: lines[k] == []
  }

  /** What a promotion does to the lists, level by level. */
  lemma PromotedLists(s: State, c: Cpu, i: nat, expired: bool, now: nat)
    requires Inv(s) && c < |s.scheds| && s.scheds[c].active.Some? && i in s.scheds[c].bitmap
    requires Displaces(i, s.threads[s.scheds[c].active.value], expired)
    ensures Promote(s, c, i, expired, now).Done?
    ensures var sc, sc' := s.scheds[c], Promote(s, c, i, expired, now).value.0;
            var prev := sc.active.value;
            var l := MAX_PRIORITY - s.threads[prev].priority;
            var popped := sc.runqueue[i := sc.runqueue[i][1..]];
            sc'.runqueue == popped[l := if expired then popped[l] + [prev] else [prev] + popped[l]]
  {
    var sc := s.scheds[c];
    assert Placed(s.threads, sc, c) && ThreadOk(s, sc.active.value);
    PromotePlaces(s, c, i, expired, now);
  }

  lemma StayLines(s: State, c: Cpu, now: nat)
    requires Inv(s) && c < |s.scheds| && s.scheds[c].active.Some?
    requires var first := FirstSet(s.scheds[c].bitmap, 0);
             first.None? ||
             !Displaces(first.value, s.threads[s.scheds[c].active.value],
                        Expired(s.scheds[c], s.threads[s.scheds[c].active.value], now))
    ensures var prev := s.scheds[c].active.value;
            TurnedLines(s, c, now) == Lines(s, c) && FirstOfBest(Lines(s, c), prev)
  {
    var sc := s.scheds[c];
    var prev := sc.active.value;
    assert Placed(s.threads, sc, c) && ThreadOk(s, prev);
    var l := MAX_PRIORITY - s.threads[prev].priority;
    var first := FirstSet(sc.bitmap, 0);
    var lines := Lines(s, c);
    assert lines[l][0] == prev && forall k | 0 <= k < l :: k !in sc.bitmap && lines[k] == [];
    if ActiveExpired(s, c, now) {
      assert l !in sc.bitmap;
      assert lines[l] == [prev] && Turned(lines[l]) == lines[l];
    }
  }

  /** Popping the head of level `i` and putting `prev` back, seen with the active thread in line. */
  lemma ListsTurn(rq: seq<seq<Tid>>, i: nat, l: nat, prev: Tid, expired: bool)
    requires i < |rq| && l < |rq| && rq[i] != [] && (i < l || (i == l && expired))
    ensures var popped := rq[i := rq[i][1..]];
            var rq' := popped[l := if expired then popped[l] + [prev] else [prev] + popped[l]];
            rq'[i := [rq[i][0]] + rq'[i]] == rq[l := if expired then rq[l] + [prev] else [prev] + rq[l]]
  {
    assert rq[i] == [rq[i][0]] + rq[i][1..];
    if i == l {
      assert [rq[i][0]] + (rq[i][1..] + [prev]) == rq[i] + [prev];
    }
  }

  lemma TurnedLevel(s: State, c: Cpu, now: nat)
    requires Inv(s) && c < |s.scheds| && s.scheds[c].active.Some?
    ensures var sc := s.scheds[c];
            var prev := sc.active.value;
            prev < |s.threads| && s.threads[prev].priority <= MAX_PRIORITY && |sc.runqueue| == NUM_PRIORITIES &&
            var l := MAX_PRIORITY - s.threads[prev].priority;
            TurnedLines(s, c, now) ==
              sc.runqueue[l := if Expired(sc, s.threads[prev], now) then sc.runqueue[l] + [prev]
                          else [prev] + sc.runqueue[l]]
  {
    var sc := s.scheds[c];
    var prev := sc.active.value;
    assert Placed(s.threads, sc, c) && ThreadOk(s, prev);
    var l := MAX_PRIORITY - s.threads[prev].priority;
    assert Turned([prev] + sc.runqueue[l]) == sc.runqueue[l] + [prev];
  }

  lemma DisplacedLines(s: State, c: Cpu, i: nat, now: nat)
    requires Inv(s) && c < |s.scheds| && s.scheds[c].active.Some? && FirstSet(s.scheds[c].bitmap, 0) == Some(i)
    requires Displaces(i, s.threads[s.scheds[c].active.value],
                       Expired(s.scheds[c], s.threads[s.scheds[c].active.value], now))
    ensures i < |s.scheds[c].runqueue| && s.scheds[c].runqueue[i] != []
    ensures FirstOfBest(TurnedLines(s, c, now), s.scheds[c].runqueue[i][0])
  {
    var sc := s.scheds[c];
    assert Placed(s.threads, sc, c);
    TurnedLevel(s, c, now);
    var turned := TurnedLines(s, c, now);
    assert turned[i] != [] && turned[i][0] == sc.runqueue[i][0];
    assert forall k | 0 <= k < i :: k !in sc.bitmap && turned[k] == [];
  }

  lemma NoneActiveRefines(s: State, c: Cpu, now: nat)
    requires Inv(s) && c < |s.scheds| && s.scheds[c].active.None?
    requires NextTarget(s, c, now).Done? && Inv(NextTarget(s, c, now).value.0)
    ensures var r := NextTarget(s, c, now).value;
            Lines(r.0, c) == Lines(s, c) &&
            (if forall l | 0 <= l < NUM_PRIORITIES :: Lines(s, c)[l] == []
             then r.1 == c && r.0.scheds[c].active == None
             else FirstOfBest(Lines(r.0, c), r.1) && r.0.scheds[c].active == Some(r.1))
  {
    var sc := s.scheds[c];
    assert Placed(s.threads, sc, c);
    var first := FirstSet(sc.bitmap, 0);
    if first.Some? {
      var i := first.value;
      PromotePlaces(s, c, i, false, now);
      HeadLevel(s, c, i);
      var q := sc.runqueue[i];
      assert q == [q[0]] + q[1..];
      var r := NextTarget(s, c, now).value;
      assert r.0.scheds[c].runqueue == sc.runqueue[i := q[1..]];
      assert Lines(r.0, c) == sc.runqueue[i := q[1..]][i := [q[0]] + q[1..]] == sc.runqueue;
      assert forall k | 0 <= k < i :: k !in sc.bitmap && sc.runqueue[k] == [];
    } else {
      assert forall k | 0 <= k < NUM_PRIORITIES :: k !in sc.bitmap && sc.runqueue[k] == [];
    }
  }

  /** `get_next_target` refines the reference: it moves nobody in any line except an
      expired active thread, to the end of its own, and picks the first of the best. */
  lemma NextTargetRefinesLines(s: State, c: Cpu, now: nat)
    requires Inv(s) && c < |s.scheds|
    ensures NextTarget(s, c, now).Done? && Inv(NextTarget(s, c, now).value.0)
    ensures var r := NextTarget(s, c, now).value;
            Lines(r.0, c) == TurnedLines(s, c, now) &&
            (if forall l | 0 <= l < NUM_PRIORITIES :: Lines(s, c)[l] == []
             then r.1 == c && r.0.scheds[c].active == None
             else FirstOfBest(Lines(r.0, c), r.1) && r.0.scheds[c].active == Some(r.1))
  {
    NextTargetKeepsInv(s, c, now);
    if s.scheds[c].active.None? {
      NoneActiveRefines(s, c, now);
    } else {
      SomeActiveRefines(s, c, now);
    }
  }

  lemma SomeActiveRefines(s: State, c: Cpu, now: nat)
    requires Inv(s) && c < |s.scheds| && s.scheds[c].active.Some?
    requires NextTarget(s, c, now).Done? && Inv(NextTarget(s, c, now).value.0)
    ensures var r := NextTarget(s, c, now).value;
            Lines(r.0, c) == TurnedLines(s, c, now) && FirstOfBest(Lines(r.0, c), r.1) &&
            r.0.scheds[c].active == Some(r.1)
  {
    var prev := s.scheds[c].active.value;
    assert Placed(s.threads, s.scheds[c], c) && ThreadOk(s, prev);
    var first := FirstSet(s.scheds[c].bitmap, 0);
    if first.None? || !Displaces(first.value, s.threads[prev], Expired(s.scheds[c], s.threads[prev], now)) {
      StayLines(s, c, now);
    } else {
      DisplacedRefines(s, c, now);
    }
  }

  lemma DisplacedRefines(s: State, c: Cpu, now: nat)
    requires Inv(s) && c < |s.scheds| && s.scheds[c].active.Some? && s.scheds[c].active.value < |s.threads|
    requires NextTarget(s, c, now).Done? && Inv(NextTarget(s, c, now).value.0)
    requires var first, x := FirstSet(s.scheds[c].bitmap, 0), s.threads[s.scheds[c].active.value];
             first.Some? && Displaces(first.value, x, Expired(s.scheds[c], x, now))
    ensures var r := NextTarget(s, c, now).value;
            Lines(r.0, c) == TurnedLines(s, c, now) && FirstOfBest(Lines(r.0, c), r.1) &&
            r.0.scheds[c].active == Some(r.1)
  {
    var sc := s.scheds[c];
    var prev := sc.active.value;
    var i := FirstSet(sc.bitmap, 0).value;
    DisplacedResult(s, c, now);
    DisplacedLines(s, c, i, now);
    TurnedLevel(s, c, now);
    ListsTurn(sc.runqueue, i, MAX_PRIORITY - s.threads[prev].priority, prev, Expired(sc, s.threads[prev], now));
  }

  /** The head of the best level becomes active and the displaced thread goes back to its own level. */
  lemma DisplacedResult(s: State, c: Cpu, now: nat)
    requires Inv(s) && c < |s.scheds| && s.scheds[c].active.Some? && s.scheds[c].active.value < |s.threads|
    requires NextTarget(s, c, now).Done?
    requires var first, x := FirstSet(s.scheds[c].bitmap, 0), s.threads[s.scheds[c].active.value];
             first.Some? && Displaces(first.value, x, Expired(s.scheds[c], x, now))
    ensures var sc, r := s.scheds[c], NextTarget(s, c, now).value;
            var i, prev := FirstSet(sc.bitmap, 0).value, sc.active.value;
            var l := MAX_PRIORITY - s.threads[prev].priority;
            i < |sc.runqueue| && sc.runqueue[i] != [] && 0 <= l < |sc.runqueue| &&
            r.1 == sc.runqueue[i][0] && c < |r.0.scheds| && r.0.scheds[c].active == Some(r.1) &&
            r.1 < |r.0.threads| && r.0.threads[r.1].priority + i == MAX_PRIORITY &&
            var popped := sc.runqueue[i := sc.runqueue[i][1..]];
            r.0.scheds[c].runqueue ==
              popped[l := if Expired(sc, s.threads[prev], now) then popped[l] + [prev] else [prev] + popped[l]]
  {
    var sc := s.scheds[c];
    var prev := sc.active.value;
    assert Placed(s.threads, sc, c) && ThreadOk(s, prev);
    var expired := Expired(sc, s.threads[prev], now);
    var i := FirstSet(sc.bitmap, 0).value;
    var charged := Charge(sc, s.threads[prev], now);
    ChargeKeepsInv(s, prev, charged.activeTimeslice);
    var s1 := SetThread(s, prev, charged);
    PromotePlaces(s1, c, i, expired, now);
    PromotedLists(s1, c, i, expired, now);
    HeadLevel(s1, c, i);
  }

  lemma HeadLevel(s: State, c: Cpu, i: nat)
    requires Inv(s) && c < |s.scheds| && i in s.scheds[c].bitmap
    ensures i < NUM_PRIORITIES && |s.scheds[c].runqueue| == NUM_PRIORITIES && s.scheds[c].runqueue[i] != []
    ensures var head := s.scheds[c].runqueue[i][0]; head < |s.threads| && s.threads[head].priority + i == MAX_PRIORITY
  {
    var sc := s.scheds[c];
    assert Placed(s.threads, sc, c);
    assert sc.runqueue[i][0] in sc.runqueue[i] && Entry(s.threads, sc.active, c, i, sc.runqueue[i][0]);
  }

  /** Every thread queued on a CPU is in the line of its priority there, and nobody else is. */
  lemma LinesHoldAll(s: State, c: Cpu)
    requires Inv(s) && c < |s.scheds|
    ensures forall t, l | 0 <= t < |s.threads| && 0 <= l < NUM_PRIORITIES ::
              t in Lines(s, c)[l] <==> Belongs(s.threads, c, t) && s.threads[t].priority + l == MAX_PRIORITY
    ensures forall t, l | 0 <= l < NUM_PRIORITIES && t in Lines(s, c)[l] :: t < |s.threads|
  {
    var sc := s.scheds[c];
    assert Placed(s.threads, sc, c);
    var lines := Lines(s, c);
    if sc.active.Some? { assert ThreadOk(s, sc.active.value); }
    forall t, l | 0 <= l < NUM_PRIORITIES && t in lines[l]
      ensures Belongs(s.threads, c, t) && s.threads[t].priority + l == MAX_PRIORITY
    {
      if t in sc.runqueue[l] { assert Entry(s.threads, sc.active, c, l, t); }
    }
    forall t | 0 <= t < |s.threads| && Belongs(s.threads, c, t)
      ensures s.threads[t].priority <= MAX_PRIORITY && t in lines[MAX_PRIORITY - s.threads[t].priority]
    {
      assert ThreadOk(s, t) && Located(s.threads, s.scheds, t);
    }
  }

  /** Selection changes no thread except that it charges the active one for its time. */
  lemma OnlyCharges(s: State, c: Cpu, now: nat)
    requires Inv(s) && c < |s.scheds|
    ensures NextTarget(s, c, now).Done? && Inv(NextTarget(s, c, now).value.0)
    ensures var r := NextTarget(s, c, now).value.0;
            var sc := s.scheds[c];
            (sc.active.Some? ==> sc.active.value < |s.threads|) &&
            r.threads == if sc.active.None? then s.threads
                         else s.threads[sc.active.value := Charge(sc, s.threads[sc.active.value], now)]
    ensures forall t | 0 <= t < |s.threads| ::
              var r := NextTarget(s, c, now).value.0;
              t < |r.threads| && (Belongs(r.threads, c, t) <==> Belongs(s.threads, c, t)) &&
              r.threads[t].priority == s.threads[t].priority
  {
    NextTargetKeepsInv(s, c, now);
    assert Placed(s.threads, s.scheds[c], c);
  }

  /** The target has the highest priority of all threads queued on the CPU. */
  lemma TargetIsBest(s: State, c: Cpu, now: nat, t: Tid)
    requires Inv(s) && c < |s.scheds| && Belongs(s.threads, c, t)
    ensures NextTarget(s, c, now).Done?
    ensures var r := NextTarget(s, c, now).value;
            r.0.scheds[c].active == Some(r.1) && Belongs(s.threads, c, r.1) &&
            s.threads[t].priority <= s.threads[r.1].priority
  {
    OnlyCharges(s, c, now);
    NextTargetRefinesLines(s, c, now);
    HasLine(s, c, t);
    var r := NextTarget(s, c, now).value;
    assert Belongs(r.0.threads, c, t) && FirstOfBest(Lines(r.0, c), r.1);
    BestOfLines(r.0, c, r.1, t);
    assert r.1 < |r.0.threads| == |s.threads|;
  }

  lemma HasLine(s: State, c: Cpu, t: Tid)
    requires Inv(s) && c < |s.scheds| && Belongs(s.threads, c, t)
    ensures s.threads[t].priority <= MAX_PRIORITY && t in Lines(s, c)[MAX_PRIORITY - s.threads[t].priority]
    ensures exists l :: 0 <= l < NUM_PRIORITIES && Lines(s, c)[l] != []
  {
    assert ThreadOk(s, t);
    LinesHoldAll(s, c);
    var l := MAX_PRIORITY - s.threads[t].priority;
    assert Lines(s, c)[l] != [];
  }

  /** The first thread of the best line has no better one on its CPU. */
  lemma BestOfLines(s: State, c: Cpu, target: Tid, t: Tid)
    requires Inv(s) && c < |s.scheds| && Belongs(s.threads, c, t) && FirstOfBest(Lines(s, c), target)
    ensures Belongs(s.threads, c, target) && s.threads[t].priority <= s.threads[target].priority
  {
    HasLine(s, c, t);
    LinesHoldAll(s, c);
    var lines := Lines(s, c);
    var m :| 0 <= m < |lines| && lines[m] != [] && lines[m][0] == target && forall k | 0 <= k < m :: lines[k] == [];
    assert target in lines[m];
  }

  /** An active thread is displaced only by a higher priority, or by an equal one once
      its timeslice is used up. */
  lemma DisplacedOnlyWhenDue(s: State, c: Cpu, now: nat)
    requires Inv(s) && c < |s.scheds| && s.scheds[c].active.Some?
    ensures NextTarget(s, c, now).Done?
    ensures var r := NextTarget(s, c, now).value.1;
            var prev := s.scheds[c].active.value;
            prev < |s.threads| && r < |s.threads| &&
            (r != prev ==>
               s.threads[prev].priority < s.threads[r].priority ||
               (s.threads[prev].priority == s.threads[r].priority && Expired(s.scheds[c], s.threads[prev], now)))
  {
    var sc := s.scheds[c];
    var prev := sc.active.value;
    assert Placed(s.threads, sc, c) && ThreadOk(s, prev);
    OnlyCharges(s, c, now);
    var first := FirstSet(sc.bitmap, 0);
    if first.Some? && Displaces(first.value, s.threads[prev], Expired(sc, s.threads[prev], now)) {
      ChargeKeepsInv(s, prev, Charge(sc, s.threads[prev], now).activeTimeslice);
      var s1 := SetThread(s, prev, Charge(sc, s.threads[prev], now));
      HeadLevel(s1, c, first.value);
      PromotePlaces(s1, c, first.value, Expired(sc, s.threads[prev], now), now);
    }
  }

  /** Selection `i` finds the active thread of CPU `c` expired. */
  ghost predicate ExpiredSelection(states: seq<State>, times: seq<nat>, c: Cpu, i: nat)
    requires i < |times| < |states|
  {
    c < |states[i].scheds| && ActiveExpired(states[i], c, times[i]) &&
    NextTarget(states[i], c, times[i]).Done? && states[i + 1] == NextTarget(states[i], c, times[i]).value.0
  }

  lemma TurnStep(q: seq<Tid>, k: nat)
    requires 0 < k <= |q|
    ensures Turned(q[k - 1..] + q[..k - 1]) == q[k..] + q[..k]
    ensures (q[k..] + q[..k])[0] == if k == |q| then q[0] else q[k]
    ensures (q[k - 1..] + q[..k - 1])[0] == q[k - 1]
  {
    assert q[k - 1..] == [q[k - 1]] + q[k..] && q[..k - 1] + [q[k - 1]] == q[..k];
  }

  /** A CPU whose active thread is always found expired and where nobody arrives or
      leaves: the threads of the best line become active in turn, each once, and
      after as many selections as there are threads the line is as it was. */
  lemma {:induction false} RoundRobin(states: seq<State>, times: seq<nat>, c: Cpu, l: nat, q: seq<Tid>, k: nat)
    requires |states| == |times| + 1 && k <= |times| && k <= |q| && l < NUM_PRIORITIES && q != []
    requires Inv(states[0]) && c < |states[0].scheds| && Lines(states[0], c)[l] == q
    requires states[0].scheds[c].active == Some(q[0])
    requires forall j | 0 <= j < l :: Lines(states[0], c)[j] == []
    requires forall i | 0 <= i < |times| :: ExpiredSelection(states, times, c, i)
    ensures Inv(states[k]) && c < |states[k].scheds|
    ensures states[k].scheds[c].active == Some(if k == |q| then q[0] else q[k])
    ensures Lines(states[k], c)[l] == q[k..] + q[..k]
    ensures forall j | 0 <= j < l :: Lines(states[k], c)[j] == []
  {
    if k > 0 {
      RoundRobin(states, times, c, l, q, k - 1);
      assert ExpiredSelection(states, times, c, k - 1);
      TurnStep(q, k);
      ExpiredTurn(states[k - 1], c, times[k - 1], l, q[k - 1..] + q[..k - 1]);
    }
  }

  /** One selection that finds the active thread, first in the best line, expired. */
  lemma ExpiredTurn(s: State, c: Cpu, now: nat, l: nat, q: seq<Tid>)
    requires Inv(s) && c < |s.scheds| && l < NUM_PRIORITIES && q != [] && ActiveExpired(s, c, now)
    requires Lines(s, c)[l] == q && s.scheds[c].active == Some(q[0])
    requires forall j | 0 <= j < l :: Lines(s, c)[j] == []
    ensures NextTarget(s, c, now).Done?
    ensures var r := NextTarget(s, c, now).value.0;
            Inv(r) && c < |r.scheds| && Lines(r, c)[l] == Turned(q) && r.scheds[c].active == Some(Turned(q)[0]) &&
            forall j | 0 <= j < l :: Lines(r, c)[j] == []
  {
    NextTargetRefinesLines(s, c, now);
    LinesHoldAll(s, c);
    assert q[0] in Lines(s, c)[l];
    var r := NextTarget(s, c, now).value;
    var lines := Lines(r.0, c);
    assert lines[l] == Turned(q) && forall j | 0 <= j < l :: lines[j] == [];
    var m :| 0 <= m < |lines| && lines[m] != [] && lines[m][0] == r.1 && forall k | 0 <= k < m :: lines[k] == [];
    assert m == l;
  }
}
