/** What can happen around a handler of one CPU: its own steps, the steps given for
    the other CPUs, and whoever holds a timer's lock finishing with it. */
module TimerPaths {
  import opened Outcomes
  import opened TimerProtocol

  ghost predicate Listed(step: Step, others: seq<seq<Step>>) {
    exists k | 0 <= k < |others| :: step in others[k]
  }

  /** A step of an operation that has begun and holds the lock of its timer. */
  predicate Finishes(step: Step) {
    step.DequeueFinish? || step.UpdateLeave? || step.UpdateFinish?
  }

  ghost predicate Allowed(step: Step, c: Cpu, others: seq<seq<Step>>) {
    step.cpu == c || Listed(step, others) || Finishes(step)
  }

  ghost predicate AllAllowed(steps: seq<Step>, c: Cpu, others: seq<seq<Step>>) {
    forall i | 0 <= i < |steps| :: Allowed(steps[i], c, others)
  }

  /** `t` is reached from `s` by such steps only. */
  ghost predicate Via(s: State, t: State, c: Cpu, others: seq<seq<Step>>) {
    exists states: seq<State>, steps: seq<Step> ::
      IsPath(states, steps) && states[0] == s && states[|steps|] == t && AllAllowed(steps, c, others)
  }

  lemma ViaSelf(s: State, c: Cpu, others: seq<seq<Step>>)
    ensures Via(s, s, c, others)
  {
    assert IsPath([s], []);
  }

  lemma ViaBy(s: State, step: Step, t: State, c: Cpu, others: seq<seq<Step>>)
    requires Enabled(s, step) && Apply(s, step) == Done(t) && Allowed(step, c, others)
    ensures Via(s, t, c, others)
  {
    var states, steps := [s, t], [step];
    assert Follows(states, steps, 0);
    assert IsPath(states, steps) && AllAllowed(steps, c, others);
  }

  lemma ViaJoin(s: State, t: State, u: State, c: Cpu, others: seq<seq<Step>>)
    requires Via(s, t, c, others) && Via(t, u, c, others)
    ensures Via(s, u, c, others)
  {
    var states: seq<State>, steps: seq<Step> :|
      IsPath(states, steps) && states[0] == s && states[|steps|] == t && AllAllowed(steps, c, others);
    var states': seq<State>, steps': seq<Step> :|
      IsPath(states', steps') && states'[0] == t && states'[|steps'|] == u && AllAllowed(steps', c, others);
    PathsJoin(states, steps, states', steps');
    assert AllAllowed(steps + steps', c, others);
  }

  /** CPU `p` takes timers, and no step given for it takes it offline. */
  ghost predicate StaysUp(s: State, p: Cpu, c: Cpu, others: seq<seq<Step>>) {
    p != c && Usable(s, p) && !Listed(OfflineBegin(p), others)
  }

  lemma StepLeavesUp(s: State, step: Step, p: Cpu)
    requires Enabled(s, step) && Apply(s, step).Done? && Usable(s, p) && step != OfflineBegin(p)
    ensures Usable(Apply(s, step).value, p)
  {
  }

  lemma {:induction false} PathLeavesUp(states: seq<State>, steps: seq<Step>, k: nat, p: Cpu, c: Cpu,
                                        others: seq<seq<Step>>)
    requires IsPath(states, steps) && AllAllowed(steps, c, others) && k <= |steps| && StaysUp(states[0], p, c, others)
    ensures StaysUp(states[k], p, c, others)
  {
    if k > 0 {
      PathLeavesUp(states, steps, k - 1, p, c, others);
      assert Follows(states, steps, k - 1);
      assert Allowed(steps[k - 1], c, others);
      StepLeavesUp(states[k - 1], steps[k - 1], p);
    }
  }

  /** A CPU that takes timers goes on doing so unless a step given for it takes it offline. */
  lemma ViaLeavesUp(s: State, t: State, p: Cpu, c: Cpu, others: seq<seq<Step>>)
    requires Via(s, t, c, others) && StaysUp(s, p, c, others)
    ensures StaysUp(t, p, c, others)
  {
    var states: seq<State>, steps: seq<Step> :|
      IsPath(states, steps) && states[0] == s && states[|steps|] == t && AllAllowed(steps, c, others);
    PathLeavesUp(states, steps, |steps|, p, c, others);
  }

  /** On the way from `s` to `t` it was the turn of CPU `p` to take the timer that CPU
      `c` hands over, and it did not take it. */
  ghost predicate WasRefused(s: State, t: State, p: Cpu, c: Cpu, others: seq<seq<Step>>) {
    exists m :: Via(s, m, c, others) && Via(m, t, c, others) && Refuses(m, p, c)
  }

  predicate Refuses(s: State, p: Cpu, c: Cpu) {
    Enabled(s, MigrateTry(c)) && s.cpus[c].phase.target == p && !Usable(s, p)
  }

  lemma RefusedOn(s: State, t: State, u: State, p: Cpu, c: Cpu, others: seq<seq<Step>>)
    requires WasRefused(s, t, p, c, others) && Via(t, u, c, others)
    ensures WasRefused(s, u, p, c, others)
  {
    var m :| Via(s, m, c, others) && Via(m, t, c, others) && Refuses(m, p, c);
    ViaJoin(m, t, u, c, others);
  }

  /** A CPU that stays up refuses nothing. */
  lemma UpIsNotRefused(s: State, t: State, p: Cpu, c: Cpu, others: seq<seq<Step>>)
    requires StaysUp(s, p, c, others)
    ensures !WasRefused(s, t, p, c, others)
  {
    forall m | Via(s, m, c, others) ensures !Refuses(m, p, c) {
      ViaLeavesUp(s, m, p, c, others);
    }
  }
}
