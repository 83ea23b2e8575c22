/** Updates keep to their class: the code has one list and one handler for each class,
    and an entry is handed to the handler of the class it was enqueued in. */
module RcuClasses {
  import opened RcuProtocol
  import opened RcuSafety

  ghost predicate InClass(q: seq<Update>, cls: nat) {
    forall i | 0 <= i < |q| :: q[i].cls == cls
  }

  ghost predicate Sorted(b: Batch) {
    forall k | 0 <= k < |b| :: InClass(b[k], k)
  }

  /** Each list of a CPU holds entries of its own class, also the one that is being run. */
  ghost predicate KeepsClasses(x: CpuState) {
    Sorted(x.next) && Sorted(x.waiting) && Sorted(x.ready) && (x.pc.Updating? ==> InClass(x.pc.rest, x.pc.cls))
  }

  /** Every entry that has run was served by its own class. */
  ghost predicate ServedRight(executed: seq<Update>, served: seq<nat>) {
    |served| == |executed| && forall i | 0 <= i < |executed| :: served[i] == executed[i].cls
  }

  ghost predicate Classes(s: State) {
    ServedRight(s.executed, s.served) && forall c | 0 <= c < |s.cpus| :: KeepsClasses(s.cpus[c])
  }

  /** What a step does on its own CPU. */
  lemma OwnClasses(s: State, step: Step)
    requires Classes(s) && Enabled(s, step)
    ensures var r := Apply(s, step);
            |r.cpus| == |s.cpus| && r.cpus == s.cpus[step.cpu := r.cpus[step.cpu]] && KeepsClasses(r.cpus[step.cpu])
  {
    assert KeepsClasses(s.cpus[step.cpu]);
    if step.Enqueue? || step.Notify? {
      QueueClasses(s, step);
    } else if step.UpdateBegin? || step.UpdateRun? || step.UpdateNextClass? {
      RunClasses(s, step);
    } else {
      OtherClasses(s, step);
    }
  }

  lemma QueueClasses(s: State, step: Step)
    requires Enabled(s, step) && KeepsClasses(s.cpus[step.cpu]) && (step.Enqueue? || step.Notify?)
    ensures var r := Apply(s, step);
            |r.cpus| == |s.cpus| && r.cpus == s.cpus[step.cpu := r.cpus[step.cpu]] && KeepsClasses(r.cpus[step.cpu])
  {
    if step.Enqueue? { assert InClass(s.cpus[step.cpu].next[step.cls], step.cls); }
  }

  lemma RunClasses(s: State, step: Step)
    requires Enabled(s, step) && KeepsClasses(s.cpus[step.cpu])
    requires step.UpdateBegin? || step.UpdateRun? || step.UpdateNextClass?
    ensures var r := Apply(s, step);
            |r.cpus| == |s.cpus| && r.cpus == s.cpus[step.cpu := r.cpus[step.cpu]] && KeepsClasses(r.cpus[step.cpu])
  {
    var x := s.cpus[step.cpu];
    if step.UpdateBegin? {
      assert InClass(x.ready[0], 0);
    } else if step.UpdateNextClass? {
      assert InClass(x.ready[x.pc.cls + 1], x.pc.cls + 1);
    }
  }

  lemma OtherClasses(s: State, step: Step)
    requires Enabled(s, step) && KeepsClasses(s.cpus[step.cpu]) && !step.Enqueue? && !step.Notify?
    requires !step.UpdateBegin? && !step.UpdateRun? && !step.UpdateNextClass?
    ensures var r := Apply(s, step);
            |r.cpus| == |s.cpus| && r.cpus == s.cpus[step.cpu := r.cpus[step.cpu]] && KeepsClasses(r.cpus[step.cpu])
  {
    var x, y := s.cpus[step.cpu], Apply(s, step).cpus[step.cpu];
    assert y.next == x.next && y.waiting == x.waiting && y.ready == x.ready;
    assert y.pc == x.pc || !y.pc.Updating?;
  }

  lemma ClassesStep(s: State, step: Step)
    requires Classes(s) && Enabled(s, step)
    ensures Classes(Apply(s, step))
  {
    OwnClasses(s, step);
    assert KeepsClasses(s.cpus[step.cpu]);
    ServedStep(s, step);
  }

  lemma ServedStep(s: State, step: Step)
    requires ServedRight(s.executed, s.served) && Enabled(s, step) && KeepsClasses(s.cpus[step.cpu])
    ensures ServedRight(Apply(s, step).executed, Apply(s, step).served)
  {
  }

  lemma {:induction false} PathClasses(states: seq<State>, steps: seq<Step>, i: nat)
    requires IsPath(states, steps) && i < |states| && Classes(states[0])
    ensures Classes(states[i])
  {
    if i > 0 {
      PathClasses(states, steps, i - 1);
      assert Follows(states, steps, i - 1);
      ClassesStep(states[i - 1], steps[i - 1]);
    }
  }

  lemma LeadsClasses(s: State, t: State)
    requires Leads(s, t) && Classes(s)
    ensures Classes(t)
  {
    var states, steps :| IsPath(states, steps) && states[0] == s && states[|steps|] == t;
    PathClasses(states, steps, |steps|);
  }

  /** An update enqueued in a class by step `i` is run by the handler of that class, if it
      has run by state `j`; and as long as it has not, it waits in a list of that class. */
  lemma RunsInItsClass(states: seq<State>, steps: seq<Step>, i: nat, j: nat, u: Update)
    requires IsRun(states, steps) && i < |steps| && j < |states|
    requires steps[i].Enqueue? && states[i + 1].enqueued == states[i].enqueued + [u]
    ensures |states[j].served| == |states[j].executed|
    ensures forall k | 0 <= k < |states[j].executed| && states[j].executed[k] == u ::
              states[j].served[k] == steps[i].cls
    ensures forall c, k | 0 <= c < |states[j].cpus| && 0 <= k < |states[j].cpus[c].next| &&
                          u in states[j].cpus[c].next[k] :: k == steps[i].cls
    ensures forall c, k | 0 <= c < |states[j].cpus| && 0 <= k < |states[j].cpus[c].waiting| &&
                          u in states[j].cpus[c].waiting[k] :: k == steps[i].cls
    ensures forall c, k | 0 <= c < |states[j].cpus| && 0 <= k < |states[j].cpus[c].ready| &&
                          u in states[j].cpus[c].ready[k] :: k == steps[i].cls
  {
    PathClasses(states, steps, j);
    EnqueuedClass(states, steps, i, u);
    assert forall c | 0 <= c < |states[j].cpus| :: KeepsClasses(states[j].cpus[c]);
  }

  lemma EnqueuedClass(states: seq<State>, steps: seq<Step>, i: nat, u: Update)
    requires IsRun(states, steps) && i < |steps|
    requires steps[i].Enqueue? && states[i + 1].enqueued == states[i].enqueued + [u]
    ensures u.cls == steps[i].cls
  {
    assert Follows(states, steps, i);
    assert states[i + 1].enqueued[|states[i].enqueued|] == u;
  }
}
