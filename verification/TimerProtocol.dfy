/** The per-CPU timer queues of `timer_queue.c` as a transition system.

    A step is one critical section. A timer's lock stays held across the steps of
    `timer_dequeue` and `timer_update`; expiry takes only the queue's lock, and the
    hand-over of a queue going offline takes a timer out of the list first and
    locks it later, so all of these interleave; CPUs go offline and come back while
    the hand-over looks for one that takes the timer. Panics of the code, and
    unlinking a timer through a queue it is not listed in, are the outcome `Panic`. */
module TimerProtocol {
  import opened Outcomes
  import opened Lists

  type Cpu = nat
  type TimerId = nat

  /** `TIMER_INVALID_TIMEOUT`, also the cached timeout of an empty queue. */
  const INVALID_TIMEOUT := 0xFFFF_FFFF_FFFF_FFFF

  datatype Timer = Timer(timeout: nat, queue: Option<Cpu>)

  /** `deadline` is what the hardware timer of the CPU is programmed to, and
      `syncPending` its `IPI_REASON_TIMER_QUEUE_SYNC` bit. */
  datatype Queue = Queue(list: seq<TimerId>, timeout: nat, online: bool, deadline: nat, syncPending: bool)

  /** A timer operation in progress on a CPU; all but `NoOp` hold the timer's lock. */
  datatype Op =
    | NoOp
    | Dequeuing(timer: TimerId, queue: Cpu)
    | Updating(timer: TimerId, timeout: nat, seen: Option<Cpu>)
    | Rearming(timer: TimerId, timeout: nat)

  /** A CPU that hands its queue over has taken the timer in transit out of it and
      offers it to `target` next; the scan of the other CPUs began at `start`. */
  datatype Phase = Running | Migrating(start: Cpu, transit: Option<TimerId>, target: Cpu) | Offline

  /** `expiring` is the time sampled by `timer_dequeue_expired` while it is in progress. */
  datatype Local = Local(op: Op, expiring: Option<nat>, phase: Phase)

  /** `functional` is what the platform says of each CPU. */
  datatype State = State(timers: seq<Timer>, queues: seq<Queue>, cpus: seq<Local>, functional: seq<bool>)

  predicate Holds(op: Op, t: TimerId) {
    !op.NoOp? && op.timer == t
  }

  /** Nobody holds the lock of timer `t`. */
  predicate Unlocked(s: State, t: TimerId) {
    forall c | 0 <= c < |s.cpus| :: !Holds(s.cpus[c].op, t)
  }

  // -------------------------------------------------------------------- lists

  predicate Known(timers: seq<Timer>, list: seq<TimerId>) {
    forall i | 0 <= i < |list| :: list[i] < |timers|
  }

  /** `list_insert_in_order`: behind every timer that is not later. */
  function Insert(timers: seq<Timer>, list: seq<TimerId>, t: TimerId): (r: seq<TimerId>)
    requires t < |timers| && Known(timers, list)
  {
    if list == [] || timers[t].timeout < timers[list[0]].timeout then [t] + list
    else [list[0]] + Insert(timers, list[1..], t)
  }

  /** The timeout a queue caches: that of its first timer. */
  function HeadTimeout(timers: seq<Timer>, list: seq<TimerId>): (n: nat)
    requires Known(timers, list)
  {
    if list == [] then INVALID_TIMEOUT else timers[list[0]].timeout
  }

  predicate ListValid(s: State, q: Cpu) {
    q < |s.queues| && Known(s.timers, s.queues[q].list)
  }

  /** Listed in a queue other than `q`. */
  predicate ListedElsewhere(s: State, t: TimerId, q: Cpu) {
    exists p | 0 <= p < |s.queues| && p != q :: t in s.queues[p].list
  }

  // ------------------------------------------------- pieces under a queue's lock

  /** `timer_dequeue_internal`: the cached timeout follows the head of the list. */
  function DequeueInternal(s: State, q: Cpu, t: TimerId, clear: bool): (r: Result<State>) {
    if !ListValid(s, q) || t >= |s.timers| || ListedElsewhere(s, t, q) then Panic
    else
      var tq := s.queues[q];
      var list := Without(tq.list, t);
      assert Known(s.timers, list) by { WithoutKnown(s.timers, tq.list, t); }
      var newHead := tq.list != [] && tq.list[0] == t && list != [];
      var timeout := if newHead || list == [] then HeadTimeout(s.timers, list) else tq.timeout;
      Done(s.(queues := s.queues[q := tq.(list := list, timeout := timeout)],
              timers := if clear then s.timers[t := s.timers[t].(queue := None)] else s.timers))
  }

  lemma {:induction false} WithoutKnown(timers: seq<Timer>, list: seq<TimerId>, t: TimerId)
    requires Known(timers, list)
    ensures Known(timers, Without(list, t))
  {
    if list != [] && list[0] != t { WithoutKnown(timers, list[1..], t); }
  }

  /** `timer_enqueue_internal`, on the CPU's own queue. */
  function EnqueueInternal(s: State, c: Cpu, t: TimerId, timeout: nat): (r: Result<State>) {
    if !ListValid(s, c) || t >= |s.timers| || !s.queues[c].online || s.timers[t].queue.Some? then Panic
    else
      var timers := s.timers[t := Timer(timeout, Some(c))];
      var tq := s.queues[c];
      var list := Insert(timers, tq.list, t);
      var newHead := list[0] == t;
      Done(s.(timers := timers,
              queues := s.queues[c := if newHead then tq.(list := list, timeout := timeout, deadline := timeout)
                                      else tq.(list := list)]))
  }

  /** `timer_update_internal`, on the CPU's own queue. */
  function UpdateInternal(s: State, c: Cpu, t: TimerId, timeout: nat): (r: Result<State>) {
    if !ListValid(s, c) || t >= |s.timers| || !s.queues[c].online || s.timers[t].queue != Some(c) ||
    ListedElsewhere(s, t, c)
    then Panic
    else if s.timers[t].timeout == timeout then Done(s)
    else
      var tq := s.queues[c];
      var rest := Without(tq.list, t);
      assert Known(s.timers, rest) by { WithoutKnown(s.timers, tq.list, t); }
      var headDeleted := tq.list != [] && tq.list[0] == t && rest != [];
      var timers := s.timers[t := s.timers[t].(timeout := timeout)];
      var list := Insert(timers, rest, t);
      assert Known(timers, list) by { InsertKnown(timers, rest, t); }
      var head := HeadTimeout(timers, list);
      Done(s.(timers := timers,
              queues := s.queues[c := if headDeleted || list[0] == t
                                      then tq.(list := list, timeout := head, deadline := head)
                                      else tq.(list := list)]))
  }

  lemma {:induction false} InsertKnown(timers: seq<Timer>, list: seq<TimerId>, t: TimerId)
    requires t < |timers| && Known(timers, list)
    ensures Known(timers, Insert(timers, list, t))
  {
    if list != [] && timers[t].timeout >= timers[list[0]].timeout {
      InsertKnown(timers, list[1..], t);
    }
  }

  /** `timer_try_move_to_cpu` from CPU `c` to an online queue. */
  function MoveTo(s: State, c: Cpu, t: TimerId, target: Cpu): (r: Result<State>) {
    if !ListValid(s, target) || t >= |s.timers| then Panic
    else if s.timers[t].queue != Some(c) then Done(s)
    else
      var timers := s.timers[t := s.timers[t].(queue := Some(target))];
      var tq := s.queues[target];
      var list := Insert(timers, tq.list, t);
      Done(s.(timers := timers,
              queues := s.queues[target := if list[0] == t
                                           then tq.(list := list, timeout := s.timers[t].timeout, syncPending := true)
                                           else tq.(list := list)]))
  }

  // -------------------------------------------------------------------- steps

  /** `sync` tells an expiry that answers a synchronisation request from one that
      the hardware timer started. */
  datatype Step =
    | Enqueue(cpu: Cpu, timer: TimerId, timeout: nat)
    | DequeueLoad(cpu: Cpu, timer: TimerId)
    | DequeueFinish(cpu: Cpu)
    | UpdateLoad(cpu: Cpu, timer: TimerId, timeout: nat)
    | UpdateLeave(cpu: Cpu)
    | UpdateFinish(cpu: Cpu)
    | ExpireBegin(cpu: Cpu, now: nat, sync: bool)
    | ExpirePop(cpu: Cpu)
    | ExpireEnd(cpu: Cpu)
    | OfflineBegin(cpu: Cpu)
    | MigratePick(cpu: Cpu)
    | MigrateTry(cpu: Cpu)
    | OfflineEnd(cpu: Cpu)
    | OnlineAgain(cpu: Cpu)

  predicate Idle(s: State, c: Cpu) {
    c < |s.cpus| && c < |s.queues| && s.cpus[c].phase.Running? && s.cpus[c].op.NoOp?
  }

  /** A CPU that is going or has gone offline starts no operation of its own; a
      timer must not be queued already when it is enqueued. */
  predicate Enabled(s: State, step: Step) {
    var c := step.cpu;
    c < |s.cpus| && c < |s.queues| &&
    match step
    case Enqueue(_, t, timeout) =>
      Idle(s, c) && t < |s.timers| && Unlocked(s, t) && s.timers[t].queue.None? && timeout <= INVALID_TIMEOUT
    case DequeueLoad(_, t) => Idle(s, c) && t < |s.timers| && Unlocked(s, t)
    case DequeueFinish(_) => s.cpus[c].op.Dequeuing?
    case UpdateLoad(_, t, timeout) => Idle(s, c) && t < |s.timers| && Unlocked(s, t) && timeout <= INVALID_TIMEOUT
    case UpdateLeave(_) => s.cpus[c].op.Updating? && s.cpus[c].op.seen != Some(c)
    case UpdateFinish(_) => s.cpus[c].op.Rearming? || (s.cpus[c].op.Updating? && s.cpus[c].op.seen == Some(c))
    case ExpireBegin(_, now, _) => Idle(s, c) && s.cpus[c].expiring.None? && now < INVALID_TIMEOUT
    case ExpirePop(_) => Idle(s, c) && s.cpus[c].expiring.Some? && s.queues[c].timeout <= s.cpus[c].expiring.value
    case ExpireEnd(_) => Idle(s, c) && s.cpus[c].expiring.Some? && s.queues[c].timeout > s.cpus[c].expiring.value
    case OfflineBegin(_) => Idle(s, c) && s.cpus[c].expiring.None?
    case MigratePick(_) =>
      s.cpus[c].phase.Migrating? && s.cpus[c].phase.transit.None? && s.queues[c].timeout != INVALID_TIMEOUT
    case MigrateTry(_) =>
      s.cpus[c].phase.Migrating? && s.cpus[c].phase.transit.Some? &&
      (Functional(s, s.cpus[c].phase.target) ==> Unlocked(s, s.cpus[c].phase.transit.value))
    case OfflineEnd(_) =>
      s.cpus[c].phase.Migrating? && s.cpus[c].phase.transit.None? && s.queues[c].timeout == INVALID_TIMEOUT
    case OnlineAgain(_) => s.cpus[c].phase.Offline?
  }

  predicate Functional(s: State, p: Cpu) {
    p < |s.functional| && s.functional[p]
  }

  /** The CPU takes timers over: it is usable and its queue is online. */
  predicate Usable(s: State, p: Cpu) {
    p < |s.queues| && Functional(s, p) && s.queues[p].online
  }

  /** The scan goes on to the next CPU, but skips the own one. */
  function NextTarget(target: Cpu, c: Cpu, n: nat): (next: Cpu)
    requires n > 0
  {
    if (target + 1) % n == c then (c + 1) % n else (target + 1) % n
  }

  function SetCpu(s: State, c: Cpu, x: Local): (r: State)
    requires c < |s.cpus|
  {
    s.(cpus := s.cpus[c := x])
  }

  function SetQueue(s: State, c: Cpu, q: Queue): (r: State)
    requires c < |s.queues|
  {
    s.(queues := s.queues[c := q])
  }

  /** The state of a piece, with CPU `c` moved on. */
  function Then(r: Result<State>, c: Cpu, x: Local): (r': Result<State>) {
    if r.Panic? || |r.value.cpus| <= c then Panic else Done(SetCpu(r.value, c, x))
  }

  /** `timer_dequeue`: the hardware follows when the queue is the CPU's own and its timeout may have changed. */
  function FinishDequeue(s: State, c: Cpu, q: Cpu, t: TimerId): (r: Result<State>)
    requires c < |s.queues|
  {
    var d := DequeueInternal(s, q, t, true);
    if d.Panic? || q != c || |d.value.queues| <= c then d
    else
      var tq := s.queues[c];
      var newTimeout := (tq.list != [] && tq.list[0] == t) || d.value.queues[c].list == [];
      if newTimeout then Done(SetQueue(d.value, c, d.value.queues[c].(deadline := d.value.queues[c].timeout))) else d
  }

  function Apply(s: State, step: Step): (r: Result<State>)
    requires Enabled(s, step)
  {
    var c := step.cpu;
    var x := s.cpus[c];
    var tq := s.queues[c];
    match step
    case Enqueue(_, t, timeout) => EnqueueInternal(s, c, t, timeout)
    case DequeueLoad(_, t) =>
      if s.timers[t].queue.None? then Done(s)
      else Done(SetCpu(s, c, x.(op := Dequeuing(t, s.timers[t].queue.value))))
    case DequeueFinish(_) => Then(FinishDequeue(s, c, x.op.queue, x.op.timer), c, x.(op := NoOp))
    case UpdateLoad(_, t, timeout) => Done(SetCpu(s, c, x.(op := Updating(t, timeout, s.timers[t].queue))))
    case UpdateLeave(_) =>
      Then(if x.op.seen.None? then Done(s) else DequeueInternal(s, x.op.seen.value, x.op.timer, true),
           c, x.(op := Rearming(x.op.timer, x.op.timeout)))
    case UpdateFinish(_) =>
      Then(if x.op.Rearming? then EnqueueInternal(s, c, x.op.timer, x.op.timeout)
           else UpdateInternal(s, c, x.op.timer, x.op.timeout),
           c, x.(op := NoOp))
    case ExpireBegin(_, now, sync) =>
      Done(SetQueue(SetCpu(s, c, x.(expiring := Some(now))), c, tq.(syncPending := tq.syncPending && !sync)))
    case ExpirePop(_) => if tq.list == [] then Panic else DequeueInternal(s, c, tq.list[0], true)
    case ExpireEnd(_) => Done(SetQueue(SetCpu(s, c, x.(expiring := None)), c, tq.(deadline := tq.timeout)))
    case OfflineBegin(_) =>
      var start := (c + 1) % |s.queues|;
      Done(SetQueue(SetCpu(s, c, x.(phase := Migrating(start, None, start))),
                    c, tq.(online := false, deadline := INVALID_TIMEOUT)))
    case MigratePick(_) =>
      if tq.list == [] then Panic
      else Then(DequeueInternal(s, c, tq.list[0], false), c,
                x.(phase := Migrating(x.phase.start, Some(tq.list[0]), x.phase.start)))
    case MigrateTry(_) =>
      var target := x.phase.target;
      var next := NextTarget(target, c, |s.queues|);
      if Usable(s, target)
      then Then(MoveTo(s, c, x.phase.transit.value, target), c, x.(phase := Migrating(target, None, target)))
      else if next == x.phase.start then Panic
      else Done(SetCpu(s, c, x.(phase := x.phase.(target := next))))
    case OfflineEnd(_) => Done(SetCpu(s, c, x.(phase := Offline)))
    case OnlineAgain(_) => Done(SetQueue(SetCpu(s, c, x.(phase := Running)), c, tq.(online := true)))
  }

  /** Cold boot: queues empty, only the boot CPU online, no timer queued. */
  predicate Init(s: State) {
    |s.queues| == |s.cpus| == |s.functional| &&
    (forall t | 0 <= t < |s.timers| :: s.timers[t] == Timer(INVALID_TIMEOUT, None)) &&
    (forall c | 0 <= c < |s.queues| ::
       s.queues[c] == Queue([], INVALID_TIMEOUT, s.queues[c].online, INVALID_TIMEOUT, false) &&
       s.cpus[c] == Local(NoOp, None, if s.queues[c].online then Running else Offline))
  }

  ghost predicate Follows(states: seq<State>, steps: seq<Step>, i: nat)
    requires i < |steps| < |states|
  {
    Enabled(states[i], steps[i]) && Apply(states[i], steps[i]) == Done(states[i + 1])
  }

  ghost predicate IsPath(states: seq<State>, steps: seq<Step>) {
    |states| == |steps| + 1 && forall i | 0 <= i < |steps| :: Follows(states, steps, i)
  }

  ghost predicate IsRun(states: seq<State>, steps: seq<Step>) {
    IsPath(states, steps) && Init(states[0])
  }

  lemma PathsJoin(states: seq<State>, steps: seq<Step>, states': seq<State>, steps': seq<Step>)
    requires IsPath(states, steps) && IsPath(states', steps') && states[|steps|] == states'[0]
    ensures IsPath(states[..|steps|] + states', steps + steps')
  {
    var all, both := states[..|steps|] + states', steps + steps';
    forall i | 0 <= i < |both| ensures Follows(all, both, i) {
      if i < |steps| {
        assert Follows(states, steps, i);
      } else {
        assert Follows(states', steps', i - |steps|);
        assert all[i] == states'[i - |steps|] && all[i + 1] == states'[i + 1 - |steps|];
      }
    }
  }
}
