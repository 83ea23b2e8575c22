/** The functions of `ipi.c` as imperative code over the per-CPU pending words. */
module IpiHandlers {
  import opened Outcomes
  import opened IpiProtocol

  class Ipi {
    const max: nat
    var cpus: seq<CpuState>

    function View(): (s: State)
      reads this
    {
      State(max, cpus)
    }

    /** Set the target's bit; the result says whether a hardware interrupt is needed. */
    method PostAndCheck(reason: Reason, c: Cpu) returns (needed: bool)
      requires Inv(View()) && c < |cpus| && reason <= max
      modifies this
      ensures Apply(old(View()), Post(c, reason, true)) == Done(View()) && Inv(View())
      ensures var word := old(cpus)[c].word;
              cpus == old(cpus)[c := old(cpus)[c].(word := Word(word.reasons + {reason}, word.waiting))] &&
              needed == !word.waiting
      ensures !needed ==> WillWake(cpus[c])
    {
      StepKeepsInv(View(), Post(c, reason, true));
      assert CpuOk(max, cpus[c]);
      var seen := cpus[c].word;
      cpus := cpus[c := cpus[c].(word := seen.(reasons := seen.reasons + {reason}))];
      needed := !seen.waiting;
    }

    /** `ipi_one`: the target is interrupted, or wakes by itself. */
    method One(reason: Reason, c: Cpu)
      requires Inv(View()) && c < |cpus| && reason <= max
      modifies this
      ensures Apply(old(View()), Post(c, reason, false)) == Done(View()) && Inv(View())
      ensures var x, word := old(cpus)[c], old(cpus)[c].word;
              cpus == old(cpus)[c := x.(word := Word(word.reasons + {reason}, word.waiting),
                                        hardware := x.hardware || !word.waiting)]
      ensures reason in cpus[c].word.reasons && (cpus[c].hardware || WillWake(cpus[c]))
    {
      var needed := PostAndCheck(reason, c);
      if needed {
        cpus := cpus[c := cpus[c].(hardware := true)];
      }
      assert cpus == old(cpus)[c := ApplyCpu(max, old(cpus)[c], Post(c, reason, false)).value];
    }

    /** `ipi_others_relaxed`: every other CPU, and nothing else. */
    method OthersRelaxed(reason: Reason, self: Cpu)
      requires Inv(View()) && reason <= max
      modifies this
      ensures Inv(View()) && |cpus| == |old(cpus)|
      ensures forall c | 0 <= c < |cpus| ::
                var x := old(cpus)[c];
                cpus[c] == if c == self then x else x.(word := Word(x.word.reasons + {reason}, x.word.waiting))
    {
      var i := 0;
      while i < |cpus|
        invariant Inv(View()) && 0 <= i <= |cpus| == |old(cpus)|
        invariant forall c | 0 <= c < |cpus| ::
                    cpus[c] == if c == self || c >= i then old(cpus)[c] else Posted(old(cpus)[c], reason)
      {
        if i != self {
          var _ := PostAndCheck(reason, i);
        }
        i := i + 1;
      }
    }

    method ClearRelaxed(reason: Reason, c: Cpu) returns (was: bool)
      requires Inv(View()) && c < |cpus| && reason <= max
      modifies this
      ensures Inv(View()) && was == (reason in old(cpus)[c].word.reasons)
      ensures var word := old(cpus)[c].word;
              cpus == old(cpus)[c := old(cpus)[c].(word := word.(reasons := word.reasons - {reason}))]
    {
      assert CpuOk(max, cpus[c]);
      was := reason in cpus[c].word.reasons;
      cpus := cpus[c := cpus[c].(word := cpus[c].word.(reasons := cpus[c].word.reasons - {reason}))];
    }

    /** `ipi_handle_pending`: every collected reason is handled once, highest first;
        bits above the last reason are dropped. */
    method HandlePending(bits: set<Reason>) returns (handled: seq<Reason>)
      ensures handled == Descending(bits, max + 1)
      ensures forall i: nat :: i in handled <==> i in bits && i <= max
    {
      handled := [];
      ghost var n := max + 1;
      var pending: set<Reason> := set i | i in bits && i <= max;
      assert Descending(pending, n) == Descending(bits, n) by { DescendingSame(pending, bits, n); }
      while pending != {}
        invariant 0 <= n <= max + 1 && forall i | i in pending :: i < n && i <= max
        invariant handled + Descending(pending, n) == Descending(bits, max + 1)
        decreases |pending|
      {
        HighestIsMax(pending, max + 1);
        var bit := Highest(pending, max + 1).value;
        TakeHighest(pending, n, bit);
        pending := pending - {bit};
        handled := handled + [bit];
        n := bit;
      }
      NothingDescends(n);
      DescendingIsExact(bits, max + 1);
    }

    /** `ipi_handle_relaxed` while nobody posts: the word is drained, highest first. */
    method HandleRelaxed(c: Cpu)
      requires Inv(View()) && c < |cpus| && AtRest(cpus[c].pc)
      modifies this
      ensures Inv(View()) && |cpus| == |old(cpus)|
      ensures cpus == old(cpus)[c := old(cpus)[c].(word := Word({}, false),
                                handled := old(cpus)[c].handled + Descending(old(cpus)[c].word.reasons, max + 1))]
    {
      ghost var n := max + 1;
      assert CpuOk(max, cpus[c]);
      while cpus[c].word.reasons != {} || cpus[c].word.waiting
        invariant Inv(View()) && |cpus| == |old(cpus)| && cpus == old(cpus)[c := cpus[c]]
        invariant cpus[c] == old(cpus)[c].(word := cpus[c].word, handled := cpus[c].handled) && !cpus[c].word.waiting
        invariant 0 <= n <= max + 1 && forall i | i in cpus[c].word.reasons :: i < n && i <= max
        invariant cpus[c].handled + Descending(cpus[c].word.reasons, n) ==
                  old(cpus)[c].handled + Descending(old(cpus)[c].word.reasons, max + 1)
        decreases |cpus[c].word.reasons|
      {
        HighestIsMax(cpus[c].word.reasons, max + 1);
        var bit := Highest(cpus[c].word.reasons, max + 1).value;
        assert bit <= max;
        TakeHighest(cpus[c].word.reasons, n, bit);
        var was := ClearRelaxed(bit, c);
        if was {
          cpus := cpus[c := cpus[c].(handled := cpus[c].handled + [bit])];
        }
        n := bit;
      }
      NothingDescends(n);
      assert cpus[c].word == Word({}, false) && cpus[c].handled + [] == cpus[c].handled;
    }

    /** `ipi_handle_platform_ipi`: take all bits and handle them, highest first. */
    method HandlePlatformIpi(c: Cpu)
      requires Inv(View()) && c < |cpus| && AtRest(cpus[c].pc)
      modifies this
      ensures Inv(View())
      ensures cpus == old(cpus)[c := old(cpus)[c].(word := Word({}, false), hardware := false,
                                handled := old(cpus)[c].handled + Descending(old(cpus)[c].word.reasons, max + 1))]
    {
      assert CpuOk(max, cpus[c]);
      var handled := HandlePending(cpus[c].word.reasons);
      cpus := cpus[c := cpus[c].(word := Word({}, false), hardware := false, handled := cpus[c].handled + handled)];
    }

    /** `ipi_handle_preempt_interrupt`: clear the idle flag and nothing else, so that the
        wait the interrupt came in is bound to end. */
    method HandlePreemptInterrupt(c: Cpu)
      requires Inv(View()) && Enabled(View(), PreemptInterrupt(c))
      modifies this
      ensures Inv(View()) && |cpus| == |old(cpus)| && WillWake(cpus[c])
      ensures var x := old(cpus)[c];
              cpus == old(cpus)[c := x.(word := Word(x.word.reasons, false), pc := Irq(true, None))]
    {
      assert CpuOk(max, cpus[c]);
      cpus := cpus[c := cpus[c].(word := cpus[c].word.(waiting := false), pc := Irq(true, None))];
    }

    /** Mark the CPU as waiting in idle. No reason is touched, and the wait is already
        bound to end if and only if one is pending. */
    method BeginWait(c: Cpu)
      requires Inv(View()) && Enabled(View(), WaitBegin(c))
      modifies this
      ensures |cpus| == |old(cpus)| && cpus == old(cpus)[c := cpus[c]]
      ensures cpus[c] == old(cpus)[c].(word := Word(old(cpus)[c].word.reasons, true), pc := Waiting)
      ensures WillWake(cpus[c]) <==> old(cpus)[c].word.reasons != {}
      ensures Apply(old(View()), WaitBegin(c)) == Done(View()) && Inv(View())
    {
      StepKeepsInv(View(), WaitBegin(c));
      cpus := cpus[c := cpus[c].(word := cpus[c].word.(waiting := true), pc := Waiting)];
    }

    /** The end of a round of `ipi_handle_idle_yield`: take all bits and handle them. */
    method FinishWait(c: Cpu) returns (preempted: bool)
      requires Inv(View()) && Enabled(View(), Collect(c))
      modifies this
      ensures Inv(View()) && preempted == !old(cpus)[c].word.waiting
      ensures cpus == old(cpus)[c := old(cpus)[c].(word := Word({}, false), pc := Active(None),
                                handled := old(cpus)[c].handled + Descending(old(cpus)[c].word.reasons, max + 1))]
    {
      assert CpuOk(max, cpus[c]);
      var word := cpus[c].word;
      preempted := !word.waiting;
      var handled := HandlePending(word.reasons);
      cpus := cpus[c := cpus[c].(word := Word({}, false), pc := Active(None), handled := cpus[c].handled + handled)];
    }
  }

  function Posted(x: CpuState, reason: Reason): (y: CpuState) {
    x.(word := x.word.(reasons := x.word.reasons + {reason}))
  }

  lemma {:induction false} DescendingSame(a: set<Reason>, b: set<Reason>, n: nat)
    requires forall i | 0 <= i < n :: i in a <==> i in b
    ensures Descending(a, n) == Descending(b, n)
  {
    if n > 0 { DescendingSame(a, b, n - 1); }
  }

  lemma {:induction false} NothingDescends(n: nat)
    ensures Descending({}, n) == []
  {
    if n > 0 { NothingDescends(n - 1); }
  }

  /** The highest reason comes first, and what is left lies below it. */
  lemma {:induction false} TakeHighest(bits: set<Reason>, n: nat, top: Reason)
    requires top in bits && top < n && forall i | i in bits :: i <= top
    ensures Descending(bits, n) == [top] + Descending(bits - {top}, top)
  {
    if top == n - 1 {
      DescendingSame(bits, bits - {top}, top);
    } else {
      TakeHighest(bits, n - 1, top);
    }
  }
}
