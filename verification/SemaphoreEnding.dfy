/**
  Time-outs are the only way out for a consumer and for a producer that waits.  A thread
  that times out is done at once; and every run can go on until all threads are done,
  with all permits back in the semaphores.
 */
module SemaphoreEnding {
  import opened Options
  import opened Ring
  import opened Sums
  import opened SemaphoreBuffer
  import opened SemaphoreInvariant
  import opened SemaphoreTheorems
  import opened SemaphoreProgress

  /** A time-out at the loop head or at the wait ends the thread, of either role, and does nothing else. */
  lemma TimeOutEnds(y: System, schedule: seq<Turn>, t: int)
    requires ShapedSystem(y) && t in y.threads
    ensures var z, z' := Run(y, schedule), Run(y, schedule + [TimeOut(t)]);
            if z.threads[t].pc.Head? || z.threads[t].pc.Acquire?
            then z' == System(z.shared, z.threads[t := z.threads[t].(pc := Done)])
            else z' == z
  {
    RunOnceMore(y, schedule, TimeOut(t));
    var z := Run(y, schedule);
    assert z.threads[t := z.threads[t]] == z.threads;
  }

  /** A thread that is done makes no step any more. */
  lemma {:induction false} DoneForGood(y: System, schedule: seq<Turn>, rest: seq<Turn>, t: int)
    requires ShapedSystem(y) && t in y.threads && Run(y, schedule).threads[t].pc.Done?
    ensures Run(y, schedule + rest).threads[t] == Run(y, schedule).threads[t]
  {
    if rest == [] {
      assert schedule + rest == schedule;
    } else {
      var before := rest[..|rest| - 1];
      DoneForGood(y, schedule, before, t);
      AppendAssociates(schedule, before, [rest[|rest| - 1]]);
      assert rest == before + [rest[|rest| - 1]];
      RunOnceMore(y, schedule + before, rest[|rest| - 1]);
      StepKeepsDone(Run(y, schedule + before), rest[|rest| - 1], t);
    }
  }

  lemma StepKeepsDone(y: System, turn: Turn, t: int)
    requires ShapedSystem(y) && t in y.threads && y.threads[t].pc.Done?
    ensures Step(y, turn).threads[t] == y.threads[t]
  {
  }

  // ----- One thread after the other

  /** Steps of a thread to its end, when it finds its slot in one go. */
  function EndRank(pc: Pc): nat {
    match pc
    case ReadCursor => 7
    case LockSlot => 6
    case SetCursor => 5
    case Transfer => 4
    case UnlockSlot => 3
    case Post => 2
    case Head | Acquire => 1
    case _ => 0
  }

  /** Nobody but `t` is inside a slot, and `t` does not look for one from the inside. */
  predicate OnlyInside(y: System, t: int) {
    && t in y.threads && !y.threads[t].pc.Probe? && !y.threads[t].pc.SkipSlot?
    && forall u <- y.threads :: u != t ==> !HoldsSlot(y.threads[u].pc)
  }

  /** Only thread `t` has changed. */
  predicate OnlyMoved(y: System, z: System, t: int) {
    && z.threads.Keys == y.threads.Keys && t in y.threads
    && forall u <- y.threads :: u != t ==> z.threads[u] == y.threads[u]
  }

  lemma FindsItsSlot(y: System, schedule: seq<Turn>, t: int) returns (rest: seq<Turn>)
    requires Initial(y) && OnlyInside(Run(y, schedule), t) && Run(y, schedule).threads[t].pc.LockSlot?
    ensures var z, z' := Run(y, schedule), Run(y, schedule + rest);
            OnlyMoved(z, z', t) && z'.threads[t].pc.SetCursor?
  {
    var z := Run(y, schedule);
    ReachableInv(y, schedule);
    NobodyInside(z, OwnersAfter(y, schedule));
    SuitableSlotExists(y, schedule, t);
    var far := DistanceToSuitable(z.shared, z.threads[t]);
    var probes := AloneItFinds(z.shared, z.threads[t], far);
    rest := Alone(t, ProbeSteps(probes));
    Solo(y, schedule, t, ProbeSteps(probes));
  }

  lemma EndComesCloser(s: Shared, me: Thread)
    requires Shaped(s) && me.pos < Size(s)
    requires me.pc.ReadCursor? || me.pc.SetCursor? || me.pc.Transfer? || me.pc.UnlockSlot? || me.pc.Post?
    ensures var pc := Move(s, me).1.pc; EndRank(pc) < EndRank(me.pc) && !pc.Probe? && !pc.SkipSlot?
  {
  }

  /** One stretch of the way of thread `t` to its end. */
  lemma TowardsTheEnd(y: System, schedule: seq<Turn>, t: int) returns (rest: seq<Turn>)
    requires Initial(y) && OnlyInside(Run(y, schedule), t) && !Run(y, schedule).threads[t].pc.Done?
    ensures var z, z' := Run(y, schedule), Run(y, schedule + rest);
            && OnlyMoved(z, z', t) && OnlyInside(z', t) && EndRank(z'.threads[t].pc) < EndRank(z.threads[t].pc)
  {
    var z := Run(y, schedule);
    if z.threads[t].pc.LockSlot? {
      rest := FindsItsSlot(y, schedule, t);
    } else if z.threads[t].pc.Head? || z.threads[t].pc.Acquire? {
      rest := [TimeOut(t)];
      TimeOutEnds(y, schedule, t);
    } else {
      rest := [Go(t)];
      EndComesCloser(z.shared, z.threads[t]);
      OneMore(y, schedule, t);
    }
  }

  lemma {:induction false} EndThread(y: System, schedule: seq<Turn>, t: int) returns (rest: seq<Turn>)
    requires Initial(y) && OnlyInside(Run(y, schedule), t)
    ensures var z, z' := Run(y, schedule), Run(y, schedule + rest);
            OnlyMoved(z, z', t) && z'.threads[t].pc.Done?
    decreases EndRank(Run(y, schedule).threads[t].pc)
  {
    if Run(y, schedule).threads[t].pc.Done? {
      rest := [];
      assert schedule + rest == schedule;
    } else {
      var first := TowardsTheEnd(y, schedule, t);
      var more := EndThread(y, schedule + first, t);
      rest := first + more;
      AppendAssociates(schedule, first, more);
    }
  }

  // ----- All threads

  function Unended(y: System): set<int> {
    set t | t in y.threads && !y.threads[t].pc.Done?
  }

  predicate AllDone(y: System) {
    forall t <- y.threads :: y.threads[t].pc.Done?
  }

  lemma OneThreadLess(y: System, schedule: seq<Turn>) returns (rest: seq<Turn>)
    requires Initial(y) && !AllDone(Run(y, schedule))
    ensures Unended(Run(y, schedule + rest)) < Unended(Run(y, schedule))
  {
    var t :| t in y.threads && !Run(y, schedule).threads[t].pc.Done?;
    var first := LeaveSlots(y, schedule);
    var more := EndThread(y, schedule + first, t);
    rest := first + more;
    AppendAssociates(schedule, first, more);
    FewerUnended(Run(y, schedule), Run(y, schedule + first), Run(y, schedule + rest), t);
  }

  lemma FewerUnended(y: System, calm: System, z: System, t: int)
    requires SameEnded(y, calm) && OnlyMoved(calm, z, t) && z.threads[t].pc.Done? && !y.threads[t].pc.Done?
    ensures Unended(z) < Unended(y)
  {
    forall u <- Unended(z)
      ensures u in Unended(y)
    {
      assert u != t && !calm.threads[u].pc.Done?;
    }
    assert t in Unended(y) && t !in Unended(z);
  }

  lemma {:induction false} EndAll(y: System, schedule: seq<Turn>) returns (rest: seq<Turn>)
    requires Initial(y)
    ensures AllDone(Run(y, schedule + rest))
    decreases Unended(Run(y, schedule))
  {
    if AllDone(Run(y, schedule)) {
      rest := [];
      assert schedule + rest == schedule;
    } else {
      var first := OneThreadLess(y, schedule);
      var more := EndAll(y, schedule + first);
      rest := first + more;
      AppendAssociates(schedule, first, more);
    }
  }

  /**
    However a run has begun, it can go on until every producer and every consumer is done;
    the semaphores then count the empty and the occupied slots.
   */
  lemma EveryThreadCanEnd(y: System, schedule: seq<Turn>) returns (rest: seq<Turn>)
    requires Initial(y)
    ensures var z := Run(y, schedule + rest);
            && AllDone(z)
            && z.shared.freeSlots == EmptySlots(z.shared.buffer)
            && z.shared.filledSlots == Size(y.shared) - EmptySlots(z.shared.buffer)
  {
    rest := EndAll(y, schedule);
    var z := Run(y, schedule + rest);
    SlotsAreAccountedFor(y, schedule + rest);
    TotalNonNegative(FreeShares(z.threads));
    TotalNonNegative(FilledShares(z.threads));
  }
}
