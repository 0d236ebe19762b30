/**
  Time-outs are the only way out for a consumer and for a producer that waits.  A thread
  that times out asleep takes the mutex once more, releases it and is done; and every
  run can go on until all threads are done.
 */
module MonitorEnding {
  import opened Options
  import opened Ring
  import opened MonitorBuffer
  import opened MonitorInvariant
  import opened MonitorTheorems
  import opened MonitorProgress

  /** A time-out ends a thread of either role at the loop head, sends a sleeper to the mutex, and does nothing else. */
  lemma TimeOutEnds(y: System, schedule: seq<Turn>, t: int)
    requires ShapedSystem(y) && t in y.threads
    ensures var z, z' := Run(y, schedule), Run(y, schedule + [TimeOut(t)]);
            if z.threads[t].pc.Head? then z' == System(z.shared, z.threads[t := z.threads[t].(pc := Done)])
            else if z.threads[t].pc.Asleep? then z' == System(z.shared, z.threads[t := z.threads[t].(pc := LateRelock)])
            else z' == z
  {
    RunOnceMore(y, schedule, TimeOut(t));
    var z := Run(y, schedule);
    assert z.threads[t := z.threads[t]] == z.threads;
  }

  /** A spurious wake-up sends a sleeper back to its test, and does nothing else. */
  lemma WakeUpRelocks(y: System, schedule: seq<Turn>, t: int)
    requires ShapedSystem(y) && t in y.threads
    ensures var z, z' := Run(y, schedule), Run(y, schedule + [Wake(t)]);
            if z.threads[t].pc.Asleep? then z' == System(z.shared, z.threads[t := z.threads[t].(pc := Relock)])
            else z' == z
  {
    RunOnceMore(y, schedule, Wake(t));
    var z := Run(y, schedule);
    assert z.threads[t := z.threads[t]] == z.threads;
  }

  /** A broadcast wakes every sleeper of either role, and changes nobody else but its sender. */
  lemma BroadcastWakesEverybody(y: System, schedule: seq<Turn>, t: int)
    requires ShapedSystem(y) && t in y.threads && Run(y, schedule).threads[t].pc.Broadcast?
    ensures var z, z' := Run(y, schedule), Run(y, schedule + [Go(t)]);
            && z'.shared == z.shared && z'.threads[t] == z.threads[t].(pc := Unlock)
            && forall u <- z.threads :: u != t ==>
                 z'.threads[u] == if z.threads[u].pc.Asleep? then z.threads[u].(pc := Relock) else z.threads[u]
  {
    RunOnceMore(y, schedule, Go(t));
  }

  lemma LateThreadTakesMutex(y: System, t: int)
    requires ShapedSystem(y) && t in y.threads && y.threads[t].pc.LateRelock? && y.shared.mutex == NOBODY
    ensures Step(y, Go(t)) == System(y.shared.(mutex := t), y.threads[t := y.threads[t].(pc := LateUnlock)])
  {
  }

  lemma LateThreadLeaves(y: System, t: int)
    requires ShapedSystem(y) && t in y.threads && y.threads[t].pc.LateUnlock?
    ensures Step(y, Go(t)) == System(y.shared.(mutex := NOBODY), y.threads[t := y.threads[t].(pc := Done)])
  {
  }

  /** A sleeper of either role that times out while the mutex is free is done two turns later; nothing else changes. */
  lemma TimedOutSleeperEnds(y: System, schedule: seq<Turn>, t: int)
    requires ShapedSystem(y) && t in y.threads
    requires Run(y, schedule).threads[t].pc.Asleep? && Run(y, schedule).shared.mutex == NOBODY
    ensures var z := Run(y, schedule);
            Run(y, schedule + [TimeOut(t)] + [Go(t)] + [Go(t)])
              == System(z.shared, z.threads[t := z.threads[t].(pc := Done)])
  {
    var z := Run(y, schedule);
    TimeOutEnds(y, schedule, t);
    RunOnceMore(y, schedule + [TimeOut(t)], Go(t));
    RunOnceMore(y, schedule + [TimeOut(t)] + [Go(t)], Go(t));
    LateThreadTakesMutex(Run(y, schedule + [TimeOut(t)]), t);
    LateThreadLeaves(Run(y, schedule + [TimeOut(t)] + [Go(t)]), t);
    assert z.shared.(mutex := t).(mutex := NOBODY) == z.shared;
  }

  /** A thread that is on its way out only goes on to its end: it transfers nothing any more. */
  lemma {:induction false} LeavingForGood(y: System, schedule: seq<Turn>, rest: seq<Turn>, t: int)
    requires ShapedSystem(y) && t in y.threads && Leaving(Run(y, schedule).threads[t].pc)
    ensures var me, me' := Run(y, schedule).threads[t], Run(y, schedule + rest).threads[t];
            Leaving(me'.pc) && me' == me.(pc := me'.pc) && (me.pc.Done? ==> me'.pc.Done?)
  {
    if rest == [] {
      assert schedule + rest == schedule;
    } else {
      var before := rest[..|rest| - 1];
      LeavingForGood(y, schedule, before, t);
      AppendAssociates(schedule, before, [rest[|rest| - 1]]);
      assert rest == before + [rest[|rest| - 1]];
      RunOnceMore(y, schedule + before, rest[|rest| - 1]);
      StepKeepsLeaving(Run(y, schedule + before), rest[|rest| - 1], t);
    }
  }

  lemma StepKeepsLeaving(y: System, turn: Turn, t: int)
    requires ShapedSystem(y) && t in y.threads && Leaving(y.threads[t].pc)
    ensures var me, me' := y.threads[t], Step(y, turn).threads[t];
            Leaving(me'.pc) && me' == me.(pc := me'.pc) && (me.pc.Done? ==> me'.pc.Done?)
  {
  }

  // ----- One thread after the other

  /** Steps of a thread that is alone to its end. */
  function EndRank(pc: Pc): nat {
    match pc
    case Lock | Relock => 16
    case Test => 15
    case ReadCursor => 14
    case LockSlot => 13
    case Probe => 12
    case SetCursor => 11
    case Transfer => 10
    case UnlockSlot => 9
    case Adjust => 8
    case Broadcast => 7
    case Unlock => 6
    case Head => 5
    case Wait => 4
    case Asleep => 3
    case LateRelock => 2
    case LateUnlock => 1
    case _ => 0
  }

  /** The mutex is free or held by `t`. */
  predicate MutexFor(s: Shared, t: int) {
    s.mutex == NOBODY || s.mutex == t
  }

  lemma EndComesCloser(s: Shared, f: Fifo, h: Thread, t: int, me: Thread)
    requires SharedOk(s, f, h) && ThreadOk(s, h, t, me) && MutexFor(s, t)
    requires !(me.pc.Head? || me.pc.Asleep? || me.pc.Done?)
    ensures var (s', me') := Move(s, t, me);
            MutexFor(s', t) && EndRank(me'.pc) < EndRank(me.pc)
  {
    if me.pc.Probe? {
      TargetSuits(s, f, me.role);
    }
  }

  /** Whoever was done still is. */
  predicate DoneStays(y: System, z: System) {
    && z.threads.Keys == y.threads.Keys
    && forall t <- y.threads :: y.threads[t].pc.Done? ==> z.threads[t].pc.Done?
  }

  lemma StepKeepsDone(y: System, turn: Turn)
    requires ShapedSystem(y)
    ensures DoneStays(y, Step(y, turn))
  {
  }

  lemma TowardsTheEnd(y: System, schedule: seq<Turn>, t: int) returns (turn: Turn)
    requires Initial(y) && t in y.threads && MutexFor(Run(y, schedule).shared, t)
    requires !Run(y, schedule).threads[t].pc.Done?
    ensures var z, z' := Run(y, schedule), Run(y, schedule + [turn]);
            DoneStays(z, z') && MutexFor(z'.shared, t) && EndRank(z'.threads[t].pc) < EndRank(z.threads[t].pc)
  {
    var z := Run(y, schedule);
    if z.threads[t].pc.Head? || z.threads[t].pc.Asleep? {
      turn := TimeOut(t);
      TimeOutEnds(y, schedule, t);
    } else {
      turn := Go(t);
      ReachableInv(y, schedule);
      assert ThreadOk(z.shared, HolderOf(z), t, z.threads[t]);
      EndComesCloser(z.shared, FifoAfter(y, schedule), HolderOf(z), t, z.threads[t]);
    }
    RunOnceMore(y, schedule, turn);
    StepKeepsDone(z, turn);
  }

  lemma {:induction false} EndThread(y: System, schedule: seq<Turn>, t: int) returns (rest: seq<Turn>)
    requires Initial(y) && t in y.threads && MutexFor(Run(y, schedule).shared, t)
    ensures var z, z' := Run(y, schedule), Run(y, schedule + rest);
            DoneStays(z, z') && z'.threads[t].pc.Done?
    decreases EndRank(Run(y, schedule).threads[t].pc)
  {
    if Run(y, schedule).threads[t].pc.Done? {
      rest := [];
      assert schedule + rest == schedule;
    } else {
      var turn := TowardsTheEnd(y, schedule, t);
      var more := EndThread(y, schedule + [turn], t);
      rest := [turn] + more;
      AppendAssociates(schedule, [turn], more);
    }
  }

  // ----- All threads

  function Unended(y: System): set<int> {
    set t | t in y.threads && !y.threads[t].pc.Done?
  }

  predicate AllDone(y: System) {
    forall t <- y.threads :: y.threads[t].pc.Done?
  }

  lemma FewerUnended(y: System, z: System, t: int)
    requires DoneStays(y, z) && t in y.threads && z.threads[t].pc.Done? && !y.threads[t].pc.Done?
    ensures Unended(z) < Unended(y)
  {
    forall u <- Unended(z)
      ensures u in Unended(y)
    {
      assert !y.threads[u].pc.Done?;
    }
    assert t in Unended(y) && t !in Unended(z);
  }

  /** The holder of the mutex ends first, or anybody while it is free. */
  lemma OneThreadLess(y: System, schedule: seq<Turn>) returns (rest: seq<Turn>)
    requires Initial(y) && !AllDone(Run(y, schedule))
    ensures Unended(Run(y, schedule + rest)) < Unended(Run(y, schedule))
  {
    ReachableInv(y, schedule);
    var z := Run(y, schedule);
    var t :| t in z.threads && !z.threads[t].pc.Done?;
    if z.shared.mutex != NOBODY {
      t := z.shared.mutex;
      assert ThreadOk(z.shared, HolderOf(z), t, z.threads[t]);
    }
    rest := EndThread(y, schedule, t);
    FewerUnended(z, Run(y, schedule + rest), t);
  }

  lemma {:induction false} EndAll(y: System, schedule: seq<Turn>) returns (rest: seq<Turn>)
    requires Initial(y)
    ensures AllDone(Run(y, schedule + rest))
    decreases Unended(Run(y, schedule))
  {
    if AllDone(Run(y, schedule)) {
      rest := [];
      assert schedule + rest == schedule;
    } else {
      var first := OneThreadLess(y, schedule);
      var more := EndAll(y, schedule + first);
      rest := first + more;
      AppendAssociates(schedule, first, more);
    }
  }

  /**
    However a run has begun, it can go on until every producer and every consumer is done;
    then all locks are free and filled_slots is the number of lines left.
   */
  lemma EveryThreadCanEnd(y: System, schedule: seq<Turn>) returns (rest: seq<Turn>)
    requires Initial(y)
    ensures var z := Run(y, schedule + rest);
            && AllDone(z) && z.shared.mutex == NOBODY
            && (forall i :: 0 <= i < Size(z.shared) ==> z.shared.slotLocks[i] == NOBODY)
            && z.shared.filled == |FifoAfter(y, schedule + rest).items|
  {
    rest := EndAll(y, schedule);
    ReachableInv(y, schedule + rest);
    var z := Run(y, schedule + rest);
    forall t <- z.threads
      ensures z.shared.mutex != t
    {
      assert ThreadOk(z.shared, HolderOf(z), t, z.threads[t]);
    }
    CursorsDescribeQueue(y, schedule + rest);
  }
}
