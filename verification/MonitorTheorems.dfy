/**
  What every run of the monitor buffer keeps, for any number of producers and
  consumers, any capacity, and any placement of time-outs and spurious wake-ups.
 */
module MonitorTheorems {
  import opened Options
  import opened Ring
  import opened MonitorBuffer
  import opened MonitorInvariant

  /** The abstract queue after `schedule`. */
  function FifoAfter(y: System, schedule: seq<Turn>): (f: Fifo)
    requires ShapedSystem(y)
    ensures f.start < Size(Run(y, schedule).shared)
    ensures Size(Run(y, schedule).shared) == Size(y.shared)
  {
    if schedule == [] then Fifo(0, []) else
    var before, turn := schedule[..|schedule| - 1], schedule[|schedule| - 1];
    FifoAfterStep(Run(y, before), FifoAfter(y, before), turn)
  }

  lemma {:induction false} ReachableInv(y: System, schedule: seq<Turn>)
    requires Initial(y)
    ensures Inv(Run(y, schedule), FifoAfter(y, schedule))
  {
    if schedule == [] {
      InitialInv(y);
    } else {
      var before := schedule[..|schedule| - 1];
      ReachableInv(y, before);
      StepKeepsInv(Run(y, before), FifoAfter(y, before), schedule[|schedule| - 1]);
    }
  }

  // ----- Refinement of a bounded FIFO queue

  function Transferring(y: System, turn: Turn, role: Role): bool {
    turn.Go? && turn.tid in y.threads && y.threads[turn.tid].pc.Transfer? && y.threads[turn.tid].role == role
  }

  /** The line that a turn writes, and the slot that a turn empties, if any. */
  function WrittenBy(y: System, turn: Turn): seq<Line> {
    if Transferring(y, turn, Producer) then [y.threads[turn.tid].line] else []
  }

  function TakenBy(y: System, turn: Turn): seq<Option<Line>>
    requires ShapedSystem(y)
  {
    if Transferring(y, turn, Consumer) then [y.shared.buffer[y.threads[turn.tid].pos]] else []
  }

  /** The lines written to the buffer, in the order of the writes. */
  function Written(y: System, schedule: seq<Turn>): seq<Line>
    requires ShapedSystem(y)
  {
    if schedule == [] then [] else
    var before := schedule[..|schedule| - 1];
    Written(y, before) + WrittenBy(Run(y, before), schedule[|schedule| - 1])
  }

  /** What the consumers found in the slots that they emptied, in the order in which they did. */
  function Taken(y: System, schedule: seq<Turn>): seq<Option<Line>>
    requires ShapedSystem(y)
  {
    if schedule == [] then [] else
    var before := schedule[..|schedule| - 1];
    Taken(y, before) + TakenBy(Run(y, before), schedule[|schedule| - 1])
  }

  /** A write appends the line; a consumer empties the slot that holds the oldest line. */
  lemma StepRefinesQueue(y: System, f: Fifo, turn: Turn)
    requires Inv(y, f) && ShapedSystem(y)
    ensures var items' := FifoAfterStep(y, f, turn).items;
            if Transferring(y, turn, Producer) then items' == f.items + WrittenBy(y, turn)
            else if Transferring(y, turn, Consumer) then
              f.items != [] && items' == f.items[1..] && TakenBy(y, turn) == [Some(f.items[0])]
            else items' == f.items
  {
    if Transferring(y, turn, Consumer) {
      assert ThreadOk(y.shared, HolderOf(y), turn.tid, y.threads[turn.tid]);
      assert Place(f.start, 0, Size(y.shared)) == f.start;
    }
  }

  /**
    Lines leave the buffer in exactly the order in which they were written: what was
    written is what was taken followed by what the ring still holds, from next_read on.
   */
  lemma {:induction false} LinesLeaveInOrder(y: System, schedule: seq<Turn>)
    requires Initial(y)
    ensures Filled(Written(y, schedule)) == Taken(y, schedule) + Filled(FifoAfter(y, schedule).items)
    ensures RingOk(Run(y, schedule).shared.buffer, FifoAfter(y, schedule))
  {
    ReachableInv(y, schedule);
    if schedule != [] {
      var before, turn := schedule[..|schedule| - 1], schedule[|schedule| - 1];
      LinesLeaveInOrder(y, before);
      ReachableInv(y, before);
      var z, items := Run(y, before), FifoAfter(y, before).items;
      StepRefinesQueue(z, FifoAfter(y, before), turn);
      assert Written(y, before) + [] == Written(y, before) && Taken(y, before) + [] == Taken(y, before);
      if Transferring(z, turn, Producer) {
        Enqueued(Written(y, before), Taken(y, before), items, z.threads[turn.tid].line);
      } else if Transferring(z, turn, Consumer) {
        Dequeued(Written(y, before), Taken(y, before), items);
      }
    }
  }

  /** When no thread is inside, the shared variables describe the queue. */
  lemma CursorsDescribeQueue(y: System, schedule: seq<Turn>)
    requires Initial(y)
    requires Run(y, schedule).shared.mutex == NOBODY
    ensures var s, f := Run(y, schedule).shared, FifoAfter(y, schedule);
            && s.filled == |f.items| <= Size(s)
            && s.nextRead == f.start
            && s.nextWrite == (f.start + |f.items|) % Size(s)
            && (forall i :: 0 <= i < Size(s) ==> s.slotLocks[i] == NOBODY)
  {
    ReachableInv(y, schedule);
    var z, f := Run(y, schedule), FifoAfter(y, schedule);
    assert HolderOf(z) == IDLE;
    PlaceIsModulo(f.start, |f.items|, Size(z.shared));
  }

  /** Each probing loop ends at its first slot. */
  lemma FirstProbeSucceeds(y: System, schedule: seq<Turn>, t: int)
    requires Initial(y)
    requires t in Run(y, schedule).threads
    ensures !Run(y, schedule).threads[t].pc.SkipSlot?
  {
    ReachableInv(y, schedule);
    var z := Run(y, schedule);
    assert ThreadOk(z.shared, HolderOf(z), t, z.threads[t]);
  }

  // ----- Producers

  /** The producer has read a line and is on its way to write it. */
  predicate Carrying(pc: Pc) {
    pc.Lock? || pc.Test? || pc.Wait? || pc.Asleep? || pc.Relock? || pc.ReadCursor? || pc.LockSlot? || pc.Probe?
    || pc.SkipSlot? || pc.SetCursor? || pc.Transfer?
  }

  /** A time-out has ended the thread's wait, or its loop. */
  predicate Leaving(pc: Pc) {
    pc.LateRelock? || pc.LateUnlock? || pc.Done?
  }

  /** The turn is a time-out of thread `t` while it waits for room. */
  predicate Drops(y: System, turn: Turn, t: int) {
    turn == TimeOut(t) && t in y.threads && y.threads[t].pc.Asleep?
  }

  /** Thread `t` timed out during `schedule` while it waited for room. */
  predicate Dropped(y: System, schedule: seq<Turn>, t: int)
    requires ShapedSystem(y)
  {
    schedule != [] &&
    var before := schedule[..|schedule| - 1];
    Dropped(y, before, t) || Drops(Run(y, before), schedule[|schedule| - 1], t)
  }

  function Hand(me: Thread, dropped: bool): seq<Line> {
    if dropped || Carrying(me.pc) then [me.line] else []
  }

  /** Where the input of a producer went, given whether it dropped a line and whether it timed out. */
  predicate ProducerAccount(me: Thread, input: seq<Line>, written: seq<Line>, dropped: bool, timedOut: bool) {
    && (dropped ==> Leaving(me.pc) && timedOut)
    && (Leaving(me.pc) ==> dropped || timedOut || me.input == [])
    && Accounted(input, written, Hand(me, dropped), me.input)
  }

  /** The lines that thread `t` has written, in order. */
  function WrittenOf(y: System, schedule: seq<Turn>, t: int): seq<Line>
    requires ShapedSystem(y)
  {
    if schedule == [] then [] else
    var before := schedule[..|schedule| - 1];
    WrittenOf(y, before, t) + WrittenByThread(Run(y, before), schedule[|schedule| - 1], t)
  }

  function WrittenByThread(y: System, turn: Turn, t: int): seq<Line> {
    if turn.tid == t then WrittenBy(y, turn) else []
  }

  lemma MoveAccounts(s: Shared, t: int, me: Thread, input: seq<Line>, written: seq<Line>, dropped: bool, timedOut: bool)
    requires Shaped(s) && me.pos < Size(s) && me.role.Producer?
    requires ProducerAccount(me, input, written, dropped, timedOut)
    ensures ProducerAccount(Move(s, t, me).1, input, written + (if me.pc.Transfer? then [me.line] else []),
                            dropped, timedOut)
  {
    assert written + [] == written;
    if me.pc.Head? && me.input != [] {
      ReadOne(input, written, me.input);
    } else if me.pc.Transfer? {
      WroteOne(input, written, me.line, me.input);
    }
  }

  lemma StepAccounts(y: System, turn: Turn, t: int, input: seq<Line>, written: seq<Line>, dropped: bool, timedOut: bool)
    requires ShapedSystem(y) && t in y.threads && y.threads[t].role.Producer?
    requires ProducerAccount(y.threads[t], input, written, dropped, timedOut)
    ensures var me := Step(y, turn).threads[t];
            && me.role.Producer?
            && ProducerAccount(me, input, written + WrittenByThread(y, turn, t),
                               dropped || Drops(y, turn, t), timedOut || turn == TimeOut(t))
  {
    assert written + [] == written;
    if turn == Go(t) {
      MoveAccounts(y.shared, t, y.threads[t], input, written, dropped, timedOut);
    }
  }

  /**
    Every producer's lines go into the buffer in the order of its input.  The one line it
    may lose is the one in its hand when it times out waiting for room.
   */
  lemma {:induction false} ProducersWriteTheirInput(y: System, schedule: seq<Turn>, t: int)
    requires Initial(y) && t in y.threads && y.threads[t].role.Producer?
    ensures Run(y, schedule).threads[t].role.Producer?
    ensures ProducerAccount(Run(y, schedule).threads[t], y.threads[t].input, WrittenOf(y, schedule, t),
                            Dropped(y, schedule, t), TimeOut(t) in schedule)
  {
    if schedule != [] {
      var before := schedule[..|schedule| - 1];
      ProducersWriteTheirInput(y, before, t);
      StepAccounts(Run(y, before), schedule[|schedule| - 1], t, y.threads[t].input, WrittenOf(y, before, t),
                   Dropped(y, before, t), TimeOut(t) in before);
      assert schedule == before + [schedule[|schedule| - 1]];
    }
  }

  /** A producer that is done has written its whole input unless it dropped a line or left lines unread. */
  lemma DoneProducerWroteAllExactlyWhen(y: System, schedule: seq<Turn>, t: int)
    requires Initial(y) && t in y.threads && y.threads[t].role.Producer?
    requires Run(y, schedule).threads[t].pc.Done?
    ensures (WrittenOf(y, schedule, t) == y.threads[t].input)
              <==> (!Dropped(y, schedule, t) && Run(y, schedule).threads[t].input == [])
    ensures TimeOut(t) !in schedule ==> WrittenOf(y, schedule, t) == y.threads[t].input
  {
    ProducersWriteTheirInput(y, schedule, t);
    var me, dropped := Run(y, schedule).threads[t], Dropped(y, schedule, t);
    WroteAllExactlyWhen(y.threads[t].input, WrittenOf(y, schedule, t), Hand(me, dropped), me.input);
  }

  /** A time-out of any producer that waits for room loses the line it has read. */
  lemma TimeOutDropsTheLine(y: System, schedule: seq<Turn>, t: int)
    requires Initial(y) && t in y.threads && y.threads[t].role.Producer?
    requires Run(y, schedule).threads[t].pc.Asleep?
    ensures var late := schedule + [TimeOut(t)];
            var me := Run(y, late).threads[t];
            && Dropped(y, late, t) && Leaving(me.pc)
            && y.threads[t].input == WrittenOf(y, late, t) + [me.line] + me.input
  {
    var late := schedule + [TimeOut(t)];
    assert late[..|late| - 1] == schedule;
    ProducersWriteTheirInput(y, late, t);
  }

  // ----- Sleeping and waking

  predicate Sleeps(y: System, t: int, role: Role) {
    t in y.threads && y.threads[t].role == role && y.threads[t].pc.Asleep?
  }

  /** The holder of the mutex is about to broadcast. */
  predicate BroadcastPending(y: System) {
    y.shared.mutex in y.threads && y.threads[y.shared.mutex].pc.Broadcast?
  }

  /**
    A producer sleeps on a full buffer and a consumer on an empty one, in all states but
    those in which the next operation under the mutex is the broadcast that wakes it.
   */
  lemma NoWakeUpIsLost(y: System, schedule: seq<Turn>, t: int, role: Role)
    requires Initial(y)
    requires Sleeps(Run(y, schedule), t, role)
    ensures MustWait(Run(y, schedule).shared, role) <==> !BroadcastPending(Run(y, schedule))
  {
    ReachableInv(y, schedule);
    var z := Run(y, schedule);
    assert ThreadOk(z.shared, HolderOf(z), t, z.threads[t]);
  }

  lemma NeverBothAsleep(y: System, schedule: seq<Turn>, t: int, u: int)
    requires Initial(y)
    ensures !(Sleeps(Run(y, schedule), t, Producer) && Sleeps(Run(y, schedule), u, Consumer))
  {
    ReachableInv(y, schedule);
    var z := Run(y, schedule);
    if t in z.threads && u in z.threads {
      assert ThreadOk(z.shared, HolderOf(z), t, z.threads[t]);
      assert ThreadOk(z.shared, HolderOf(z), u, z.threads[u]);
    }
  }

  predicate Resting(y: System, t: int)
    requires t in y.threads
  {
    y.threads[t].pc.Asleep? || y.threads[t].pc.Done?
  }

  lemma MoverMoves(s: Shared, f: Fifo, h: Thread, t: int, me: Thread)
    requires SharedOk(s, f, h) && ThreadOk(s, h, t, me)
    requires !(me.pc.Asleep? || me.pc.Done?) && (s.mutex == t || s.mutex == NOBODY)
    ensures Move(s, t, me).1 != me
  {
  }

  lemma RestingStays(y: System, t: int)
    requires ShapedSystem(y) && t in y.threads && Resting(y, t)
    ensures !CanGo(y, t)
  {
    assert Step(y, Go(t)).threads == y.threads;
  }

  lemma SomeoneMoves(y: System, f: Fifo, t: int)
    requires Inv(y, f) && ShapedSystem(y) && t in y.threads && !Resting(y, t)
    ensures exists u <- y.threads :: CanGo(y, u)
  {
    var mover := if y.shared.mutex == NOBODY then t else y.shared.mutex;
    assert ThreadOk(y.shared, HolderOf(y), mover, y.threads[mover]);
    MoverMoves(y.shared, f, HolderOf(y), mover, y.threads[mover]);
    assert Step(y, Go(mover)).threads[mover] != y.threads[mover];
    assert CanGo(y, mover);
  }

  /** Nobody can move exactly when every thread sleeps or is done. */
  lemma StuckMeansResting(y: System, schedule: seq<Turn>)
    requires Initial(y)
    ensures (forall t <- y.threads :: !CanGo(Run(y, schedule), t))
              <==> (forall t <- y.threads :: Resting(Run(y, schedule), t))
  {
    ReachableInv(y, schedule);
    var z := Run(y, schedule);
    forall t <- y.threads | Resting(z, t) ensures !CanGo(z, t) {
      RestingStays(z, t);
    }
    forall t <- y.threads | !Resting(z, t) ensures exists u <- y.threads :: CanGo(z, u) {
      SomeoneMoves(z, FifoAfter(y, schedule), t);
    }
  }

  /** While a producer and a consumer are left, some thread can move. */
  lemma NoDeadlock(y: System, schedule: seq<Turn>, p: int, c: int)
    requires Initial(y)
    requires p in y.threads && c in y.threads
    requires var z := Run(y, schedule);
             && z.threads[p].role.Producer? && !z.threads[p].pc.Done?
             && z.threads[c].role.Consumer? && !z.threads[c].pc.Done?
    ensures exists t <- y.threads :: CanGo(Run(y, schedule), t)
  {
    StuckMeansResting(y, schedule);
    NeverBothAsleep(y, schedule, p, c);
    assert !(Resting(Run(y, schedule), p) && Resting(Run(y, schedule), c));
  }
}
