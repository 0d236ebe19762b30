/**
  From every state of the monitor buffer with a consumer left, some continuation empties
  the buffer: the holder of the mutex leaves it, and then the consumer takes one line
  after the other.
 */
module MonitorProgress {
  import opened Options
  import opened Ring
  import opened MonitorBuffer
  import opened MonitorInvariant
  import opened MonitorTheorems

  lemma RunOnceMore(y: System, schedule: seq<Turn>, turn: Turn)
    requires ShapedSystem(y)
    ensures Run(y, schedule + [turn]) == Step(Run(y, schedule), turn)
  {
    assert (schedule + [turn])[..|schedule|] == schedule;
  }

  lemma FifoOnceMore(y: System, schedule: seq<Turn>, turn: Turn)
    requires ShapedSystem(y)
    ensures FifoAfter(y, schedule + [turn]) == FifoAfterStep(Run(y, schedule), FifoAfter(y, schedule), turn)
  {
    assert (schedule + [turn])[..|schedule|] == schedule;
  }

  /** A consumer that no time-out is ending. */
  predicate Keen(me: Thread) {
    me.role.Consumer? && !Leaving(me.pc)
  }

  predicate Live(y: System, c: int) {
    c in y.threads && Keen(y.threads[c])
  }

  // ----- What decreases until the buffer is empty

  /** Steps of the holder of the mutex to its release. */
  function HolderRank(pc: Pc): nat {
    match pc
    case Test => 14
    case ReadCursor => 13
    case LockSlot => 12
    case Probe => 11
    case SetCursor => 10
    case Transfer => 9
    case UnlockSlot => 8
    case Adjust => 7
    case Broadcast => 6
    case Unlock => 5
    case Wait | LateUnlock => 1
    case _ => 0
  }

  /** How far the consumer is from its next line; the mutex is counted by the holder's rank. */
  function ConsumerRank(filled: int, pc: Pc): nat {
    match pc
    case Head => 400
    case Lock | Relock => 399
    case Test => if filled == 0 then 402 else 0
    case ReadCursor | LockSlot | Probe | SetCursor | Transfer => 0
    case _ => 401
  }

  /** A line that the holder may still add. */
  function Pending(h: Thread): nat {
    if h.role.Producer? && (h.pc.Test? || Entitled(h.pc)) then 1 else 0
  }

  function Potential(s: Shared, f: Fifo, h: Thread, consumer: Thread): nat {
    1000 * (|f.items| + Pending(h)) + 10 * HolderRank(h.pc) + ConsumerRank(s.filled, consumer.pc)
  }

  /** The other threads after a move of `me`. */
  function OtherAfter(me: Thread, other: Thread): Thread {
    if me.pc.Broadcast? then Woken(other) else other
  }

  lemma ConsumerComesCloser(s: Shared, f: Fifo, h: Thread, c: int, me: Thread)
    requires SharedOk(s, f, h) && ThreadOk(s, h, c, me) && Keen(me)
    requires s.mutex == c || (s.mutex == NOBODY && f.items != [])
    ensures var (s', me') := Move(s, c, me);
            && Keen(me')
            && Potential(s', NextFifo(f, me.pc.Transfer?, me.role, me.line, Size(s)), NextHolder(h, me, me'), me')
                 < Potential(s, f, h, me)
  {
    if me.pc.Probe? {
      TargetSuits(s, f, Consumer);
    }
  }

  lemma OtherComesCloser(s: Shared, f: Fifo, h: Thread, t: int, me: Thread, c: int, consumer: Thread)
    requires SharedOk(s, f, h) && ThreadOk(s, h, t, me) && ThreadOk(s, h, c, consumer) && Keen(consumer)
    requires s.mutex == t && t != c
    ensures var (s', me') := Move(s, t, me);
            var consumer' := OtherAfter(me, consumer);
            && Keen(consumer')
            && Potential(s', NextFifo(f, me.pc.Transfer?, me.role, me.line, Size(s)), NextHolder(h, me, me'), consumer')
                 < Potential(s, f, h, consumer)
  {
  }

  function PotentialAfter(y: System, schedule: seq<Turn>, c: int): nat
    requires ShapedSystem(y) && c in y.threads
  {
    var z := Run(y, schedule);
    Potential(z.shared, FifoAfter(y, schedule), HolderOf(z), z.threads[c])
  }

  /** The holder of the mutex goes on, or the consumer while nobody holds it. */
  lemma SomebodyComesCloser(y: System, schedule: seq<Turn>, c: int) returns (turn: Turn)
    requires Initial(y) && Live(Run(y, schedule), c)
    requires Run(y, schedule).shared.mutex != NOBODY || FifoAfter(y, schedule).items != []
    ensures Live(Run(y, schedule + [turn]), c)
    ensures PotentialAfter(y, schedule + [turn], c) < PotentialAfter(y, schedule, c)
  {
    ReachableInv(y, schedule);
    var z, f := Run(y, schedule), FifoAfter(y, schedule);
    var t := if z.shared.mutex == NOBODY then c else z.shared.mutex;
    turn := Go(t);
    RunOnceMore(y, schedule, turn);
    FifoOnceMore(y, schedule, turn);
    HolderAfterGo(z, f, t);
    assert ThreadOk(z.shared, HolderOf(z), t, z.threads[t]) && ThreadOk(z.shared, HolderOf(z), c, z.threads[c]);
    if t == c {
      ConsumerComesCloser(z.shared, f, HolderOf(z), c, z.threads[c]);
    } else {
      OtherComesCloser(z.shared, f, HolderOf(z), t, z.threads[t], c, z.threads[c]);
    }
  }

  lemma {:induction false} TakeAll(y: System, schedule: seq<Turn>, c: int) returns (rest: seq<Turn>)
    requires Initial(y) && Live(Run(y, schedule), c)
    ensures FifoAfter(y, schedule + rest).items == []
    decreases PotentialAfter(y, schedule, c)
  {
    if Run(y, schedule).shared.mutex == NOBODY && FifoAfter(y, schedule).items == [] {
      rest := [];
      assert schedule + rest == schedule;
    } else {
      var turn := SomebodyComesCloser(y, schedule, c);
      var more := TakeAll(y, schedule + [turn], c);
      rest := [turn] + more;
      AppendAssociates(schedule, [turn], more);
    }
  }

  /** However a run has begun, while a consumer is left it can go on until every line written has been taken. */
  lemma EveryLineCanStillBeTaken(y: System, schedule: seq<Turn>, c: int) returns (rest: seq<Turn>)
    requires Initial(y) && Live(Run(y, schedule), c)
    ensures forall slot <- Run(y, schedule + rest).shared.buffer :: slot.None?
    ensures Taken(y, schedule + rest) == Filled(Written(y, schedule + rest))
  {
    rest := TakeAll(y, schedule, c);
    LinesLeaveInOrder(y, schedule + rest);
    EmptyRing(Run(y, schedule + rest).shared.buffer, FifoAfter(y, schedule + rest));
    assert Filled([]) == [] && Taken(y, schedule + rest) + [] == Taken(y, schedule + rest);
  }

  // ----- Runs that lose a line

  /** Steps of a producer to its next write, or to sleep. */
  function WriteRank(pc: Pc): nat {
    match pc
    case UnlockSlot => 13
    case Adjust => 12
    case Broadcast => 11
    case Unlock => 10
    case Head => 9
    case Lock | Relock => 8
    case Test => 7
    case ReadCursor => 6
    case LockSlot => 5
    case Probe => 4
    case SetCursor => 3
    case Transfer => 2
    case Wait => 1
    case _ => 0
  }

  /** The producer has the buffer to itself, and more lines than there is room. */
  predicate Flooding(s: Shared, f: Fifo, t: int, me: Thread) {
    && me.role.Producer? && !Leaving(me.pc) && (s.mutex == NOBODY || s.mutex == t)
    && |me.input| + |Hand(me, false)| > Size(s) - |f.items|
  }

  lemma FloodGoesOn(s: Shared, f: Fifo, h: Thread, t: int, me: Thread)
    requires SharedOk(s, f, h) && ThreadOk(s, h, t, me) && Flooding(s, f, t, me) && !me.pc.Asleep?
    ensures var (s', me') := Move(s, t, me);
            var f' := NextFifo(f, me.pc.Transfer?, me.role, me.line, Size(s));
            && Flooding(s', f', t, me')
            && (|f'.items| > |f.items| || (f' == f && WriteRank(me'.pc) < WriteRank(me.pc)))
  {
    if me.pc.Probe? {
      TargetSuits(s, f, Producer);
    }
  }

  predicate Floods(y: System, schedule: seq<Turn>, t: int)
    requires ShapedSystem(y) && t in y.threads
  {
    Flooding(Run(y, schedule).shared, FifoAfter(y, schedule), t, Run(y, schedule).threads[t])
  }

  lemma FloodStep(y: System, schedule: seq<Turn>, t: int)
    requires Initial(y) && t in y.threads && Floods(y, schedule, t) && !Run(y, schedule).threads[t].pc.Asleep?
    ensures Floods(y, schedule + [Go(t)], t)
    ensures var f, f' := FifoAfter(y, schedule), FifoAfter(y, schedule + [Go(t)]);
            && |f.items| <= |f'.items| <= Size(y.shared)
            && (|f'.items| == |f.items| ==>
                  WriteRank(Run(y, schedule + [Go(t)]).threads[t].pc) < WriteRank(Run(y, schedule).threads[t].pc))
  {
    ReachableInv(y, schedule);
    ReachableInv(y, schedule + [Go(t)]);
    RunOnceMore(y, schedule, Go(t));
    FifoOnceMore(y, schedule, Go(t));
    var z := Run(y, schedule);
    assert ThreadOk(z.shared, HolderOf(z), t, z.threads[t]);
    FloodGoesOn(z.shared, FifoAfter(y, schedule), HolderOf(z), t, z.threads[t]);
  }

  lemma {:induction false} FloodEndsAsleep(y: System, schedule: seq<Turn>, t: int) returns (rest: seq<Turn>)
    requires Initial(y) && t in y.threads && Floods(y, schedule, t) && |FifoAfter(y, schedule).items| <= Size(y.shared)
    ensures Floods(y, schedule + rest, t) && Run(y, schedule + rest).threads[t].pc.Asleep?
    decreases Size(y.shared) - |FifoAfter(y, schedule).items|, WriteRank(Run(y, schedule).threads[t].pc)
  {
    if Run(y, schedule).threads[t].pc.Asleep? {
      rest := [];
      assert schedule + rest == schedule;
    } else {
      FloodStep(y, schedule, t);
      var more := FloodEndsAsleep(y, schedule + [Go(t)], t);
      rest := [Go(t)] + more;
      AppendAssociates(schedule, [Go(t)], more);
    }
  }

  lemma AsleepMeansFull(y: System, schedule: seq<Turn>, t: int)
    requires Initial(y) && t in y.threads && Floods(y, schedule, t) && Run(y, schedule).threads[t].pc.Asleep?
    ensures forall slot <- Run(y, schedule).shared.buffer :: slot.Some?
  {
    ReachableInv(y, schedule);
    var z, f := Run(y, schedule), FifoAfter(y, schedule);
    assert ThreadOk(z.shared, HolderOf(z), t, z.threads[t]);
    FullRing(z.shared.buffer, f);
  }

  /**
    With any capacity, a producer with more lines than slots can fill the buffer, read one
    more line, and lose it to a time-out.
   */
  lemma FullBufferLosesALine(y: System, t: int) returns (schedule: seq<Turn>)
    requires Initial(y) && t in y.threads && y.threads[t].role.Producer? && |y.threads[t].input| > Size(y.shared)
    ensures (forall slot <- Run(y, schedule).shared.buffer :: slot.Some?) && Leaving(Run(y, schedule).threads[t].pc)
    ensures Dropped(y, schedule, t) && WrittenOf(y, schedule, t) < y.threads[t].input
  {
    assert FifoAfter(y, []) == Fifo(0, []) && Run(y, []) == y;
    var asleep := FloodEndsAsleep(y, [], t);
    assert [] + asleep == asleep;
    AsleepMeansFull(y, asleep, t);
    RunOnceMore(y, asleep, TimeOut(t));
    schedule := asleep + [TimeOut(t)];
    TimeOutDropsTheLine(y, asleep, t);
  }
}
