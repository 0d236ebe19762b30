/**
  With one producer and one consumer the semaphore buffer is a bounded FIFO queue: no
  probe fails, and the lines come out in the order in which they went in.
 */
module SemaphorePair {
  import opened Options
  import opened Ring
  import opened SemaphoreBuffer
  import opened SemaphoreInvariant
  import opened SemaphoreTheorems

  predicate Pair(y: System, p: int, c: int) {
    && y.threads.Keys == {p, c} && p != c
    && y.threads[p].role.Producer? && y.threads[c].role.Consumer?
  }

  /** The thread has chosen its slot and not transferred yet. */
  predicate Aiming(pc: Pc) {
    pc.LockSlot? || pc.Probe? || pc.SetCursor? || pc.Transfer?
  }

  function Tail(f: Fifo, size: nat): nat
    requires Fits(f, size)
  {
    Place(f.start, |f.items|, size)
  }

  /** The producer works on the slot behind the queue, and next_write names it until he passes it. */
  predicate ProducerOk(s: Shared, f: Fifo, p: Thread)
    requires Fits(f, Size(s))
  {
    && p.role.Producer? && !p.pc.SkipSlot? && p.pos < Size(s)
    && (Aiming(p.pc) ==> p.pos == Tail(f, Size(s)))
    && s.nextWrite == (if p.pc.Transfer? then Succ(Tail(f, Size(s)), Size(s)) else Tail(f, Size(s)))
  }

  /** The consumer works on the front of the queue, and next_read names it until he passes it. */
  predicate ConsumerOk(s: Shared, f: Fifo, c: Thread)
    requires Fits(f, Size(s))
  {
    && c.role.Consumer? && !c.pc.SkipSlot? && c.pos < Size(s)
    && (Aiming(c.pc) ==> c.pos == f.start)
    && s.nextRead == (if c.pc.Transfer? then Succ(f.start, Size(s)) else f.start)
  }

  predicate PermitsOk(s: Shared, f: Fifo, p: Thread, c: Thread) {
    && s.freeSlots + FreeShare(p) + FreeShare(c) == Size(s) - |f.items|
    && s.filledSlots + FilledShare(p) + FilledShare(c) == |f.items|
  }

  predicate PairInv(s: Shared, f: Fifo, p: Thread, c: Thread) {
    && Shaped(s) && RingOk(s.buffer, f)
    && ProducerOk(s, f, p) && ConsumerOk(s, f, c) && PermitsOk(s, f, p, c)
  }

  lemma MoveKeepsRing(s: Shared, f: Fifo, p: Thread, c: Thread, me: Thread)
    requires PairInv(s, f, p, c) && (me == p || me == c)
    ensures RingOk(Move(s, me).0.buffer, NextFifo(f, me.pc.Transfer?, me.role, me.line, Size(s)))
    ensures me.pc.Transfer? && me == c ==> f.items != [] && s.buffer[me.pos] == Some(f.items[0])
  {
    if me.pc.Transfer? {
      if me == p {
        RingEnqueue(s.buffer, f, me.line);
      } else {
        RingDequeue(s.buffer, f);
      }
    }
  }

  /** The slot that is aimed at suits: there is room behind the queue, or a line at its front. */
  lemma AimSuits(s: Shared, f: Fifo, p: Thread, c: Thread, me: Thread)
    requires PairInv(s, f, p, c) && (me == p || me == c) && Aiming(me.pc)
    ensures Suits(s.buffer[me.pos], me.role)
  {
    assert Place(f.start, 0, Size(s)) == f.start;
  }

  lemma ProducerMoves(s: Shared, f: Fifo, p: Thread, c: Thread)
    requires PairInv(s, f, p, c) && (Aiming(p.pc) ==> Suits(s.buffer[p.pos], p.role))
    ensures var (s', p') := Move(s, p);
            var f' := NextFifo(f, p.pc.Transfer?, p.role, p.line, Size(s));
            Fits(f', Size(s)) && ProducerOk(s', f', p') && ConsumerOk(s', f', c) && PermitsOk(s', f', p', c)
  {
  }

  lemma ConsumerMoves(s: Shared, f: Fifo, p: Thread, c: Thread)
    requires PairInv(s, f, p, c) && (Aiming(c.pc) ==> Suits(s.buffer[c.pos], c.role))
    requires c.pc.Transfer? ==> f.items != []
    ensures var (s', c') := Move(s, c);
            var f' := NextFifo(f, c.pc.Transfer?, c.role, c.line, Size(s));
            Fits(f', Size(s)) && ProducerOk(s', f', p) && ConsumerOk(s', f', c') && PermitsOk(s', f', p, c')
  {
    if c.pc.Transfer? {
      ConsumerTransfers(s, f, p, c);
    }
  }

  lemma ConsumerTransfers(s: Shared, f: Fifo, p: Thread, c: Thread)
    requires PairInv(s, f, p, c) && Suits(s.buffer[c.pos], c.role) && c.pc.Transfer? && f.items != []
    ensures var (s', c') := Move(s, c);
            var f' := Fifo(Succ(f.start, Size(s)), f.items[1..]);
            Fits(f', Size(s)) && ProducerOk(s', f', p) && ConsumerOk(s', f', c') && PermitsOk(s', f', p, c')
  {
  }

  predicate Inv(y: System, p: int, c: int, f: Fifo) {
    Pair(y, p, c) && PairInv(y.shared, f, y.threads[p], y.threads[c])
  }

  function FifoAfterStep(y: System, f: Fifo, turn: Turn): (r: Fifo)
    requires ShapedSystem(y) && f.start < Size(y.shared)
    ensures r.start < Size(y.shared)
  {
    if turn.Go? && turn.tid in y.threads then
      var me := y.threads[turn.tid];
      NextFifo(f, me.pc.Transfer?, me.role, me.line, Size(y.shared))
    else f
  }

  lemma StepKeepsInv(y: System, p: int, c: int, f: Fifo, turn: Turn)
    requires Inv(y, p, c, f) && ShapedSystem(y)
    ensures Inv(Step(y, turn), p, c, FifoAfterStep(y, f, turn))
  {
    if turn.Go? && turn.tid in y.threads {
      var me := y.threads[turn.tid];
      MoveKeepsRing(y.shared, f, y.threads[p], y.threads[c], me);
      if Aiming(me.pc) {
        AimSuits(y.shared, f, y.threads[p], y.threads[c], me);
      }
      if turn.tid == p {
        ProducerMoves(y.shared, f, y.threads[p], y.threads[c]);
      } else {
        ConsumerMoves(y.shared, f, y.threads[p], y.threads[c]);
      }
    }
  }

  /** The abstract queue after `schedule`. */
  function FifoAfter(y: System, schedule: seq<Turn>): (f: Fifo)
    requires ShapedSystem(y)
    ensures f.start < Size(y.shared)
  {
    if schedule == [] then Fifo(0, []) else
    var before := schedule[..|schedule| - 1];
    FifoAfterStep(Run(y, before), FifoAfter(y, before), schedule[|schedule| - 1])
  }

  lemma {:induction false} ReachableInv(y: System, p: int, c: int, schedule: seq<Turn>)
    requires Initial(y) && Pair(y, p, c)
    ensures Inv(Run(y, schedule), p, c, FifoAfter(y, schedule))
  {
    if schedule != [] {
      var before := schedule[..|schedule| - 1];
      ReachableInv(y, p, c, before);
      StepKeepsInv(Run(y, before), p, c, FifoAfter(y, before), schedule[|schedule| - 1]);
    }
  }

  lemma FirstProbeSucceeds(y: System, p: int, c: int, schedule: seq<Turn>, t: int)
    requires Initial(y) && Pair(y, p, c)
    requires t == p || t == c
    ensures !Run(y, schedule).threads[t].pc.SkipSlot?
  {
    ReachableInv(y, p, c, schedule);
  }

  lemma StepRefinesQueue(y: System, p: int, c: int, f: Fifo, turn: Turn)
    requires Inv(y, p, c, f) && ShapedSystem(y)
    ensures var items' := FifoAfterStep(y, f, turn).items;
            if Transferring(y, turn, Producer) then items' == f.items + WrittenBy(y, turn)
            else if Transferring(y, turn, Consumer) then
              f.items != [] && items' == f.items[1..] && TakenBy(y, turn) == [Some(f.items[0])]
            else items' == f.items
  {
    if Transferring(y, turn, Consumer) {
      MoveKeepsRing(y.shared, f, y.threads[p], y.threads[c], y.threads[turn.tid]);
    }
  }

  /** Lines leave the buffer in exactly the order in which they were written. */
  lemma {:induction false} LinesLeaveInOrder(y: System, p: int, c: int, schedule: seq<Turn>)
    requires Initial(y) && Pair(y, p, c)
    ensures Filled(Written(y, schedule)) == Taken(y, schedule) + Filled(FifoAfter(y, schedule).items)
    ensures RingOk(Run(y, schedule).shared.buffer, FifoAfter(y, schedule))
  {
    ReachableInv(y, p, c, schedule);
    if schedule != [] {
      var before, turn := schedule[..|schedule| - 1], schedule[|schedule| - 1];
      LinesLeaveInOrder(y, p, c, before);
      ReachableInv(y, p, c, before);
      var z, items := Run(y, before), FifoAfter(y, before).items;
      StepRefinesQueue(z, p, c, FifoAfter(y, before), turn);
      assert Written(y, before) + [] == Written(y, before) && Taken(y, before) + [] == Taken(y, before);
      if Transferring(z, turn, Producer) {
        Enqueued(Written(y, before), Taken(y, before), items, z.threads[turn.tid].line);
      } else if Transferring(z, turn, Consumer) {
        Dequeued(Written(y, before), Taken(y, before), items);
      }
    }
  }
}
