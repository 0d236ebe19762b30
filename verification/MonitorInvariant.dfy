/**
  The monitor buffer is a bounded FIFO queue.  The invariant relates the shared ring
  to an abstract queue, given as the ring position of its front and its lines, and
  to the one thread that holds the mutex.
 */
module MonitorInvariant {
  import opened Options
  import opened Ring
  import opened MonitorBuffer

  predicate InMutex(pc: Pc) {
    !(pc.Head? || pc.Lock? || pc.Asleep? || pc.Relock? || pc.LateRelock? || pc.Done?)
  }

  predicate HoldsSlot(pc: Pc) {
    pc.Probe? || pc.SkipSlot? || pc.SetCursor? || pc.Transfer? || pc.UnlockSlot?
  }

  /** Past the wait, and the transfer is still to come. */
  predicate Entitled(pc: Pc) {
    pc.ReadCursor? || pc.LockSlot? || pc.Probe? || pc.SetCursor? || pc.Transfer?
  }

  /** The transfer is made and not counted yet. */
  predicate Uncounted(pc: Pc) {
    pc.UnlockSlot? || pc.Adjust?
  }

  /** Stands for the holder of the mutex when it is free. */
  const IDLE := Thread(Consumer, Done, 0, [], "")

  /** The slot that the next transfer of this role has to use. */
  function Target(s: Shared, f: Fifo, role: Role): nat
    requires Fits(f, Size(s))
  {
    if role.Producer? then Place(f.start, |f.items|, Size(s)) else f.start
  }

  predicate CursorsOk(s: Shared, f: Fifo, h: Thread)
    requires Shaped(s) && Fits(f, Size(s))
  {
    && s.nextRead == (if h.pc.Transfer? && h.role.Consumer? then Succ(f.start, Size(s)) else f.start)
    && s.nextWrite == (if h.pc.Transfer? && h.role.Producer?
                       then Succ(Target(s, f, Producer), Size(s)) else Target(s, f, Producer))
  }

  /** The holder of the mutex is IDLE when there is none. */
  predicate MutexOk(s: Shared, h: Thread) {
    && (s.mutex == NOBODY <==> h == IDLE)
    && (s.mutex != NOBODY ==> InMutex(h.pc))
  }

  /** The holder of the mutex against the abstract queue. */
  predicate HolderOk(s: Shared, f: Fifo, h: Thread)
    requires Shaped(s) && Fits(f, Size(s))
  {
    && MutexOk(s, h)
    && !h.pc.SkipSlot?
    && (h.pc.Wait? ==> MustWait(s, h.role))
    && (Entitled(h.pc) ==> if h.role.Producer? then |f.items| < Size(s) else f.items != [])
    && (Entitled(h.pc) && !h.pc.ReadCursor? ==> h.pos == Target(s, f, h.role))
  }

  /** filled_slots against the abstract queue. */
  predicate CountOk(s: Shared, f: Fifo, h: Thread)
    requires Shaped(s)
  {
    && s.filled == |f.items| + (if Uncounted(h.pc) then (if h.role.Producer? then -1 else 1) else 0)
    && (h.pc.UnlockSlot? || h.pc.Adjust? ==> 0 <= s.filled <= Size(s))
    && (h.pc.Broadcast? ==> if h.role.Producer? then 0 < s.filled else s.filled < Size(s))
  }

  predicate SlotLocksOk(s: Shared, h: Thread) {
    forall i :: 0 <= i < |s.slotLocks| ==>
      s.slotLocks[i] == if HoldsSlot(h.pc) && i == h.pos then s.mutex else NOBODY
  }

  predicate SharedOk(s: Shared, f: Fifo, h: Thread) {
    && Shaped(s) && RingOk(s.buffer, f) && CursorsOk(s, f, h) && HolderOk(s, f, h) && CountOk(s, f, h)
    && SlotLocksOk(s, h)
  }

  /** A sleeper's reason to sleep still holds, unless the broadcast that ends it is next. */
  predicate SleepOk(s: Shared, h: Thread, role: Role) {
    if role.Producer? then
      || (s.filled == Size(s) && !(h.pc.Broadcast? && h.role.Producer?))
      || (s.filled == Size(s) - 1 && h.pc.Broadcast? && h.role.Consumer?)
    else
      || (s.filled == 0 && !(h.pc.Broadcast? && h.role.Consumer?))
      || (s.filled == 1 && h.pc.Broadcast? && h.role.Producer?)
  }

  predicate ThreadOk(s: Shared, h: Thread, t: int, me: Thread) {
    && 0 < t && me.pos < Size(s)
    && (InMutex(me.pc) <==> s.mutex == t)
    && (s.mutex == t ==> me == h)
    && (me.pc.Asleep? ==> SleepOk(s, h, me.role))
  }

  /** The holder after thread `t` has moved from `me` to `me'`. */
  function NextHolder(h: Thread, me: Thread, me': Thread): Thread {
    if InMutex(me'.pc) then me' else if InMutex(me.pc) then IDLE else h
  }

  lemma MoveKeepsRing(s: Shared, f: Fifo, h: Thread, t: int, me: Thread)
    requires SharedOk(s, f, h) && ThreadOk(s, h, t, me)
    ensures RingOk(Move(s, t, me).0.buffer, NextFifo(f, me.pc.Transfer?, me.role, me.line, Size(s)))
  {
    if me.pc.Transfer? {
      if me.role.Producer? {
        RingEnqueue(s.buffer, f, me.line);
      } else {
        RingDequeue(s.buffer, f);
      }
    }
  }

  lemma TargetSuits(s: Shared, f: Fifo, role: Role)
    requires Shaped(s) && RingOk(s.buffer, f)
    requires if role.Producer? then |f.items| < Size(s) else f.items != []
    ensures Suits(s.buffer[Target(s, f, role)], role)
  {
    assert role.Consumer? ==> Place(f.start, 0, Size(s)) == f.start;
  }

  lemma MoveKeepsCursors(s: Shared, f: Fifo, h: Thread, t: int, me: Thread)
    requires Shaped(s) && Fits(f, Size(s)) && CursorsOk(s, f, h) && HolderOk(s, f, h) && ThreadOk(s, h, t, me)
    ensures var (s', me') := Move(s, t, me);
            var f' := NextFifo(f, me.pc.Transfer?, me.role, me.line, Size(s));
            Fits(f', Size(s')) && CursorsOk(s', f', NextHolder(h, me, me'))
  {
    if me.pc.Transfer? || me.pc.SetCursor? {
      CursorMovesWithQueue(s, f, h, t, me);
    } else {
      MostMovesKeepCursors(s, f, h, t, me);
    }
  }

  lemma CursorMovesWithQueue(s: Shared, f: Fifo, h: Thread, t: int, me: Thread)
    requires Shaped(s) && Fits(f, Size(s)) && CursorsOk(s, f, h) && HolderOk(s, f, h) && ThreadOk(s, h, t, me)
    requires me.pc.Transfer? || me.pc.SetCursor?
    ensures var (s', me') := Move(s, t, me);
            var f' := NextFifo(f, me.pc.Transfer?, me.role, me.line, Size(s));
            Fits(f', Size(s')) && CursorsOk(s', f', NextHolder(h, me, me'))
  {
  }

  lemma MostMovesKeepCursors(s: Shared, f: Fifo, h: Thread, t: int, me: Thread)
    requires Shaped(s) && Fits(f, Size(s)) && CursorsOk(s, f, h) && ThreadOk(s, h, t, me)
    requires !me.pc.Transfer? && !me.pc.SetCursor? && MutexOk(s, h)
    ensures var (s', me') := Move(s, t, me);
            CursorsOk(s', f, NextHolder(h, me, me'))
  {
  }

  lemma MoveKeepsHolder(s: Shared, f: Fifo, h: Thread, t: int, me: Thread)
    requires Shaped(s) && Fits(f, Size(s)) && CursorsOk(s, f, h) && HolderOk(s, f, h) && ThreadOk(s, h, t, me)
    requires CountOk(s, f, h)
    requires Entitled(me.pc) ==> Suits(s.buffer[Target(s, f, me.role)], me.role)
    ensures var (s', me') := Move(s, t, me);
            var f' := NextFifo(f, me.pc.Transfer?, me.role, me.line, Size(s));
            Fits(f', Size(s')) && HolderOk(s', f', NextHolder(h, me, me'))
  {
    MoveKeepsMutex(s, h, t, me);
    if s.mutex == NOBODY {
      assert !InMutex(me.pc) && NextFifo(f, me.pc.Transfer?, me.role, me.line, Size(s)) == f;
    }
  }

  lemma MoveKeepsMutex(s: Shared, h: Thread, t: int, me: Thread)
    requires Shaped(s) && MutexOk(s, h) && ThreadOk(s, h, t, me)
    ensures MutexOk(Move(s, t, me).0, NextHolder(h, me, Move(s, t, me).1))
  {
  }

  lemma MoveKeepsCount(s: Shared, f: Fifo, h: Thread, t: int, me: Thread)
    requires Shaped(s) && Fits(f, Size(s)) && HolderOk(s, f, h) && CountOk(s, f, h) && ThreadOk(s, h, t, me)
    ensures var (s', me') := Move(s, t, me);
            CountOk(s', NextFifo(f, me.pc.Transfer?, me.role, me.line, Size(s)), NextHolder(h, me, me'))
  {
  }

  lemma MoveKeepsSlotLocks(s: Shared, h: Thread, t: int, me: Thread)
    requires Shaped(s) && MutexOk(s, h) && SlotLocksOk(s, h) && ThreadOk(s, h, t, me)
    ensures var (s', me') := Move(s, t, me);
            SlotLocksOk(s', NextHolder(h, me, me'))
  {
    var (s', me') := Move(s, t, me);
    var h' := NextHolder(h, me, me');
    forall i | 0 <= i < |s'.slotLocks|
      ensures s'.slotLocks[i] == if HoldsSlot(h'.pc) && i == h'.pos then s'.mutex else NOBODY
    {
      assert s.slotLocks[i] == if HoldsSlot(h.pc) && i == h.pos then s.mutex else NOBODY;
    }
  }

  lemma MoveKeepsSelf(s: Shared, f: Fifo, h: Thread, t: int, me: Thread)
    requires SharedOk(s, f, h) && ThreadOk(s, h, t, me)
    ensures var (s', me') := Move(s, t, me);
            ThreadOk(s', NextHolder(h, me, me'), t, me')
  {
  }

  lemma MoveKeepsOther(s: Shared, f: Fifo, h: Thread, t: int, me: Thread, u: int, other: Thread)
    requires SharedOk(s, f, h) && ThreadOk(s, h, t, me) && ThreadOk(s, h, u, other) && t != u
    ensures var (s', me') := Move(s, t, me);
            ThreadOk(s', NextHolder(h, me, me'), u, if me.pc.Broadcast? then Woken(other) else other)
  {
  }

  function HolderOf(y: System): Thread {
    if y.shared.mutex in y.threads then y.threads[y.shared.mutex] else IDLE
  }

  predicate Inv(y: System, f: Fifo) {
    && SharedOk(y.shared, f, HolderOf(y))
    && (y.shared.mutex == NOBODY || y.shared.mutex in y.threads)
    && forall t <- y.threads :: ThreadOk(y.shared, HolderOf(y), t, y.threads[t])
  }

  function FifoAfterStep(y: System, f: Fifo, turn: Turn): Fifo
    requires ShapedSystem(y) && f.start < Size(y.shared)
  {
    if turn.Go? && turn.tid in y.threads then
      var me := y.threads[turn.tid];
      NextFifo(f, me.pc.Transfer?, me.role, me.line, Size(y.shared))
    else f
  }

  lemma MoveKeepsShared(s: Shared, f: Fifo, h: Thread, t: int, me: Thread)
    requires SharedOk(s, f, h) && ThreadOk(s, h, t, me)
    ensures var (s', me') := Move(s, t, me);
            SharedOk(s', NextFifo(f, me.pc.Transfer?, me.role, me.line, Size(s)), NextHolder(h, me, me'))
  {
    MoveKeepsRing(s, f, h, t, me);
    MoveKeepsCursors(s, f, h, t, me);
    if Entitled(me.pc) {
      TargetSuits(s, f, me.role);
    }
    MoveKeepsHolder(s, f, h, t, me);
    MoveKeepsCount(s, f, h, t, me);
    MoveKeepsSlotLocks(s, h, t, me);
  }

  lemma GoKeepsInv(y: System, f: Fifo, t: int)
    requires Inv(y, f) && ShapedSystem(y) && t in y.threads
    ensures Inv(Step(y, Go(t)), FifoAfterStep(y, f, Go(t)))
  {
    var s, h, me := y.shared, HolderOf(y), y.threads[t];
    var (s', me') := Move(s, t, me);
    var z := Step(y, Go(t));
    MoveKeepsShared(s, f, h, t, me);
    MoveKeepsSelf(s, f, h, t, me);
    HolderAfterGo(y, f, t);
    forall u <- y.threads ensures ThreadOk(s', NextHolder(h, me, me'), u, z.threads[u]) {
      if u != t {
        MoveKeepsOther(s, f, h, t, me, u, y.threads[u]);
      }
    }
  }

  lemma HolderAfterGo(y: System, f: Fifo, t: int)
    requires Inv(y, f) && ShapedSystem(y) && t in y.threads
    ensures var me, z := y.threads[t], Step(y, Go(t));
            && HolderOf(z) == NextHolder(HolderOf(y), me, z.threads[t])
            && (z.shared.mutex == NOBODY || z.shared.mutex in z.threads)
  {
    assert ThreadOk(y.shared, HolderOf(y), t, y.threads[t]);
    if y.shared.mutex in y.threads {
      assert ThreadOk(y.shared, HolderOf(y), y.shared.mutex, y.threads[y.shared.mutex]);
    }
  }

  /** A time-out or a spurious wake-up touches only a thread that does not hold the mutex. */
  lemma DisturbanceKeepsInv(y: System, f: Fifo, t: int, me: Thread)
    requires Inv(y, f) && t in y.threads
    requires me == TimedOut(y.threads[t]) || me == Woken(y.threads[t])
    ensures Inv(y.(threads := y.threads[t := me]), f)
  {
    var z := y.(threads := y.threads[t := me]);
    assert ThreadOk(y.shared, HolderOf(y), t, y.threads[t]);
    assert HolderOf(z) == HolderOf(y);
    forall u <- z.threads ensures ThreadOk(z.shared, HolderOf(z), u, z.threads[u]) {
      assert ThreadOk(y.shared, HolderOf(y), u, y.threads[u]);
    }
  }

  lemma StepKeepsInv(y: System, f: Fifo, turn: Turn)
    requires Inv(y, f) && ShapedSystem(y)
    ensures Inv(Step(y, turn), FifoAfterStep(y, f, turn))
  {
    if turn.tid in y.threads {
      match turn
      case Go(t) => GoKeepsInv(y, f, t);
      case TimeOut(t) => DisturbanceKeepsInv(y, f, t, TimedOut(y.threads[t]));
      case Wake(t) => DisturbanceKeepsInv(y, f, t, Woken(y.threads[t]));
    }
  }

  lemma InitialInv(y: System)
    requires Initial(y)
    ensures Inv(y, Fifo(0, []))
  {
    assert NOBODY !in y.threads;
  }
}
