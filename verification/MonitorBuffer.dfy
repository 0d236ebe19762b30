/**
  The bounded buffer guarded by one mutex and one condition variable.  Any number
  of producers and consumers; a step is one mutex operation or one access to the
  shared ring.  A thread that cannot take its mutex, or sleeps, does not move.
 */
module MonitorBuffer {
  import opened Options
  import opened Ring

  /** Where a thread is; the comment gives the statement it executes next. */
  datatype Pc =
    | Head         // loop head: the time may be up; a producer reads its next line
    | Lock         // lock filled_slots_mutex
    | Test         // must it wait?
    | Wait         // pthread_cond_wait: unlock and fall asleep
    | Asleep
    | Relock       // woken: lock filled_slots_mutex again
    | LateRelock   // timed out: lock filled_slots_mutex again
    | LateUnlock   // timed out: unlock filled_slots_mutex and exit
    | ReadCursor   // pos = next_write (producer) or next_read (consumer)
    | LockSlot     // lock slot_locks[pos]
    | Probe        // is buffer[pos] of the wanted kind?
    | SkipSlot     // it is not: unlock slot_locks[pos], pos = (pos + 1) % size
    | SetCursor    // next_write or next_read = (pos + 1) % size
    | Transfer     // write the line to buffer[pos], or take it from there
    | UnlockSlot   // unlock slot_locks[pos]
    | Adjust       // ++filled_slots or --filled_slots
    | Broadcast    // pthread_cond_broadcast
    | Unlock       // unlock filled_slots_mutex
    | Done

  /** `input` is what a producer has still to read, `line` the line it has read last. */
  datatype Thread = Thread(role: Role, pc: Pc, pos: nat, input: seq<Line>, line: Line)

  const NOBODY := 0

  datatype Shared = Shared(
    buffer: seq<Option<Line>>,
    nextRead: nat,
    nextWrite: nat,
    filled: int,
    mutex: int,             // the thread that holds filled_slots_mutex
    slotLocks: seq<int>)    // the threads that hold the slot locks

  datatype System = System(shared: Shared, threads: map<int, Thread>)

  /** A turn of thread `tid`: a plain step, a time-out, or a spurious wake-up. */
  datatype Turn = Go(tid: int) | TimeOut(tid: int) | Wake(tid: int)

  function Size(s: Shared): nat {
    |s.buffer|
  }

  predicate Shaped(s: Shared) {
    0 < Size(s) == |s.slotLocks| && s.nextRead < Size(s) && s.nextWrite < Size(s)
  }

  predicate ShapedSystem(y: System) {
    Shaped(y.shared) && forall t <- y.threads :: y.threads[t].pos < Size(y.shared)
  }

  predicate Initial(y: System) {
    && 0 < Size(y.shared)
    && y.shared == Shared(seq(Size(y.shared), _ => None), 0, 0, 0, NOBODY, seq(Size(y.shared), _ => NOBODY))
    && forall t <- y.threads :: 0 < t && y.threads[t].pc == Head && y.threads[t].pos == 0
  }

  /** An empty buffer of `size` slots, with a producer for every input and the given consumers. */
  function Started(size: nat, inputs: map<int, seq<Line>>, consumers: set<int>): System {
    System(Shared(seq(size, _ => None), 0, 0, 0, NOBODY, seq(size, _ => NOBODY)),
           map t | t in inputs.Keys + consumers ::
             if t in inputs then Thread(Producer, Head, 0, inputs[t], "") else Thread(Consumer, Head, 0, [], ""))
  }

  lemma AnyBufferCanStart(size: nat, inputs: map<int, seq<Line>>, consumers: set<int>)
    requires 0 < size && forall t <- inputs.Keys + consumers :: 0 < t
    ensures Initial(Started(size, inputs, consumers))
  {
  }

  /** The buffer offers nothing to a thread of this role. */
  predicate MustWait(s: Shared, role: Role) {
    s.filled == if role.Producer? then Size(s) else 0
  }

  /** The plain step of a thread, except that Broadcast also wakes the others. */
  function Move(s: Shared, t: int, me: Thread): (r: (Shared, Thread))
    requires Shaped(s) && me.pos < Size(s)
    ensures Shaped(r.0) && Size(r.0) == Size(s) && r.1.pos < Size(s) && r.1.role == me.role
  {
    match me.pc
    case Head =>
      if me.role.Consumer? then (s, me.(pc := Lock))
      else if me.input == [] then (s, me.(pc := Done))
      else (s, me.(pc := Lock, line := me.input[0], input := me.input[1..]))
    case Lock => if s.mutex != NOBODY then (s, me) else (s.(mutex := t), me.(pc := Test))
    case Test => (s, me.(pc := if MustWait(s, me.role) then Wait else ReadCursor))
    case Wait => (s.(mutex := NOBODY), me.(pc := Asleep))
    case Asleep => (s, me)
    case Relock => if s.mutex != NOBODY then (s, me) else (s.(mutex := t), me.(pc := Test))
    case LateRelock => if s.mutex != NOBODY then (s, me) else (s.(mutex := t), me.(pc := LateUnlock))
    case LateUnlock => (s.(mutex := NOBODY), me.(pc := Done))
    case ReadCursor =>
      (s, me.(pc := LockSlot, pos := if me.role.Producer? then s.nextWrite else s.nextRead))
    case LockSlot =>
      if s.slotLocks[me.pos] != NOBODY then (s, me)
      else (s.(slotLocks := s.slotLocks[me.pos := t]), me.(pc := Probe))
    case Probe => (s, me.(pc := if Suits(s.buffer[me.pos], me.role) then SetCursor else SkipSlot))
    case SkipSlot =>
      (s.(slotLocks := s.slotLocks[me.pos := NOBODY]), me.(pc := LockSlot, pos := Succ(me.pos, Size(s))))
    case SetCursor =>
      if me.role.Producer?
      then (s.(nextWrite := Succ(me.pos, Size(s))), me.(pc := Transfer))
      else (s.(nextRead := Succ(me.pos, Size(s))), me.(pc := Transfer))
    case Transfer =>
      (s.(buffer := s.buffer[me.pos := if me.role.Producer? then Some(me.line) else None]), me.(pc := UnlockSlot))
    case UnlockSlot => (s.(slotLocks := s.slotLocks[me.pos := NOBODY]), me.(pc := Adjust))
    case Adjust => (s.(filled := s.filled + if me.role.Producer? then 1 else -1), me.(pc := Broadcast))
    case Broadcast => (s, me.(pc := Unlock))
    case Unlock => (s.(mutex := NOBODY), me.(pc := Head))
    case Done => (s, me)
  }

  function TimedOut(me: Thread): Thread {
    if me.pc.Head? then me.(pc := Done) else if me.pc.Asleep? then me.(pc := LateRelock) else me
  }

  function Woken(me: Thread): Thread {
    if me.pc.Asleep? then me.(pc := Relock) else me
  }

  function AllWoken(threads: map<int, Thread>): map<int, Thread> {
    map u <- threads :: Woken(threads[u])
  }

  function Step(y: System, turn: Turn): (z: System)
    requires ShapedSystem(y)
    ensures ShapedSystem(z) && z.threads.Keys == y.threads.Keys
  {
    if turn.tid !in y.threads then y else
    var t, me := turn.tid, y.threads[turn.tid];
    match turn
    case Go(_) =>
      var (shared, me') := Move(y.shared, t, me);
      var others := if me.pc.Broadcast? then AllWoken(y.threads) else y.threads;
      System(shared, others[t := me'])
    case TimeOut(_) => y.(threads := y.threads[t := TimedOut(me)])
    case Wake(_) => y.(threads := y.threads[t := Woken(me)])
  }

  predicate CanGo(y: System, t: int)
    requires ShapedSystem(y)
  {
    Step(y, Go(t)) != y
  }

  function Run(y: System, schedule: seq<Turn>): (z: System)
    requires ShapedSystem(y)
    ensures ShapedSystem(z) && z.threads.Keys == y.threads.Keys
  {
    if schedule == [] then y
    else Step(Run(y, schedule[..|schedule| - 1]), schedule[|schedule| - 1])
  }
}
