/**
  The bounded buffer guarded by two counting semaphores and one lock per slot.  The
  cursors next_write and next_read are read outside any lock, so a thread probes slot
  after slot until it has locked one that suits it.
 */
module SemaphoreBuffer {
  import opened Options
  import opened Ring

  /** Where a thread is; the comment gives the statement it executes next. */
  datatype Pc =
    | Head         // loop head: the time may be up; a producer reads its next line
    | Acquire      // wait free_slots (producer) or filled_slots (consumer)
    | ReadCursor   // pos = next_write (producer) or next_read (consumer)
    | LockSlot     // wait slot_locks[pos]
    | Probe        // is buffer[pos] of the wanted kind?
    | SkipSlot     // it is not: signal slot_locks[pos], pos = (pos + 1) % size
    | SetCursor    // next_write or next_read = (pos + 1) % size
    | Transfer     // write the line to buffer[pos], or take it from there
    | UnlockSlot   // signal slot_locks[pos]
    | Post         // signal filled_slots (producer) or free_slots (consumer)
    | Done

  /** `input` is what a producer has still to read, `line` the line it has read last. */
  datatype Thread = Thread(role: Role, pc: Pc, pos: nat, input: seq<Line>, line: Line)

  datatype Shared = Shared(
    buffer: seq<Option<Line>>,
    nextRead: nat,
    nextWrite: nat,
    freeSlots: nat,
    filledSlots: nat,
    slotLocks: seq<nat>)

  datatype System = System(shared: Shared, threads: map<int, Thread>)

  /** A turn of thread `tid`: a plain step, or a time-out. */
  datatype Turn = Go(tid: int) | TimeOut(tid: int)

  function Size(s: Shared): nat {
    |s.buffer|
  }

  predicate Shaped(s: Shared) {
    0 < Size(s) == |s.slotLocks| && s.nextRead < Size(s) && s.nextWrite < Size(s)
  }

  predicate ShapedSystem(y: System) {
    Shaped(y.shared) && forall t <- y.threads :: y.threads[t].pos < Size(y.shared)
  }

  predicate Initial(y: System) {
    && 0 < Size(y.shared)
    && y.shared == Shared(seq(Size(y.shared), _ => None), 0, 0, Size(y.shared), 0, seq(Size(y.shared), _ => 1))
    && forall t <- y.threads :: 0 < t && y.threads[t].pc == Head && y.threads[t].pos == 0
  }

  /** An empty buffer of `size` slots, with a producer for every input and the given consumers. */
  function Started(size: nat, inputs: map<int, seq<Line>>, consumers: set<int>): System {
    System(Shared(seq(size, _ => None), 0, 0, size, 0, seq(size, _ => 1)),
           map t | t in inputs.Keys + consumers ::
             if t in inputs then Thread(Producer, Head, 0, inputs[t], "") else Thread(Consumer, Head, 0, [], ""))
  }

  lemma AnyBufferCanStart(size: nat, inputs: map<int, seq<Line>>, consumers: set<int>)
    requires 0 < size && forall t <- inputs.Keys + consumers :: 0 < t
    ensures Initial(Started(size, inputs, consumers))
  {
  }

  /** The plain step of a thread, or no change when it has to wait. */
  function Move(s: Shared, me: Thread): (r: (Shared, Thread))
    requires Shaped(s) && me.pos < Size(s)
    ensures Shaped(r.0) && Size(r.0) == Size(s) && r.1.pos < Size(s) && r.1.role == me.role
  {
    match me.pc
    case Head =>
      if me.role.Consumer? then (s, me.(pc := Acquire))
      else if me.input == [] then (s, me.(pc := Done))
      else (s, me.(pc := Acquire, line := me.input[0], input := me.input[1..]))
    case Acquire =>
      if me.role.Producer? then
        if s.freeSlots == 0 then (s, me) else (s.(freeSlots := s.freeSlots - 1), me.(pc := ReadCursor))
      else
        if s.filledSlots == 0 then (s, me) else (s.(filledSlots := s.filledSlots - 1), me.(pc := ReadCursor))
    case ReadCursor =>
      (s, me.(pc := LockSlot, pos := if me.role.Producer? then s.nextWrite else s.nextRead))
    case LockSlot =>
      if s.slotLocks[me.pos] == 0 then (s, me)
      else (s.(slotLocks := s.slotLocks[me.pos := s.slotLocks[me.pos] - 1]), me.(pc := Probe))
    case Probe => (s, me.(pc := if Suits(s.buffer[me.pos], me.role) then SetCursor else SkipSlot))
    case SkipSlot =>
      (s.(slotLocks := s.slotLocks[me.pos := s.slotLocks[me.pos] + 1]),
       me.(pc := LockSlot, pos := Succ(me.pos, Size(s))))
    case SetCursor =>
      if me.role.Producer?
      then (s.(nextWrite := Succ(me.pos, Size(s))), me.(pc := Transfer))
      else (s.(nextRead := Succ(me.pos, Size(s))), me.(pc := Transfer))
    case Transfer =>
      (s.(buffer := s.buffer[me.pos := if me.role.Producer? then Some(me.line) else None]), me.(pc := UnlockSlot))
    case UnlockSlot => (s.(slotLocks := s.slotLocks[me.pos := s.slotLocks[me.pos] + 1]), me.(pc := Post))
    case Post =>
      if me.role.Producer?
      then (s.(filledSlots := s.filledSlots + 1), me.(pc := Head))
      else (s.(freeSlots := s.freeSlots + 1), me.(pc := Head))
    case Done => (s, me)
  }

  function TimedOut(me: Thread): Thread {
    if me.pc.Head? || me.pc.Acquire? then me.(pc := Done) else me
  }

  function Step(y: System, turn: Turn): (z: System)
    requires ShapedSystem(y)
    ensures ShapedSystem(z) && z.threads.Keys == y.threads.Keys
  {
    if turn.tid !in y.threads then y else
    var t, me := turn.tid, y.threads[turn.tid];
    match turn
    case Go(_) =>
      var (shared, me') := Move(y.shared, me);
      System(shared, y.threads[t := me'])
    case TimeOut(_) => y.(threads := y.threads[t := TimedOut(me)])
  }

  predicate CanGo(y: System, t: int)
    requires ShapedSystem(y)
  {
    Step(y, Go(t)) != y
  }

  function Run(y: System, schedule: seq<Turn>): (z: System)
    requires ShapedSystem(y)
    ensures ShapedSystem(z) && z.threads.Keys == y.threads.Keys && Size(z.shared) == Size(y.shared)
  {
    if schedule == [] then y
    else Step(Run(y, schedule[..|schedule| - 1]), schedule[|schedule| - 1])
  }
}
