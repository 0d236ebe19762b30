/**
  What every run of the semaphore buffer keeps, for any number of producers and
  consumers and any capacity, although the cursors are read and written in races.
 */
module SemaphoreTheorems {
  import opened Options
  import opened Ring
  import opened Sums
  import opened SemaphoreBuffer
  import opened SemaphoreInvariant

  /** The holders of the slot locks after `schedule`. */
  function OwnersAfter(y: System, schedule: seq<Turn>): (owners: seq<int>)
    requires ShapedSystem(y)
    ensures |owners| == Size(y.shared)
  {
    if schedule == [] then seq(Size(y.shared), _ => NOBODY) else
    var before, turn := schedule[..|schedule| - 1], schedule[|schedule| - 1];
    OwnersAfterStep(Run(y, before), OwnersAfter(y, before), turn)
  }

  lemma {:induction false} ReachableInv(y: System, schedule: seq<Turn>)
    requires Initial(y)
    ensures Inv(Run(y, schedule), OwnersAfter(y, schedule))
  {
    if schedule == [] {
      InitialInv(y);
    } else {
      var before := schedule[..|schedule| - 1];
      ReachableInv(y, before);
      StepKeepsInv(Run(y, before), OwnersAfter(y, before), schedule[|schedule| - 1]);
    }
  }

  // ----- Slots, permits and posts

  /**
    The empty slots are the free_slots permits, the producers with an unused permit and
    the consumers that have emptied a slot and not posted; dually for the occupied ones.
   */
  lemma SlotsAreAccountedFor(y: System, schedule: seq<Turn>)
    requires Initial(y)
    ensures var z := Run(y, schedule);
            && EmptySlots(z.shared.buffer) == z.shared.freeSlots + Total(FreeShares(z.threads))
            && Size(z.shared) - EmptySlots(z.shared.buffer) == z.shared.filledSlots + Total(FilledShares(z.threads))
  {
    ReachableInv(y, schedule);
  }

  lemma ShareIsPart(shares: map<int, int>, t: int)
    requires t in shares && forall u <- shares :: 0 <= shares[u]
    ensures shares[t] <= Total(shares)
  {
    TotalSplit(shares, t);
    TotalNonNegative(shares - {t});
  }

  lemma PermitMeansSlot(y: System, owners: seq<int>, t: int)
    requires Inv(y, owners) && t in y.threads && HasPermit(y.threads[t].pc)
    ensures if y.threads[t].role.Producer? then 0 < EmptySlots(y.shared.buffer)
            else EmptySlots(y.shared.buffer) < Size(y.shared)
  {
    ShareIsPart(FreeShares(y.threads), t);
    ShareIsPart(FilledShares(y.threads), t);
  }

  /** While a thread probes with its permit, some slot suits it. */
  lemma SuitableSlotExists(y: System, schedule: seq<Turn>, t: int)
    requires Initial(y)
    requires t in y.threads && HasPermit(Run(y, schedule).threads[t].pc)
    ensures SomeSlotSuits(Run(y, schedule).shared.buffer, Run(y, schedule).threads[t].role)
  {
    ReachableInv(y, schedule);
    PermitMeansSlot(Run(y, schedule), OwnersAfter(y, schedule), t);
    EmptySlotsBounds(Run(y, schedule).shared.buffer);
  }

  predicate SomeSlotSuits(buffer: seq<Option<Line>>, role: Role) {
    exists i :: 0 <= i < |buffer| && Suits(buffer[i], role)
  }

  /** Two threads never hold the same slot. */
  lemma SlotsAreHeldAlone(y: System, schedule: seq<Turn>, t: int, u: int)
    requires Initial(y) && t in y.threads && u in y.threads
    requires var z := Run(y, schedule);
             HoldsSlot(z.threads[t].pc) && HoldsSlot(z.threads[u].pc) && z.threads[t].pos == z.threads[u].pos
    ensures t == u
  {
    ReachableInv(y, schedule);
    var z, owners := Run(y, schedule), OwnersAfter(y, schedule);
    assert ThreadOk(z.shared, owners, t, z.threads[t]) && ThreadOk(z.shared, owners, u, z.threads[u]);
    assert owners[z.threads[t].pos] == t && owners[z.threads[u].pos] == u;
  }

  /** A producer writes only to an empty slot and a consumer empties only an occupied one. */
  lemma TransferFindsItsSlot(y: System, schedule: seq<Turn>, t: int)
    requires Initial(y)
    requires t in y.threads && Run(y, schedule).threads[t].pc.Transfer?
    ensures var z := Run(y, schedule); Suits(z.shared.buffer[z.threads[t].pos], z.threads[t].role)
  {
    ReachableInv(y, schedule);
    var z := Run(y, schedule);
    assert ThreadOk(z.shared, OwnersAfter(y, schedule), t, z.threads[t]);
  }

  // ----- Conservation of lines

  function Transferring(y: System, turn: Turn, role: Role): bool {
    turn.Go? && turn.tid in y.threads && y.threads[turn.tid].pc.Transfer? && y.threads[turn.tid].role == role
  }

  /** The line that a turn writes, and the slot that a turn empties, if any. */
  function WrittenBy(y: System, turn: Turn): seq<Line> {
    if Transferring(y, turn, Producer) then [y.threads[turn.tid].line] else []
  }

  function TakenBy(y: System, turn: Turn): seq<Option<Line>>
    requires ShapedSystem(y)
  {
    if Transferring(y, turn, Consumer) then [y.shared.buffer[y.threads[turn.tid].pos]] else []
  }

  /** The lines written to the buffer, in the order of the writes. */
  function Written(y: System, schedule: seq<Turn>): seq<Line>
    requires ShapedSystem(y)
  {
    if schedule == [] then [] else
    var before := schedule[..|schedule| - 1];
    Written(y, before) + WrittenBy(Run(y, before), schedule[|schedule| - 1])
  }

  /** What the consumers found in the slots that they emptied, in the order in which they did. */
  function Taken(y: System, schedule: seq<Turn>): seq<Option<Line>>
    requires ShapedSystem(y)
  {
    if schedule == [] then [] else
    var before := schedule[..|schedule| - 1];
    Taken(y, before) + TakenBy(Run(y, before), schedule[|schedule| - 1])
  }

  /** How often the line lies in the buffer, or among the slots that were emptied. */
  function Copies(slots: seq<Option<Line>>, line: Line): nat {
    multiset(slots)[Some(line)]
  }

  lemma CopiesUpdate(slots: seq<Option<Line>>, i: nat, slot: Option<Line>, line: Line)
    requires i < |slots|
    ensures Copies(slots[i := slot], line)
              == Copies(slots, line) + One(slot == Some(line)) - One(slots[i] == Some(line))
  {
    assert multiset(slots[i := slot]) == multiset(slots) - multiset{slots[i]} + multiset{slot};
  }

  lemma MoveConserves(s: Shared, me: Thread, line: Line)
    requires Shaped(s) && me.pos < Size(s)
    requires me.pc.Transfer? ==> Suits(s.buffer[me.pos], me.role)
    ensures Copies(Move(s, me).0.buffer, line)
              == Copies(s.buffer, line)
                 + (if me.pc.Transfer? && me.role.Producer? && me.line == line then 1 else 0)
                 - (if me.pc.Transfer? && me.role.Consumer? && s.buffer[me.pos] == Some(line) then 1 else 0)
  {
    if me.pc.Transfer? {
      CopiesUpdate(s.buffer, me.pos, if me.role.Producer? then Some(me.line) else None, line);
    }
  }

  lemma Appended(slots: seq<Option<Line>>, last: Option<Line>, line: Line)
    ensures Copies(slots + [last], line) == Copies(slots, line) + if last == Some(line) then 1 else 0
  {
  }

  lemma NoCopies(buffer: seq<Option<Line>>, line: Line)
    requires forall i :: 0 <= i < |buffer| ==> buffer[i].None?
    ensures Copies(buffer, line) == 0
  {
    assert Some(line) !in buffer;
  }

  lemma StepConserves(y: System, owners: seq<int>, turn: Turn, written: seq<Line>, taken: seq<Option<Line>>, line: Line)
    requires Inv(y, owners) && ShapedSystem(y)
    requires Copies(Filled(written), line) == Copies(taken, line) + Copies(y.shared.buffer, line)
    ensures Copies(Filled(written + WrittenBy(y, turn)), line)
              == Copies(taken + TakenBy(y, turn), line) + Copies(Step(y, turn).shared.buffer, line)
  {
    assert written + [] == written && taken + [] == taken;
    if turn.Go? && turn.tid in y.threads {
      var me := y.threads[turn.tid];
      assert ThreadOk(y.shared, owners, turn.tid, me);
      MoveConserves(y.shared, me, line);
      FilledAppend(written, me.line);
      Appended(Filled(written), Some(me.line), line);
      Appended(taken, y.shared.buffer[me.pos], line);
    }
  }

  /** No line is lost, duplicated or overwritten: every copy written was taken or is still there. */
  lemma {:induction false} LinesAreConserved(y: System, schedule: seq<Turn>, line: Line)
    requires Initial(y)
    ensures Copies(Filled(Written(y, schedule)), line)
              == Copies(Taken(y, schedule), line) + Copies(Run(y, schedule).shared.buffer, line)
  {
    if schedule == [] {
      NoCopies(y.shared.buffer, line);
    } else {
      var before, turn := schedule[..|schedule| - 1], schedule[|schedule| - 1];
      LinesAreConserved(y, before, line);
      ReachableInv(y, before);
      StepConserves(Run(y, before), OwnersAfter(y, before), turn, Written(y, before), Taken(y, before), line);
    }
  }

  lemma FilledAppend(lines: seq<Line>, line: Line)
    ensures Filled(lines + [line]) == Filled(lines) + [Some(line)]
  {
  }

  // ----- Producers

  /** The producer has read a line and is on its way to write it. */
  predicate Carrying(pc: Pc) {
    pc.Acquire? || pc.ReadCursor? || pc.LockSlot? || pc.Probe? || pc.SkipSlot? || pc.SetCursor? || pc.Transfer?
  }

  /** A time-out has ended the thread's wait, or its loop. */
  predicate Leaving(pc: Pc) {
    pc.Done?
  }

  /** The turn is a time-out of thread `t` while it waits for room. */
  predicate Drops(y: System, turn: Turn, t: int) {
    turn == TimeOut(t) && t in y.threads && y.threads[t].pc.Acquire?
  }

  /** Thread `t` timed out during `schedule` while it waited for room. */
  predicate Dropped(y: System, schedule: seq<Turn>, t: int)
    requires ShapedSystem(y)
  {
    schedule != [] &&
    var before := schedule[..|schedule| - 1];
    Dropped(y, before, t) || Drops(Run(y, before), schedule[|schedule| - 1], t)
  }

  function Hand(me: Thread, dropped: bool): seq<Line> {
    if dropped || Carrying(me.pc) then [me.line] else []
  }

  /** Where the input of a producer went, given whether it dropped a line and whether it timed out. */
  predicate ProducerAccount(me: Thread, input: seq<Line>, written: seq<Line>, dropped: bool, timedOut: bool) {
    && (dropped ==> Leaving(me.pc) && timedOut)
    && (Leaving(me.pc) ==> dropped || timedOut || me.input == [])
    && Accounted(input, written, Hand(me, dropped), me.input)
  }

  /** The lines that thread `t` has written, in order. */
  function WrittenOf(y: System, schedule: seq<Turn>, t: int): seq<Line>
    requires ShapedSystem(y)
  {
    if schedule == [] then [] else
    var before := schedule[..|schedule| - 1];
    WrittenOf(y, before, t) + WrittenByThread(Run(y, before), schedule[|schedule| - 1], t)
  }

  function WrittenByThread(y: System, turn: Turn, t: int): seq<Line> {
    if turn.tid == t then WrittenBy(y, turn) else []
  }

  lemma MoveAccounts(s: Shared, me: Thread, input: seq<Line>, written: seq<Line>, dropped: bool, timedOut: bool)
    requires Shaped(s) && me.pos < Size(s) && me.role.Producer?
    requires ProducerAccount(me, input, written, dropped, timedOut)
    ensures ProducerAccount(Move(s, me).1, input, written + (if me.pc.Transfer? then [me.line] else []),
                            dropped, timedOut)
  {
    assert written + [] == written;
    if me.pc.Head? && me.input != [] {
      ReadOne(input, written, me.input);
    } else if me.pc.Transfer? {
      WroteOne(input, written, me.line, me.input);
    }
  }

  lemma StepAccounts(y: System, turn: Turn, t: int, input: seq<Line>, written: seq<Line>, dropped: bool, timedOut: bool)
    requires ShapedSystem(y) && t in y.threads && y.threads[t].role.Producer?
    requires ProducerAccount(y.threads[t], input, written, dropped, timedOut)
    ensures var me := Step(y, turn).threads[t];
            && me.role.Producer?
            && ProducerAccount(me, input, written + WrittenByThread(y, turn, t),
                               dropped || Drops(y, turn, t), timedOut || turn == TimeOut(t))
  {
    assert written + [] == written;
    if turn == Go(t) {
      MoveAccounts(y.shared, y.threads[t], input, written, dropped, timedOut);
    }
  }

  /**
    Every producer's lines go into the buffer in the order of its input.  The one line it
    may lose is the one in its hand when it times out waiting for room.
   */
  lemma {:induction false} ProducersWriteTheirInput(y: System, schedule: seq<Turn>, t: int)
    requires Initial(y) && t in y.threads && y.threads[t].role.Producer?
    ensures Run(y, schedule).threads[t].role.Producer?
    ensures ProducerAccount(Run(y, schedule).threads[t], y.threads[t].input, WrittenOf(y, schedule, t),
                            Dropped(y, schedule, t), TimeOut(t) in schedule)
  {
    if schedule != [] {
      var before := schedule[..|schedule| - 1];
      ProducersWriteTheirInput(y, before, t);
      StepAccounts(Run(y, before), schedule[|schedule| - 1], t, y.threads[t].input, WrittenOf(y, before, t),
                   Dropped(y, before, t), TimeOut(t) in before);
      assert schedule == before + [schedule[|schedule| - 1]];
    }
  }

  /** A producer that is done has written its whole input unless it dropped a line or left lines unread. */
  lemma DoneProducerWroteAllExactlyWhen(y: System, schedule: seq<Turn>, t: int)
    requires Initial(y) && t in y.threads && y.threads[t].role.Producer?
    requires Run(y, schedule).threads[t].pc.Done?
    ensures (WrittenOf(y, schedule, t) == y.threads[t].input)
              <==> (!Dropped(y, schedule, t) && Run(y, schedule).threads[t].input == [])
    ensures TimeOut(t) !in schedule ==> WrittenOf(y, schedule, t) == y.threads[t].input
  {
    ProducersWriteTheirInput(y, schedule, t);
    var me, dropped := Run(y, schedule).threads[t], Dropped(y, schedule, t);
    WroteAllExactlyWhen(y.threads[t].input, WrittenOf(y, schedule, t), Hand(me, dropped), me.input);
  }

  /** A time-out of any producer that waits for room loses the line it has read. */
  lemma TimeOutDropsTheLine(y: System, schedule: seq<Turn>, t: int)
    requires Initial(y) && t in y.threads && y.threads[t].role.Producer?
    requires Run(y, schedule).threads[t].pc.Acquire?
    ensures var late := schedule + [TimeOut(t)];
            var me := Run(y, late).threads[t];
            && Dropped(y, late, t) && Leaving(me.pc)
            && y.threads[t].input == WrittenOf(y, late, t) + [me.line] + me.input
  {
    var late := schedule + [TimeOut(t)];
    assert late[..|late| - 1] == schedule;
    ProducersWriteTheirInput(y, late, t);
  }

  // ----- Progress

  /** Finished, or waiting for a permit that nobody has posted. */
  predicate Resting(y: System, t: int)
    requires t in y.threads
  {
    var me := y.threads[t];
    || me.pc.Done?
    || (me.pc.Acquire? && (if me.role.Producer? then y.shared.freeSlots else y.shared.filledSlots) == 0)
  }

  predicate Blocked(s: Shared, owners: seq<int>, me: Thread)
    requires me.pos < |owners|
  {
    || me.pc.Done?
    || (me.pc.Acquire? && (if me.role.Producer? then s.freeSlots else s.filledSlots) == 0)
    || (me.pc.LockSlot? && owners[me.pos] != NOBODY)
  }

  lemma MoverMoves(s: Shared, owners: seq<int>, t: int, me: Thread)
    requires Shaped(s) && LocksOk(s, owners) && ThreadOk(s, owners, t, me)
    ensures Move(s, me).1 == me <==> Blocked(s, owners, me)
    ensures Move(s, me).1 == me ==> Move(s, me).0 == s
  {
  }

  lemma CanGoMeansMoves(y: System, t: int)
    requires ShapedSystem(y) && t in y.threads
    requires Move(y.shared, y.threads[t]).1 == y.threads[t] ==> Move(y.shared, y.threads[t]).0 == y.shared
    ensures CanGo(y, t) <==> Move(y.shared, y.threads[t]).1 != y.threads[t]
  {
    assert Step(y, Go(t)).threads[t] == Move(y.shared, y.threads[t]).1;
    assert y.threads[t := y.threads[t]] == y.threads;
  }

  lemma ThreadGoes(y: System, owners: seq<int>, t: int)
    requires Inv(y, owners) && ShapedSystem(y) && t in y.threads
    ensures CanGo(y, t) ==> !Resting(y, t)
    ensures !CanGo(y, t) && !Resting(y, t) ==>
              y.threads[t].pc.LockSlot? && owners[y.threads[t].pos] in y.threads && CanGo(y, owners[y.threads[t].pos])
  {
    assert ThreadOk(y.shared, owners, t, y.threads[t]);
    MoverMoves(y.shared, owners, t, y.threads[t]);
    CanGoMeansMoves(y, t);
    if !CanGo(y, t) && !Resting(y, t) {
      var u := owners[y.threads[t].pos];
      assert ThreadOk(y.shared, owners, u, y.threads[u]);
      MoverMoves(y.shared, owners, u, y.threads[u]);
      CanGoMeansMoves(y, u);
    }
  }

  /** Nobody can move exactly when every thread is done or waits for a missing permit. */
  lemma StuckMeansResting(y: System, schedule: seq<Turn>)
    requires Initial(y)
    ensures (forall t <- y.threads :: !CanGo(Run(y, schedule), t))
              <==> (forall t <- y.threads :: Resting(Run(y, schedule), t))
  {
    ReachableInv(y, schedule);
    var z := Run(y, schedule);
    forall t <- y.threads
      ensures CanGo(z, t) ==> !Resting(z, t)
      ensures !Resting(z, t) ==> exists u <- y.threads :: CanGo(z, u)
    {
      ThreadGoes(z, OwnersAfter(y, schedule), t);
    }
  }

  /** When every thread rests, not both semaphores are 0, so producers and consumers never wait together. */
  lemma NoDeadlock(y: System, schedule: seq<Turn>, p: int, c: int)
    requires Initial(y)
    requires p in y.threads && c in y.threads
    requires var z := Run(y, schedule);
             && z.threads[p].role.Producer? && !z.threads[p].pc.Done?
             && z.threads[c].role.Consumer? && !z.threads[c].pc.Done?
    ensures exists t <- y.threads :: CanGo(Run(y, schedule), t)
  {
    StuckMeansResting(y, schedule);
    ReachableInv(y, schedule);
    if forall t <- y.threads :: Resting(Run(y, schedule), t) {
      assert Resting(Run(y, schedule), p) && Resting(Run(y, schedule), c);
      RestingLeavesAPermit(Run(y, schedule), OwnersAfter(y, schedule));
    }
  }

  lemma RestingLeavesAPermit(y: System, owners: seq<int>)
    requires Inv(y, owners) && forall t <- y.threads :: Resting(y, t)
    ensures y.shared.freeSlots + y.shared.filledSlots == Size(y.shared)
  {
    forall t <- y.threads ensures FreeShares(y.threads)[t] == 0 && FilledShares(y.threads)[t] == 0 {
      assert Resting(y, t);
    }
    TotalNonNegative(FreeShares(y.threads));
    TotalNonNegative(FilledShares(y.threads));
  }

  // ----- A thread that runs alone

  /** `n` plain steps of one thread. */
  function Alone(t: int, n: nat): (schedule: seq<Turn>)
    ensures |schedule| == n
  {
    if n == 0 then [] else Alone(t, n - 1) + [Go(t)]
  }

  /** The same on the thread's own view. */
  function Moves(s: Shared, me: Thread, n: nat): (r: (Shared, Thread))
    requires Shaped(s) && me.pos < Size(s)
    ensures Shaped(r.0) && Size(r.0) == Size(s) && r.1.pos < Size(s)
    decreases n
  {
    if n == 0 then (s, me) else
    var (s', me') := Move(s, me);
    Moves(s', me', n - 1)
  }

  lemma {:induction false} MovesOnceMore(s: Shared, me: Thread, n: nat)
    requires Shaped(s) && me.pos < Size(s)
    ensures var (s', me') := Moves(s, me, n);
            Moves(s, me, n + 1) == Move(s', me')
    decreases n
  {
    if n > 0 {
      var (s', me') := Move(s, me);
      MovesOnceMore(s', me', n - 1);
    }
  }

  lemma StepIsMove(s: Shared, threads: map<int, Thread>, t: int, me: Thread)
    requires ShapedSystem(System(s, threads[t := me])) && me.pos < Size(s)
    ensures var (s', me') := Move(s, me);
            Step(System(s, threads[t := me]), Go(t)) == System(s', threads[t := me'])
  {
    assert threads[t := me][t := Move(s, me).1] == threads[t := Move(s, me).1];
  }

  lemma {:induction false} AloneIsMoves(y: System, t: int, n: nat)
    requires ShapedSystem(y) && t in y.threads
    ensures var (s, me) := Moves(y.shared, y.threads[t], n);
            Run(y, Alone(t, n)) == System(s, y.threads[t := me])
  {
    if n == 0 {
      assert y.threads[t := y.threads[t]] == y.threads;
    } else {
      AloneIsMoves(y, t, n - 1);
      MovesOnceMore(y.shared, y.threads[t], n - 1);
      var (s, me) := Moves(y.shared, y.threads[t], n - 1);
      RunOnceMore(y, Alone(t, n - 1), Go(t));
      StepIsMove(s, y.threads, t, me);
    }
  }

  lemma RunOnceMore(y: System, schedule: seq<Turn>, turn: Turn)
    requires ShapedSystem(y)
    ensures Run(y, schedule + [turn]) == Step(Run(y, schedule), turn)
  {
    assert (schedule + [turn])[..|schedule|] == schedule;
  }

  /** One failed probe brings the thread to the next slot and changes nothing else. */
  lemma FailedProbe(s: Shared, me: Thread, n: nat)
    requires Shaped(s) && me.pos < Size(s) && me.pc.LockSlot? && s.slotLocks[me.pos] == 1
    requires !Suits(s.buffer[me.pos], me.role)
    ensures Moves(s, me, n + 3) == Moves(s, me.(pos := Succ(me.pos, Size(s))), n)
  {
    assert s.slotLocks[me.pos := 0][me.pos := 1] == s.slotLocks;
    var s1 := s.(slotLocks := s.slotLocks[me.pos := 0]);
    assert Move(s, me) == (s1, me.(pc := Probe));
    assert Move(s1, me.(pc := Probe)) == (s1, me.(pc := SkipSlot));
    assert Move(s1, me.(pc := SkipSlot)) == (s, me.(pos := Succ(me.pos, Size(s))));
    assert Moves(s, me, n + 3) == Moves(s1, me.(pc := Probe), n + 2);
    assert Moves(s1, me.(pc := Probe), n + 2) == Moves(s1, me.(pc := SkipSlot), n + 1);
  }

  lemma SuccessfulProbe(s: Shared, me: Thread)
    requires Shaped(s) && me.pos < Size(s) && me.pc.LockSlot? && s.slotLocks[me.pos] == 1
    requires Suits(s.buffer[me.pos], me.role)
    ensures var (s', me') := Moves(s, me, 2);
            me' == me.(pc := SetCursor) && s'.buffer == s.buffer
  {
    var s1 := s.(slotLocks := s.slotLocks[me.pos := 0]);
    assert Move(s, me) == (s1, me.(pc := Probe));
    assert Moves(s, me, 2) == Moves(s1, me.(pc := Probe), 1);
    assert Moves(s1, me.(pc := Probe), 1) == Moves(s1, me.(pc := SetCursor), 0);
  }

  predicate SlotsUnlocked(s: Shared)
    requires Shaped(s)
  {
    forall i :: 0 <= i < Size(s) ==> s.slotLocks[i] == 1
  }

  /** A failed probe takes three steps, a successful one two. */
  function ProbeSteps(probes: nat): nat
    requires 1 <= probes
  {
    3 * (probes - 1) + 2
  }

  /** Running alone, a thread locks the first suitable slot from its position on. */
  lemma {:induction false} AloneItFinds(s: Shared, me: Thread, far: nat) returns (probes: nat)
    requires Shaped(s) && me.pos < Size(s) && SlotsUnlocked(s) && me.pc.LockSlot?
    requires far < Size(s) && Suits(s.buffer[Place(me.pos, far, Size(s))], me.role)
    ensures 1 <= probes <= far + 1
    ensures var (s', me') := Moves(s, me, ProbeSteps(probes));
            && me'.pc.SetCursor? && me'.role == me.role && s'.buffer == s.buffer
            && Suits(s'.buffer[me'.pos], me.role)
    decreases far
  {
    if Suits(s.buffer[me.pos], me.role) {
      probes := 1;
      SuccessfulProbe(s, me);
    } else {
      assert far > 0 && Place(Succ(me.pos, Size(s)), far - 1, Size(s)) == Place(me.pos, far, Size(s));
      var less := AloneItFinds(s, me.(pos := Succ(me.pos, Size(s))), far - 1);
      probes := less + 1;
      FailedProbe(s, me, ProbeSteps(less));
    }
  }

  lemma OwnerIsInside(y: System, owners: seq<int>, i: nat)
    requires Inv(y, owners) && i < Size(y.shared) && owners[i] != NOBODY
    ensures owners[i] in y.threads && HoldsSlot(y.threads[owners[i]].pc)
  {
    assert ThreadOk(y.shared, owners, owners[i], y.threads[owners[i]]);
  }

  lemma NobodyInside(y: System, owners: seq<int>)
    requires Inv(y, owners) && forall u <- y.threads :: !HoldsSlot(y.threads[u].pc)
    ensures SlotsUnlocked(y.shared)
  {
    forall i | 0 <= i < Size(y.shared) ensures y.shared.slotLocks[i] == 1 {
      if owners[i] != NOBODY {
        OwnerIsInside(y, owners, i);
      }
    }
  }

  lemma AloneFromHere(y: System, owners: seq<int>, t: int) returns (probes: nat)
    requires Inv(y, owners) && ShapedSystem(y)
    requires t in y.threads && y.threads[t].pc.LockSlot? && forall u <- y.threads :: !HoldsSlot(y.threads[u].pc)
    ensures 1 <= probes <= Size(y.shared)
    ensures var z := Run(y, Alone(t, ProbeSteps(probes)));
            z.threads[t].pc.SetCursor? && Suits(z.shared.buffer[z.threads[t].pos], z.threads[t].role)
  {
    PermitMeansSlot(y, owners, t);
    EmptySlotsBounds(y.shared.buffer);
    NobodyInside(y, owners);
    var far := DistanceToSuitable(y.shared, y.threads[t]);
    probes := AloneItFinds(y.shared, y.threads[t], far);
    AloneIsMoves(y, t, ProbeSteps(probes));
  }

  lemma DistanceToSuitable(s: Shared, me: Thread) returns (far: nat)
    requires me.pos < Size(s) && SomeSlotSuits(s.buffer, me.role)
    ensures far < Size(s) && Suits(s.buffer[Place(me.pos, far, Size(s))], me.role)
  {
    var i :| 0 <= i < Size(s) && Suits(s.buffer[i], me.role);
    far := if i >= me.pos then i - me.pos else i + Size(s) - me.pos;
    assert Place(me.pos, far, Size(s)) == i;
  }

  /**
    A thread that has a permit and is left alone, with no other thread inside a slot,
    locks a slot that suits it with at most as many probes as there are slots.
   */
  lemma ProbingAloneSucceeds(y: System, schedule: seq<Turn>, t: int) returns (probes: nat)
    requires Initial(y)
    requires t in y.threads && Run(y, schedule).threads[t].pc.LockSlot?
    requires forall u <- y.threads :: !HoldsSlot(Run(y, schedule).threads[u].pc)
    ensures 1 <= probes <= Size(y.shared)
    ensures var z := Run(Run(y, schedule), Alone(t, ProbeSteps(probes)));
            z.threads[t].pc.SetCursor? && Suits(z.shared.buffer[z.threads[t].pos], z.threads[t].role)
  {
    ReachableInv(y, schedule);
    probes := AloneFromHere(Run(y, schedule), OwnersAfter(y, schedule), t);
  }
}
