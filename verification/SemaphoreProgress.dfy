/**
  From every state of the semaphore buffer with a consumer left, some continuation
  empties the buffer: the threads inside a slot leave it, and then consumers take one
  line after the other.
 */
module SemaphoreProgress {
  import opened Options
  import opened Ring
  import opened Sums
  import opened SemaphoreBuffer
  import opened SemaphoreInvariant
  import opened SemaphoreTheorems
  import Pair = SemaphorePair

  lemma {:induction false} RunConcat(y: System, a: seq<Turn>, b: seq<Turn>)
    requires ShapedSystem(y)
    ensures Run(y, a + b) == Run(Run(y, a), b)
  {
    if b == [] {
      assert a + b == a;
    } else {
      RunConcat(y, a, b[..|b| - 1]);
      assert (a + b)[..|a + b| - 1] == a + b[..|b| - 1];
    }
  }

  /** The state after `schedule` and a turn of `t`. */
  lemma OneMore(y: System, schedule: seq<Turn>, t: int)
    requires ShapedSystem(y) && t in y.threads
    ensures var z := Run(y, schedule);
            var (s, me) := Move(z.shared, z.threads[t]);
            Run(y, schedule + [Go(t)]) == System(s, z.threads[t := me])
  {
    RunOnceMore(y, schedule, Go(t));
  }

  /** The consumer has not been ended by a time-out. */
  predicate Live(y: System, c: int) {
    c in y.threads && y.threads[c].role.Consumer? && !y.threads[c].pc.Done?
  }

  // ----- The threads inside a slot leave it

  /** Steps to leave the slot. */
  function InsideRank(pc: Pc): nat {
    match pc
    case Probe => 4
    case SetCursor => 3
    case Transfer => 2
    case SkipSlot | UnlockSlot => 1
    case _ => 0
  }

  function Insiders(y: System): set<int> {
    set t | t in y.threads && HoldsSlot(y.threads[t].pc)
  }

  predicate NobodyInSlot(y: System) {
    forall t <- y.threads :: !HoldsSlot(y.threads[t].pc)
  }

  /** Nobody is inside a slot, and consumer `c` is left. */
  predicate Calm(y: System, c: int) {
    NobodyInSlot(y) && Live(y, c)
  }

  /** The same threads, in the same roles, have ended. */
  predicate SameEnded(y: System, z: System) {
    && z.threads.Keys == y.threads.Keys
    && forall t <- y.threads ::
         z.threads[t].role == y.threads[t].role && (z.threads[t].pc.Done? <==> y.threads[t].pc.Done?)
  }

  lemma InsiderMoves(s: Shared, me: Thread)
    requires Shaped(s) && me.pos < Size(s) && HoldsSlot(me.pc)
    ensures InsideRank(Move(s, me).1.pc) < InsideRank(me.pc) && !Move(s, me).1.pc.Done?
  {
  }

  lemma InsidersAfterStep(y: System, schedule: seq<Turn>, t: int)
    requires ShapedSystem(y) && t in y.threads && HoldsSlot(Run(y, schedule).threads[t].pc)
    ensures var z, z' := Run(y, schedule), Run(y, schedule + [Go(t)]);
            && SameEnded(z, z') && InsideRank(z'.threads[t].pc) < InsideRank(z.threads[t].pc)
            && Insiders(z') - {t} == Insiders(z) - {t}
  {
    var z := Run(y, schedule);
    OneMore(y, schedule, t);
    InsiderMoves(z.shared, z.threads[t]);
  }

  /** Thread `t` goes on until it has left its slot; the others stay where they are. */
  lemma {:induction false} LeaveSlot(y: System, schedule: seq<Turn>, t: int) returns (rest: seq<Turn>)
    requires ShapedSystem(y) && t in y.threads
    ensures var z, z' := Run(y, schedule), Run(y, schedule + rest);
            SameEnded(z, z') && Insiders(z') == Insiders(z) - {t}
    decreases InsideRank(Run(y, schedule).threads[t].pc)
  {
    if HoldsSlot(Run(y, schedule).threads[t].pc) {
      InsidersAfterStep(y, schedule, t);
      var more := LeaveSlot(y, schedule + [Go(t)], t);
      rest := [Go(t)] + more;
      AppendAssociates(schedule, [Go(t)], more);
    } else {
      rest := [];
      assert schedule + rest == schedule;
    }
  }

  lemma {:induction false} LeaveSlots(y: System, schedule: seq<Turn>) returns (rest: seq<Turn>)
    requires ShapedSystem(y)
    ensures NobodyInSlot(Run(y, schedule + rest)) && SameEnded(Run(y, schedule), Run(y, schedule + rest))
    decreases |Insiders(Run(y, schedule))|
  {
    if NobodyInSlot(Run(y, schedule)) {
      rest := [];
      assert schedule + rest == schedule;
    } else {
      var t :| t in y.threads && HoldsSlot(Run(y, schedule).threads[t].pc);
      var first := LeaveSlot(y, schedule, t);
      assert t in Insiders(Run(y, schedule)) && t !in Insiders(Run(y, schedule + first));
      var more := LeaveSlots(y, schedule + first);
      rest := first + more;
      AppendAssociates(schedule, first, more);
    }
  }

  // ----- A consumer takes one line

  lemma {:induction false} MovesAdd(s: Shared, me: Thread, a: nat, b: nat)
    requires Shaped(s) && me.pos < Size(s)
    ensures var (s', me') := Moves(s, me, a);
            Moves(s, me, a + b) == Moves(s', me', b)
    decreases a
  {
    if a > 0 {
      var (s', me') := Move(s, me);
      MovesAdd(s', me', a - 1, b);
    }
  }

  lemma TakeAtSlot(s: Shared, me: Thread) returns (n: nat)
    requires Shaped(s) && me.pos < Size(s) && me.pc.SetCursor? && me.role.Consumer? && s.buffer[me.pos].Some?
    ensures var (s', me') := Moves(s, me, n);
            me'.pc.Post? && me'.role.Consumer? && EmptySlots(s'.buffer) == EmptySlots(s.buffer) + 1
  {
    EmptySlotsUpdate(s.buffer, me.pos, None);
    var s1 := s.(nextRead := Succ(me.pos, Size(s)));
    var s2 := s1.(buffer := s.buffer[me.pos := None]);
    n := 3;
    assert Moves(s, me, n) == Moves(s1, me.(pc := Transfer), n - 1);
    assert Moves(s1, me.(pc := Transfer), n - 1) == Moves(s2, me.(pc := UnlockSlot), n - 2);
    MovesOnceMore(s2, me.(pc := UnlockSlot), 0);
    assert Moves(s, me, n).0.buffer == s2.buffer;
  }

  /** A consumer with a permit that runs alone empties a slot. */
  lemma AloneItTakes(s: Shared, me: Thread) returns (n: nat)
    requires Shaped(s) && me.pos < Size(s) && SlotsUnlocked(s) && me.pc.LockSlot? && me.role.Consumer?
    requires SomeSlotSuits(s.buffer, Consumer)
    ensures var (s', me') := Moves(s, me, n);
            me'.pc.Post? && me'.role.Consumer? && EmptySlots(s'.buffer) == EmptySlots(s.buffer) + 1
  {
    var far := DistanceToSuitable(s, me);
    var probes := AloneItFinds(s, me, far);
    var (s1, me1) := Moves(s, me, ProbeSteps(probes));
    var more := TakeAtSlot(s1, me1);
    MovesAdd(s, me, ProbeSteps(probes), more);
    n := ProbeSteps(probes) + more;
  }

  lemma StaysCalm(y: System, t: int, shared: Shared, me: Thread, c: int)
    requires Calm(y, c) && t in y.threads && !HoldsSlot(me.pc)
    requires t == c ==> me.role.Consumer? && !me.pc.Done?
    ensures Calm(System(shared, y.threads[t := me]), c)
  {
  }

  lemma Solo(y: System, schedule: seq<Turn>, t: int, n: nat)
    requires ShapedSystem(y) && t in y.threads
    ensures var z := Run(y, schedule);
            var (s, me) := Moves(z.shared, z.threads[t], n);
            Run(y, schedule + Alone(t, n)) == System(s, z.threads[t := me])
  {
    RunConcat(y, schedule, Alone(t, n));
    AloneIsMoves(Run(y, schedule), t, n);
  }

  /** Consumer `d` has locked no slot yet, but has a permit. */
  lemma TakeWithPermit(y: System, schedule: seq<Turn>, d: int, c: int) returns (rest: seq<Turn>)
    requires Initial(y) && Calm(Run(y, schedule), c)
    requires d in y.threads && Run(y, schedule).threads[d].role.Consumer? && Run(y, schedule).threads[d].pc.LockSlot?
    ensures Calm(Run(y, schedule + rest), c)
    ensures EmptySlots(Run(y, schedule + rest).shared.buffer) == EmptySlots(Run(y, schedule).shared.buffer) + 1
  {
    var z := Run(y, schedule);
    ReachableInv(y, schedule);
    NobodyInside(z, OwnersAfter(y, schedule));
    SuitableSlotExists(y, schedule, d);
    var n := AloneItTakes(z.shared, z.threads[d]);
    rest := Alone(d, n);
    Solo(y, schedule, d, n);
    StaysCalm(z, d, Moves(z.shared, z.threads[d], n).0, Moves(z.shared, z.threads[d], n).1, c);
  }

  /** Steps of a consumer to its permit and to its first slot. */
  function WayToSlot(pc: Pc): nat {
    match pc
    case Post => 4
    case Head => 3
    case Acquire => 2
    case ReadCursor => 1
    case _ => 0
  }

  lemma ComesToSlot(s: Shared, me: Thread)
    requires Shaped(s) && me.pos < Size(s) && me.role.Consumer? && !me.pc.Done? && !HoldsSlot(me.pc)
    requires !me.pc.LockSlot? && (HasPermit(me.pc) || s.filledSlots > 0)
    ensures var (s', me') := Move(s, me);
            && me'.role.Consumer? && !me'.pc.Done? && !HoldsSlot(me'.pc) && s'.buffer == s.buffer
            && WayToSlot(me'.pc) < WayToSlot(me.pc)
            && (HasPermit(me'.pc) || s'.filledSlots > 0)
  {
  }

  /** Consumer `d` can get or has a permit: it goes to its slot and takes a line. */
  lemma {:induction false} TakeOne(y: System, schedule: seq<Turn>, d: int, c: int) returns (rest: seq<Turn>)
    requires Initial(y) && Calm(Run(y, schedule), c) && Live(Run(y, schedule), d)
    requires HasPermit(Run(y, schedule).threads[d].pc) || Run(y, schedule).shared.filledSlots > 0
    ensures Calm(Run(y, schedule + rest), c)
    ensures EmptySlots(Run(y, schedule + rest).shared.buffer) == EmptySlots(Run(y, schedule).shared.buffer) + 1
    decreases WayToSlot(Run(y, schedule).threads[d].pc)
  {
    var z := Run(y, schedule);
    if z.threads[d].pc.LockSlot? {
      rest := TakeWithPermit(y, schedule, d, c);
    } else {
      ComesToSlot(z.shared, z.threads[d]);
      OneMore(y, schedule, d);
      StaysCalm(z, d, Move(z.shared, z.threads[d]).0, Move(z.shared, z.threads[d]).1, c);
      var more := TakeOne(y, schedule + [Go(d)], d, c);
      rest := [Go(d)] + more;
      AppendAssociates(schedule, [Go(d)], more);
    }
  }

  // ----- Emptying the buffer

  /** While a line is in the buffer, there is a permit for it, or a thread that has one or owes one. */
  lemma SomebodyHasALine(y: System, schedule: seq<Turn>)
    requires Initial(y) && EmptySlots(Run(y, schedule).shared.buffer) < Size(y.shared)
    ensures var z := Run(y, schedule);
            z.shared.filledSlots > 0 || exists t <- z.threads :: FilledShare(z.threads[t]) == 1
  {
    var z := Run(y, schedule);
    SlotsAreAccountedFor(y, schedule);
    TotalNonNegative(FilledShares(z.threads));
    if z.shared.filledSlots == 0 {
      var t :| t in z.threads && FilledShares(z.threads)[t] != 0;
      assert FilledShare(z.threads[t]) == 1;
    }
  }

  lemma PostLine(y: System, schedule: seq<Turn>, t: int, c: int)
    requires Initial(y) && Calm(Run(y, schedule), c)
    requires t in y.threads && Run(y, schedule).threads[t].role.Producer? && Run(y, schedule).threads[t].pc.Post?
    ensures var z, z' := Run(y, schedule), Run(y, schedule + [Go(t)]);
            Calm(z', c) && z'.shared.filledSlots > 0 && z'.shared.buffer == z.shared.buffer
  {
    OneMore(y, schedule, t);
    var z := Run(y, schedule);
    StaysCalm(z, t, Move(z.shared, z.threads[t]).0, Move(z.shared, z.threads[t]).1, c);
  }

  lemma TakeSome(y: System, schedule: seq<Turn>, c: int) returns (rest: seq<Turn>)
    requires Initial(y) && Calm(Run(y, schedule), c) && EmptySlots(Run(y, schedule).shared.buffer) < Size(y.shared)
    ensures Calm(Run(y, schedule + rest), c)
    ensures EmptySlots(Run(y, schedule + rest).shared.buffer) == EmptySlots(Run(y, schedule).shared.buffer) + 1
  {
    var z := Run(y, schedule);
    SomebodyHasALine(y, schedule);
    if z.shared.filledSlots > 0 {
      rest := TakeOne(y, schedule, c, c);
    } else {
      var t :| t in z.threads && FilledShare(z.threads[t]) == 1;
      if z.threads[t].role.Consumer? {
        rest := TakeOne(y, schedule, t, c);
      } else {
        PostLine(y, schedule, t, c);
        var more := TakeOne(y, schedule + [Go(t)], c, c);
        rest := [Go(t)] + more;
        AppendAssociates(schedule, [Go(t)], more);
      }
    }
  }

  lemma {:induction false} TakeAll(y: System, schedule: seq<Turn>, c: int) returns (rest: seq<Turn>)
    requires Initial(y) && Calm(Run(y, schedule), c)
    ensures EmptySlots(Run(y, schedule + rest).shared.buffer) == Size(y.shared)
    decreases Size(y.shared) - EmptySlots(Run(y, schedule).shared.buffer)
  {
    EmptySlotsBounds(Run(y, schedule).shared.buffer);
    if EmptySlots(Run(y, schedule).shared.buffer) == Size(y.shared) {
      rest := [];
      assert schedule + rest == schedule;
    } else {
      var first := TakeSome(y, schedule, c);
      EmptySlotsBounds(Run(y, schedule + first).shared.buffer);
      var more := TakeAll(y, schedule + first, c);
      rest := first + more;
      AppendAssociates(schedule, first, more);
    }
  }

  /** However a run has begun, while a consumer is left it can go on until every line written has been taken. */
  lemma EveryLineCanStillBeTaken(y: System, schedule: seq<Turn>, c: int) returns (rest: seq<Turn>)
    requires Initial(y) && Live(Run(y, schedule), c)
    ensures forall slot <- Run(y, schedule + rest).shared.buffer :: slot.None?
    ensures forall line: Line ::
              Copies(Filled(Written(y, schedule + rest)), line) == Copies(Taken(y, schedule + rest), line)
  {
    var first := LeaveSlots(y, schedule);
    var more := TakeAll(y, schedule + first, c);
    rest := first + more;
    AppendAssociates(schedule, first, more);
    EmptySlotsBounds(Run(y, schedule + rest).shared.buffer);
    forall line: Line
      ensures Copies(Filled(Written(y, schedule + rest)), line) == Copies(Taken(y, schedule + rest), line)
    {
      LinesAreConserved(y, schedule + rest, line);
      NoCopies(Run(y, schedule + rest).shared.buffer, line);
    }
  }

  // ----- Runs that lose a line

  const AT_REST := Thread(Consumer, Head, 0, [], "")

  /** Steps of a producer to its next write, or to the next wait for room. */
  function WriteRank(pc: Pc): nat {
    match pc
    case UnlockSlot => 9
    case Post => 8
    case Head => 7
    case Acquire => 6
    case ReadCursor => 5
    case LockSlot => 4
    case Probe => 3
    case SetCursor => 2
    case Transfer => 1
    case _ => 0
  }

  /** The producer has the buffer to itself, and more lines than there is room. */
  predicate Flooding(s: Shared, f: Fifo, me: Thread) {
    && Pair.PairInv(s, f, me, AT_REST) && !me.pc.Done?
    && |me.input| + |Hand(me, false)| > Size(s) - |f.items|
  }

  predicate WaitsForRoom(s: Shared, me: Thread) {
    me.pc.Acquire? && s.freeSlots == 0
  }

  lemma FloodGoesOn(s: Shared, f: Fifo, me: Thread)
    requires Flooding(s, f, me) && !WaitsForRoom(s, me) && (me.pc.LockSlot? ==> s.slotLocks[me.pos] > 0)
    ensures var (s', me') := Move(s, me);
            var f' := NextFifo(f, me.pc.Transfer?, me.role, me.line, Size(s));
            && Flooding(s', f', me')
            && (|f'.items| > |f.items| || (f' == f && WriteRank(me'.pc) < WriteRank(me.pc)))
  {
    Pair.MoveKeepsRing(s, f, me, AT_REST, me);
    if Pair.Aiming(me.pc) {
      Pair.AimSuits(s, f, me, AT_REST, me);
    }
    Pair.ProducerMoves(s, f, me, AT_REST);
  }

  /** Only `t` has left the loop head. */
  predicate Floods(y: System, f: Fifo, t: int) {
    && t in y.threads && Flooding(y.shared, f, y.threads[t])
    && forall u <- y.threads :: u != t ==> y.threads[u].pc.Head?
  }

  lemma NobodyElseLocks(y: System, owners: seq<int>, f: Fifo, t: int)
    requires Inv(y, owners) && Floods(y, f, t) && y.threads[t].pc.LockSlot?
    ensures y.shared.slotLocks[y.threads[t].pos] > 0
  {
    var pos := y.threads[t].pos;
    if owners[pos] != NOBODY {
      OwnerIsInside(y, owners, pos);
    }
  }

  lemma FloodStep(y: System, schedule: seq<Turn>, f: Fifo, t: int) returns (f': Fifo)
    requires Initial(y) && Floods(Run(y, schedule), f, t)
    requires !WaitsForRoom(Run(y, schedule).shared, Run(y, schedule).threads[t])
    ensures Floods(Run(y, schedule + [Go(t)]), f', t)
    ensures |f.items| <= |f'.items| <= Size(y.shared)
    ensures |f'.items| == |f.items| ==>
              WriteRank(Run(y, schedule + [Go(t)]).threads[t].pc) < WriteRank(Run(y, schedule).threads[t].pc)
  {
    var z := Run(y, schedule);
    ReachableInv(y, schedule);
    if z.threads[t].pc.LockSlot? {
      NobodyElseLocks(z, OwnersAfter(y, schedule), f, t);
    }
    OneMore(y, schedule, t);
    FloodGoesOn(z.shared, f, z.threads[t]);
    f' := NextFifo(f, z.threads[t].pc.Transfer?, z.threads[t].role, z.threads[t].line, Size(y.shared));
  }

  lemma {:induction false} FloodEndsWaiting(y: System, schedule: seq<Turn>, f: Fifo, t: int) returns (rest: seq<Turn>)
    requires Initial(y) && Floods(Run(y, schedule), f, t) && |f.items| <= Size(y.shared)
    ensures var z := Run(y, schedule + rest);
            && t in z.threads && z.threads[t].pc.Acquire? && z.threads[t].role.Producer?
            && forall slot <- z.shared.buffer :: slot.Some?
    decreases Size(y.shared) - |f.items|, WriteRank(Run(y, schedule).threads[t].pc)
  {
    var z := Run(y, schedule);
    if WaitsForRoom(z.shared, z.threads[t]) {
      rest := [];
      assert schedule + rest == schedule;
      FullRing(z.shared.buffer, f);
    } else {
      var f' := FloodStep(y, schedule, f, t);
      var more := FloodEndsWaiting(y, schedule + [Go(t)], f', t);
      rest := [Go(t)] + more;
      AppendAssociates(schedule, [Go(t)], more);
    }
  }

  /**
    With any capacity, a producer with more lines than slots can fill the buffer, read one
    more line, and lose it to a time-out.
   */
  lemma FullBufferLosesALine(y: System, t: int) returns (schedule: seq<Turn>)
    requires Initial(y) && t in y.threads && y.threads[t].role.Producer? && |y.threads[t].input| > Size(y.shared)
    ensures (forall slot <- Run(y, schedule).shared.buffer :: slot.Some?) && Run(y, schedule).threads[t].pc.Done?
    ensures Dropped(y, schedule, t) && WrittenOf(y, schedule, t) < y.threads[t].input
  {
    assert Run(y, []) == y && Floods(y, Fifo(0, []), t);
    var waiting := FloodEndsWaiting(y, [], Fifo(0, []), t);
    assert [] + waiting == waiting;
    RunOnceMore(y, waiting, TimeOut(t));
    schedule := waiting + [TimeOut(t)];
    TimeOutDropsTheLine(y, waiting, t);
  }
}
