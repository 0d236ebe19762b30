/**
  The barber shop never gets stuck, and from every reachable state some
  interleaving lets every client have all its haircuts and exit.
 */
module BarberProgress {
  import opened BarberShop
  import opened BarberInvariant
  import opened BarberTheorems
  import opened Sums

  // ----- What decreases: steps to the end of the next haircut

  function BarberRank(b: BarberPc, x: ClientPc): nat {
    match b
    case CutWaitLeft => if x.WaitFinished? then 0 else 40
    case CutCheckEmpty => 39
    case PeekLock => 38
    case Peek => 37
    case SleepMark => 36
    case SleepUnlock => 35
    case InviteCheck => 36
    case InviteMark => 35
    case InviteUnlock => 34
    case PopLock => 33
    case Pop => 32
    case SleepWait => if x.Outside? then 30 else 20
    case PopUnlock => 26
    case InviteOpen => 25
    case InvitePost => 24
    case InviteWaitSeated => 23
    case WakeWaitSeated => 19
    case WakeCheck => 18
    case InviteCheckSame => 17
    case CutLock => 10
    case CutCheck => 9
    case CutMark => 8
    case CutUnlock => 7
    case CutFinish => 6
  }

  function ChosenRank(x: ClientPc): nat {
    match x
    case PushUnlock => 13
    case OpenSem | WakeSignal => 12
    case WaitInvited | WakeUnlock => 11
    case RemoveSem => 10
    case ChairLock => 9
    case ChairCheck => 8
    case ChairTake => 7
    case ChairUnlock => 6
    case ChairSignal => 5
    case WaitFinished => 4
    case ChairLeave => 2
    case LeaveSignal => 1
    case _ => 0
  }

  function HaircutRank(b: BarberPc, x: ClientPc): nat {
    20 * BarberRank(b, x) + ChosenRank(x)
  }

  /** Steps to the release of the locks that a client at `pc` holds. */
  function LockRank(pc: ClientPc): nat {
    match pc
    case Look => 9
    case WakeMark | QueueLock => 8
    case Count => 7
    case FullUnlock | Push => 6
    case FullUnlockQueue | PushUnlockQueue => 5
    case PushUnlock => 4
    case _ => 0
  }

  function HolderRank(s: Shop, holder: int): nat {
    if holder in s.clients then LockRank(s.clients[holder].pc) else 0
  }

  function LocksRank(s: Shop, w: Witness): nat {
    HolderRank(s, w.queue)
    + (if w.state != w.queue then HolderRank(s, w.state) else 0)
    + (if s.barber.pc.SleepWait? && w.chosen == NOBODY && w.state == NOBODY then 20 else 0)
  }

  function Work(me: Client): int {
    if me.pc.Exited? then 0 else me.repeats + 1
  }

  function WorkOf(clients: map<int, Client>): map<int, int> {
    map c <- clients :: Work(clients[c])
  }

  // ----- A process that can move, and brings the end nearer

  predicate BarberMayGo(b: BarberPc, w: Witness, x: ClientPc) {
    || w.queue == THE_BARBER
    || (w.queue == NOBODY && w.state == THE_BARBER)
    || (w.queue == NOBODY && w.state == NOBODY
        && ((x.Outside? && !b.SleepWait?) || (x.WaitFinished? && !b.CutWaitLeft?)
            || (x.WaitInvited? && !b.InviteWaitSeated?)))
  }

  predicate ClientMayGo(b: BarberPc, w: Witness, x: ClientPc, c: int, pc: ClientPc) {
    || w.queue == c
    || (w.queue == NOBODY && w.state == c)
    || (w.queue == NOBODY && w.state == NOBODY && c == w.chosen
        && (x.WaitFinished? ==> b.CutWaitLeft?) && (x.WaitInvited? ==> b.InviteWaitSeated?))
    || (w.queue == NOBODY && w.state == NOBODY && x.Outside? && b.SleepWait? && !pc.Exited?)
  }

  lemma BarberIsNotBlocked(s: Shared, b: BarberProcess, w: Witness, x: ClientPc)
    requires Core(s, b, w, x) && BarberMayGo(b.pc, w, x)
    ensures BarberMove(s, b).1.pc != b.pc
  {
  }

  lemma BarberGoes(s: Shared, b: BarberProcess, w: Witness, x: ClientPc, front: ClientPc)
    requires Core(s, b, w, x) && BarberMayGo(b.pc, w, x)
    requires b.pc.Pop? ==> front.PushUnlock? || front.OpenSem? || front.WaitInvited?
    ensures var b' := BarberMove(s, b).1;
            && b' != b
            && HaircutRank(b'.pc, if b.pc.Pop? then front else x) < HaircutRank(b.pc, x)
  {
    BarberIsNotBlocked(s, b, w, x);
    if !b.pc.Pop? {
      BarberRankDrops(s, b, x);
    }
  }

  lemma BarberRankDrops(s: Shared, b: BarberProcess, x: ClientPc)
    requires Rendezvous(b.pc, x) && SignalsOk(s, b.pc, x) && !b.pc.Pop? && BarberMove(s, b).1.pc != b.pc
    requires LengthOk(s, b.pc)
    ensures BarberRank(BarberMove(s, b).1.pc, x) < BarberRank(b.pc, x)
  {
  }

  lemma ClientGoes(s: Shared, b: BarberProcess, w: Witness, x: ClientPc, c: int, me: Client)
    requires Core(s, b, w, x) && ClientOk(s, b.pc, w, c, me.pc) && ClientMayGo(b.pc, w, x, c, me.pc)
    requires c == w.chosen ==> x == me.pc
    ensures var me' := ClientMove(s, c, me).1;
            && me' != me
            && (Work(me') < Work(me)
                || (Work(me') == Work(me)
                    && (if c == w.chosen || me.pc.WakeMark?
                        then HaircutRank(b.pc, NextChosenPc(s, w, x, c, me)) < HaircutRank(b.pc, x)
                        else LockRank(me'.pc) < LockRank(me.pc) || (me.pc.Outside? && x.Outside? && b.pc.SleepWait?))))
  {
    if c == w.chosen || me.pc.WakeMark? {
      ChosenClientGoes(s, b, w, x, c, me);
    }
  }

  lemma ChosenClientGoes(s: Shared, b: BarberProcess, w: Witness, x: ClientPc, c: int, me: Client)
    requires Core(s, b, w, x) && ClientOk(s, b.pc, w, c, me.pc) && ClientMayGo(b.pc, w, x, c, me.pc)
    requires if c == w.chosen then x == me.pc else me.pc.WakeMark?
    ensures var me' := ClientMove(s, c, me).1;
            && me' != me
            && (Work(me') < Work(me)
                || (Work(me') == Work(me)
                    && HaircutRank(b.pc, NextChosenPc(s, w, x, c, me)) < HaircutRank(b.pc, x)))
  {
  }

  function ProcessOf(holder: int): Process {
    if holder == THE_BARBER then Barber else Customer(holder)
  }

  /** A process that can move; `idle` is a client that has not exited. */
  function Pick(s: Shop, w: Witness, idle: int): Process {
    var b, x := s.barber.pc, ChosenPc(s, w);
    if w.queue != NOBODY then ProcessOf(w.queue)
    else if w.state != NOBODY then ProcessOf(w.state)
    else if x.Outside? then (if b.SleepWait? then Customer(idle) else Barber)
    else if (x.WaitFinished? && !b.CutWaitLeft?) || (x.WaitInvited? && !b.InviteWaitSeated?) then Barber
    else Customer(w.chosen)
  }

  predicate Unfinished(s: Shop, c: int) {
    c in s.clients && !s.clients[c].pc.Exited?
  }

  lemma PickMayGo(s: Shop, w: Witness, idle: int)
    requires Inv(s, w) && Unfinished(s, idle)
    ensures var p := Pick(s, w, idle);
            if p.Barber? then BarberMayGo(s.barber.pc, w, ChosenPc(s, w))
            else p.pid in s.clients && ClientMayGo(s.barber.pc, w, ChosenPc(s, w), p.pid, s.clients[p.pid].pc)
  {
  }

  function StageRank(s: Shop, w: Witness): nat {
    HaircutRank(s.barber.pc, ChosenPc(s, w))
  }

  ghost function TotalWork(s: Shop): int {
    Total(WorkOf(s.clients))
  }

  /** The step to `t` leaves less work, or as much work and fewer steps to the next haircut. */
  ghost predicate Closer(s: Shop, w: Witness, t: Shop, w': Witness) {
    TotalWork(t) < TotalWork(s)
    || (TotalWork(t) == TotalWork(s)
        && (StageRank(t, w') < StageRank(s, w)
            || (StageRank(t, w') == StageRank(s, w) && LocksRank(t, w') < LocksRank(s, w))))
  }

  lemma BarberComesCloser(s: Shop, w: Witness)
    requires Inv(s, w) && BarberMayGo(s.barber.pc, w, ChosenPc(s, w))
    ensures CanMove(s, Barber) && Closer(s, w, Step(s, Barber), NextWitness(s, w, Barber))
  {
    var front := if s.barber.pc.Pop? then ChosenPc(s, NextWitness(s, w, Barber)) else Outside;
    if s.barber.pc.Pop? {
      assert s.shared.queue[0] in s.shared.queue;
      FrontOfQueue(s.shared, s.barber, w, front);
    }
    BarberGoes(s.shared, s.barber, w, ChosenPc(s, w), front);
  }

  /** The ranks after a move of client `c`, without looking at what the move does. */
  lemma RanksFromParts(s: Shop, w: Witness, c: int, t: Shop, w': Witness)
    requires c in s.clients && forall d <- s.clients :: 0 < d
    requires c in t.clients && t.barber == s.barber && t.clients == s.clients[c := t.clients[c]]
    requires w'.chosen == w.chosen && w.chosen != c
    requires w.queue == c || w.queue == NOBODY
    requires w.state == c <==> HoldsState(s.clients[c].pc)
    requires w.queue == c <==> HoldsQueue(s.clients[c].pc)
    requires w'.state == Holder(w.state, c, HoldsState(t.clients[c].pc))
    requires w'.queue == Holder(w.queue, c, HoldsQueue(t.clients[c].pc))
    requires if LockRank(t.clients[c].pc) < LockRank(s.clients[c].pc)
             then (s.barber.pc.SleepWait? && w.chosen == NOBODY
                   ==> s.clients[c].pc.FullUnlockQueue? || (s.clients[c].pc.Look? && HoldsState(t.clients[c].pc)))
             else s.clients[c].pc.Outside? && t.clients[c].pc.Look? && s.barber.pc.SleepWait?
                  && w.chosen == NOBODY && w.state == NOBODY
    ensures StageRank(t, w') == StageRank(s, w) && LocksRank(t, w') < LocksRank(s, w)
  {
  }

  /** While the barber sleeps, a client that holds a lock is about to wake him or is on its way out. */
  lemma HolderWhileSleeping(s: Shared, b: BarberProcess, w: Witness, c: int, me: Client)
    requires Core(s, b, w, Outside) && ClientOk(s, b.pc, w, c, me.pc)
    requires b.pc.SleepWait? && LockRank(me.pc) > 0
    ensures me.pc.FullUnlockQueue? || me.pc.WakeMark? || (me.pc.Look? && ClientMove(s, c, me).1.pc.WakeMark?)
  {
  }

  lemma ClientComesCloser(s: Shop, w: Witness, c: int)
    requires Inv(s, w) && c in s.clients && ClientMayGo(s.barber.pc, w, ChosenPc(s, w), c, s.clients[c].pc)
    ensures CanMove(s, Customer(c)) && Closer(s, w, Step(s, Customer(c)), NextWitness(s, w, Customer(c)))
  {
    var x, me := ChosenPc(s, w), s.clients[c];
    var me' := ClientMove(s.shared, c, me).1;
    var t, w' := Step(s, Customer(c)), NextWitness(s, w, Customer(c));
    ClientGoes(s.shared, s.barber, w, x, c, me);
    assert t.clients[c] == me' != s.clients[c];
    assert WorkOf(t.clients) == WorkOf(s.clients)[c := Work(me')];
    TotalUpdate(WorkOf(s.clients), c, Work(me'));
    if Work(me') == Work(me) {
      if c == w.chosen || me.pc.WakeMark? {
        ClientKeepsHolders(s, w, c);
      } else {
        RanksAfterClient(s, w, c);
      }
    }
  }

  lemma RanksAfterClient(s: Shop, w: Witness, c: int)
    requires Inv(s, w) && c in s.clients && ClientMayGo(s.barber.pc, w, ChosenPc(s, w), c, s.clients[c].pc)
    requires c != w.chosen && !s.clients[c].pc.WakeMark?
    requires Work(ClientMove(s.shared, c, s.clients[c]).1) == Work(s.clients[c])
    ensures var t, w' := Step(s, Customer(c)), NextWitness(s, w, Customer(c));
            StageRank(t, w') == StageRank(s, w) && LocksRank(t, w') < LocksRank(s, w)
  {
    var x, me := ChosenPc(s, w), s.clients[c];
    ClientGoes(s.shared, s.barber, w, x, c, me);
    if LockRank(me.pc) > 0 && s.barber.pc.SleepWait? && w.chosen == NOBODY {
      HolderWhileSleeping(s.shared, s.barber, w, c, me);
    }
    forall d <- s.clients ensures 0 < d {
      assert ClientOk(s.shared, s.barber.pc, w, d, s.clients[d].pc);
    }
    assert ClientOk(s.shared, s.barber.pc, w, c, me.pc);
    RanksFromParts(s, w, c, Step(s, Customer(c)), NextWitness(s, w, Customer(c)));
  }

  // ----- The theorems

  predicate AllExited(s: Shop) {
    forall c <- s.clients :: s.clients[c].pc.Exited?
  }

  predicate Stuck(s: Shop) {
    !CanMove(s, Barber) && forall c <- s.clients :: !CanMove(s, Customer(c))
  }

  /** No process can move exactly when every client has exited and the barber is asleep. */
  lemma NoDeadlock(s: Shop, schedule: seq<Process>)
    requires Initial(s)
    ensures Stuck(Run(s, schedule)) <==> AllExited(Run(s, schedule)) && Run(s, schedule).barber.pc.SleepWait?
  {
    ReachableInv(s, schedule);
    var t, w := Run(s, schedule), WitnessAfter(s, schedule);
    if !AllExited(t) {
      var idle :| idle in t.clients && !t.clients[idle].pc.Exited?;
      PickComesCloser(t, w, idle);
    } else {
      BarberWaitsForClients(t, w);
    }
  }

  lemma BarberWaitsForClients(s: Shop, w: Witness)
    requires Inv(s, w) && AllExited(s)
    ensures Stuck(s) <==> s.barber.pc.SleepWait?
  {
    assert ChosenPc(s, w).Outside?;
    if !s.barber.pc.SleepWait? {
      forall c <- s.clients ensures w.state != c && w.queue != c {
        assert ClientOk(s.shared, s.barber.pc, w, c, s.clients[c].pc);
      }
      BarberComesCloser(s, w);
    } else {
      forall c <- s.clients ensures !CanMove(s, Customer(c)) {
        assert ClientMove(s.shared, c, s.clients[c]) == (s.shared, s.clients[c]);
        assert s.clients[c := s.clients[c]] == s.clients;
      }
    }
  }

  lemma PickComesCloser(s: Shop, w: Witness, idle: int)
    requires Inv(s, w) && Unfinished(s, idle)
    ensures var p := Pick(s, w, idle);
            && CanMove(s, p) && (p.Customer? ==> p.pid in s.clients)
            && Closer(s, w, Step(s, p), NextWitness(s, w, p))
  {
    PickMayGo(s, w, idle);
    match Pick(s, w, idle)
    case Barber => BarberComesCloser(s, w);
    case Customer(c) => ClientComesCloser(s, w, c);
  }

  /** Still owes a haircut: between coming in and the end of the haircut. */
  predicate InShop(pc: ClientPc) {
    !(pc.Outside? || pc.Exited? || pc.ChairLeave? || pc.LeaveSignal?)
  }

  predicate RepeatsOk(s: Shop) {
    forall c <- s.clients :: 0 <= s.clients[c].repeats && (InShop(s.clients[c].pc) ==> 0 < s.clients[c].repeats)
  }

  lemma WorkNonNegative(s: Shop)
    requires RepeatsOk(s)
    ensures 0 <= TotalWork(s)
  {
    TotalNonNegative(WorkOf(s.clients));
  }

  /** From a state that satisfies the invariant, some interleaving finishes all the work. */
  lemma {:induction false} CanFinish(s: Shop, w: Witness) returns (rest: seq<Process>)
    requires Inv(s, w) && RepeatsOk(s)
    ensures AllExited(Run(s, rest))
    decreases TotalWork(s), StageRank(s, w), LocksRank(s, w)
  {
    if AllExited(s) {
      rest := [];
    } else {
      var idle :| idle in s.clients && !s.clients[idle].pc.Exited?;
      var p := Pick(s, w, idle);
      PickComesCloser(s, w, idle);
      StepKeepsInv(s, w, p);
      StepKeepsRepeats(s, p);
      WorkNonNegative(s);
      WorkNonNegative(Step(s, p));
      var more := CanFinish(Step(s, p), NextWitness(s, w, p));
      rest := [p] + more;
      RunConcat(s, [p], more);
      assert Run(s, [p]) == Step(s, p);
    }
  }

  /** `repeats` is only ever counted down from a positive number. */
  lemma StepKeepsRepeats(s: Shop, p: Process)
    requires RepeatsOk(s)
    ensures RepeatsOk(Step(s, p))
  {
  }

  lemma {:induction false} ReachableRepeats(s: Shop, schedule: seq<Process>)
    requires Initial(s) && forall c <- s.clients :: 0 <= s.clients[c].repeats
    ensures RepeatsOk(Run(s, schedule))
  {
    if schedule != [] {
      ReachableRepeats(s, schedule[..|schedule| - 1]);
      StepKeepsRepeats(Run(s, schedule[..|schedule| - 1]), schedule[|schedule| - 1]);
    }
  }

  /**
    However a run has begun, it can go on until every client has exited, and then each of
    them has been seated exactly as often as it was told to come.
   */
  lemma EveryHaircutCanStillHappen(s: Shop, schedule: seq<Process>) returns (rest: seq<Process>)
    requires Initial(s) && forall c <- s.clients :: 0 <= s.clients[c].repeats
    ensures AllExited(Run(s, schedule + rest))
    ensures forall c <- s.clients :: Occurrences(Seatings(s, schedule + rest), c) == s.clients[c].repeats
  {
    ReachableInv(s, schedule);
    ReachableRepeats(s, schedule);
    rest := CanFinish(Run(s, schedule), WitnessAfter(s, schedule));
    RunConcat(s, schedule, rest);
    ClientsStay(s, schedule + rest);
    forall c <- s.clients ensures Occurrences(Seatings(s, schedule + rest), c) == s.clients[c].repeats {
      ExitedClientGotEveryHaircut(s, schedule + rest, c);
    }
  }

  lemma {:induction false} NegativeNeverExits(s: Shop, schedule: seq<Process>, c: int)
    requires Initial(s) && c in s.clients && s.clients[c].repeats < 0
    ensures c in Run(s, schedule).clients
    ensures Run(s, schedule).clients[c].repeats < 0 && !Run(s, schedule).clients[c].pc.Exited?
  {
    if schedule != [] {
      NegativeNeverExits(s, schedule[..|schedule| - 1], c);
    }
  }

  /** A run can be continued until the shop is empty exactly when no client began with negative repeats. */
  lemma ShopCanEmptyExactlyWhen(s: Shop, schedule: seq<Process>)
    requires Initial(s)
    ensures (exists rest :: AllExited(Run(s, schedule + rest)))
              <==> (forall c <- s.clients :: 0 <= s.clients[c].repeats)
  {
    if forall c <- s.clients :: 0 <= s.clients[c].repeats {
      var rest := EveryHaircutCanStillHappen(s, schedule);
      assert AllExited(Run(s, schedule + rest));
    } else {
      var c :| c in s.clients && s.clients[c].repeats < 0;
      forall rest
        ensures !AllExited(Run(s, schedule + rest))
      {
        NegativeNeverExits(s, schedule + rest, c);
      }
    }
  }
}
