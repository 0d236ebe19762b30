/**
  What every run of the barber shop keeps, for any set of clients and any
  interleaving: the program's assertions, exclusive use of the chair, bounded
  semaphores and queue, service in order of admission, and one seating for each
  haircut.
 */
module BarberTheorems {
  import opened BarberShop
  import opened BarberInvariant
  import opened Sums

  /** The witness after `schedule`, for a run that begins in the program's initial state. */
  function WitnessAfter(s: Shop, schedule: seq<Process>): Witness {
    if schedule == [] then Witness(THE_BARBER, NOBODY, NOBODY)
    else
      var before := schedule[..|schedule| - 1];
      NextWitness(Run(s, before), WitnessAfter(s, before), schedule[|schedule| - 1])
  }

  lemma {:induction false} ReachableInv(s: Shop, schedule: seq<Process>)
    requires Initial(s)
    ensures Inv(Run(s, schedule), WitnessAfter(s, schedule))
  {
    if schedule != [] {
      var before, p := schedule[..|schedule| - 1], schedule[|schedule| - 1];
      ReachableInv(s, before);
      StepKeepsInv(Run(s, before), WitnessAfter(s, before), p);
    }
  }

  lemma StepKeepsInv(s: Shop, w: Witness, p: Process)
    requires Inv(s, w)
    ensures Inv(Step(s, p), NextWitness(s, w, p))
  {
    match p
    case Barber => BarberKeepsInv(s, w);
    case Customer(c) => if c in s.clients { ClientKeepsInv(s, w, c); }
  }

  // ----- The assertions and the chair

  /** Every assertion that some process is about to evaluate holds. */
  predicate AssertionsHold(s: Shop) {
    && (s.barber.pc.WakeCheck? || s.barber.pc.CutCheck? ==> s.shared.seated > 0)
    && (s.barber.pc.CutCheckEmpty? || s.barber.pc.InviteCheck? ==> s.shared.seated <= 0)
    && (s.barber.pc.InviteCheckSame? ==> s.shared.seated == s.barber.next)
    && (forall c <- s.clients :: s.clients[c].pc.ChairCheck? ==> s.shared.seated <= 0)
  }

  lemma AssertionsNeverFail(s: Shop, schedule: seq<Process>)
    requires Initial(s)
    ensures AssertionsHold(Run(s, schedule))
  {
    ReachableInv(s, schedule);
    var t, w := Run(s, schedule), WitnessAfter(s, schedule);
    forall c <- t.clients ensures t.clients[c].pc.ChairCheck? ==> t.shared.seated <= 0 {
      assert ClientOk(t.shared, t.barber.pc, w, c, t.clients[c].pc);
    }
  }

  /** The client has woken the barber or has been invited, and has not left the chair. */
  predicate BeingServed(s: Shop, c: int) {
    c in s.clients && Served(s.clients[c].pc)
  }

  /** At most one client is being served; the chair and the haircut's signals are that client's. */
  lemma OneClientAtATime(s: Shop, schedule: seq<Process>, c: int, d: int)
    requires Initial(s)
    requires BeingServed(Run(s, schedule), c) && BeingServed(Run(s, schedule), d)
    ensures c == d
    ensures Run(s, schedule).shared.seated == c <==> InChair(Run(s, schedule).clients[c].pc)
    ensures Run(s, schedule).shared.finished > 0 ==> Run(s, schedule).clients[c].pc.WaitFinished?
  {
    ReachableInv(s, schedule);
    var t, w := Run(s, schedule), WitnessAfter(s, schedule);
    assert ClientOk(t.shared, t.barber.pc, w, c, t.clients[c].pc);
    assert ClientOk(t.shared, t.barber.pc, w, d, t.clients[d].pc);
  }

  /** A FINISHED post can only be taken by the client in the chair. */
  lemma FinishedReachesTheSeatedClient(s: Shop, schedule: seq<Process>, c: int)
    requires Initial(s)
    requires c in Run(s, schedule).clients && Run(s, schedule).clients[c].pc.WaitFinished?
    ensures Run(s, schedule).shared.seated == c
    ensures CanMove(Run(s, schedule), Customer(c)) <==> Run(s, schedule).barber.pc.CutWaitLeft?
  {
    ReachableInv(s, schedule);
    var t, w := Run(s, schedule), WitnessAfter(s, schedule);
    assert ClientOk(t.shared, t.barber.pc, w, c, t.clients[c].pc);
    assert t.clients[c := t.clients[c]] == t.clients;
  }

  // ----- Bounds

  lemma SemaphoresAreBinary(s: Shop, schedule: seq<Process>)
    requires Initial(s)
    ensures var t := Run(s, schedule).shared;
            && t.stateLock <= 1 && t.queueLock <= 1 && t.customerAvail <= 1
            && t.currentSeated <= 1 && t.finished <= 1 && t.left <= 1
            && (forall c <- t.invited :: t.invited[c] <= 1)
  {
    ReachableInv(s, schedule);
    ClientsStay(s, schedule);
    InvitedAreClients(s, schedule);
    var t, w := Run(s, schedule), WitnessAfter(s, schedule);
    forall c <- t.shared.invited ensures t.shared.invited[c] <= 1 {
      assert ClientOk(t.shared, t.barber.pc, w, c, t.clients[c].pc);
    }
  }

  /** Only clients ever have a semaphore of their own. */
  lemma {:induction false} InvitedAreClients(s: Shop, schedule: seq<Process>)
    requires Initial(s)
    ensures forall c <- Run(s, schedule).shared.invited :: c in s.clients
  {
    if schedule != [] {
      var before := schedule[..|schedule| - 1];
      InvitedAreClients(s, before);
      ReachableInv(s, before);
      ClientsStay(s, before);
      StepInvitesClients(Run(s, before), WitnessAfter(s, before), schedule[|schedule| - 1]);
    }
  }

  lemma BarberInvites(s: Shared, b: BarberProcess, c: int)
    requires c in BarberMove(s, b).0.invited
    ensures c in s.invited || (b.pc.InviteOpen? && c == b.next)
  {
  }

  lemma ClientInvites(s: Shared, d: int, me: Client, c: int)
    requires c in ClientMove(s, d, me).0.invited
    ensures c in s.invited || c == d
  {
  }

  lemma StepInvitesClients(s: Shop, w: Witness, p: Process)
    requires Inv(s, w) && forall c <- s.shared.invited :: c in s.clients
    ensures forall c <- Step(s, p).shared.invited :: c in s.clients
  {
    forall c <- Step(s, p).shared.invited
      ensures c in s.clients
    {
      match p
      case Barber =>
        BarberInvites(s.shared, s.barber, c);
        if c !in s.shared.invited {
          NextIsClient(s, w);
        }
      case Customer(d) =>
        if d in s.clients {
          ClientInvites(s.shared, d, s.clients[d], c);
        }
    }
  }

  lemma NextIsClient(s: Shop, w: Witness)
    requires Inv(s, w) && s.barber.pc.InviteOpen?
    ensures s.barber.next in s.clients
  {
    assert s.barber.next == w.chosen && !ChosenPc(s, w).Outside?;
  }

  lemma {:induction false} ClientsStay(s: Shop, schedule: seq<Process>)
    ensures Run(s, schedule).clients.Keys == s.clients.Keys
    ensures Run(s, schedule).shared.chairs == s.shared.chairs
  {
    if schedule != [] {
      ClientsStay(s, schedule[..|schedule| - 1]);
      StepKeepsClients(Run(s, schedule[..|schedule| - 1]), schedule[|schedule| - 1]);
    }
  }

  lemma StepKeepsClients(s: Shop, p: Process)
    ensures Step(s, p).clients.Keys == s.clients.Keys && Step(s, p).shared.chairs == s.shared.chairs
  {
  }

  lemma QueueNeverExceedsChairs(s: Shop, schedule: seq<Process>)
    requires Initial(s) && 0 <= s.shared.chairs
    ensures |Run(s, schedule).shared.queue| <= s.shared.chairs
    ensures Run(s, schedule).shared.bState == Sleeping ==> Run(s, schedule).shared.queue == []
    ensures NoDuplicates(Run(s, schedule).shared.queue)
  {
    ReachableInv(s, schedule);
    ClientsStay(s, schedule);
  }

  /** A client is turned away only by a full queue, and admitted to the queue only by a free chair. */
  lemma TurnedAwayOnlyWhenFull(s: Shop, schedule: seq<Process>, c: int)
    requires Initial(s) && c in s.clients && c in Run(s, schedule).clients
    ensures var t := Run(s, schedule);
            && (t.clients[c].pc.FullUnlock? ==> |t.shared.queue| == s.shared.chairs)
            && (t.clients[c].pc.Push? ==> |t.shared.queue| != s.shared.chairs)
  {
    ReachableInv(s, schedule);
    ClientsStay(s, schedule);
    var t, w := Run(s, schedule), WitnessAfter(s, schedule);
    assert ClientOk(t.shared, t.barber.pc, w, c, t.clients[c].pc);
  }

  /** A client's own semaphore exists only while the client waits in the queue or answers the invitation. */
  lemma OwnSemaphoreOnlyWhileWaiting(s: Shop, schedule: seq<Process>, c: int)
    requires Initial(s) && c in Run(s, schedule).shared.invited
    ensures var t := Run(s, schedule);
            && c in t.clients
            && var pc := t.clients[c].pc; (pc.PushUnlock? || pc.OpenSem? || pc.WaitInvited? || pc.RemoveSem?)
  {
    ReachableInv(s, schedule);
    InvitedAreClients(s, schedule);
    ClientsStay(s, schedule);
    var t, w := Run(s, schedule), WitnessAfter(s, schedule);
    assert ClientOk(t.shared, t.barber.pc, w, c, t.clients[c].pc);
  }

  // ----- The published state of the barber

  predicate NamesPhase(bState: BarberState, b: BarberPc) {
    match b
    case SleepMark => bState == Unset || bState == Cutting
    case SleepUnlock => bState == Sleeping
    case SleepWait => bState == Sleeping || bState == Waking
    case WakeWaitSeated | WakeCheck => bState == Waking
    case CutLock | CutCheck | CutMark => bState == Waking || bState == Inviting
    case CutUnlock | CutFinish | CutWaitLeft | CutCheckEmpty | PeekLock | Peek | InviteCheck | InviteMark =>
      bState == Cutting
    case InviteUnlock | PopLock | Pop | PopUnlock | InviteOpen | InvitePost | InviteWaitSeated | InviteCheckSame =>
      bState == Inviting
  }

  /** `b_state` says what the barber does; WAKING covers the way from the wake-up call to the haircut. */
  lemma {:induction false} StateNamesThePhase(s: Shop, schedule: seq<Process>)
    requires Initial(s)
    ensures NamesPhase(Run(s, schedule).shared.bState, Run(s, schedule).barber.pc)
  {
    if schedule != [] {
      var before, p := schedule[..|schedule| - 1], schedule[|schedule| - 1];
      StateNamesThePhase(s, before);
      ReachableInv(s, before);
      StepKeepsPhase(Run(s, before), WitnessAfter(s, before), p);
    }
  }

  lemma StepKeepsPhase(s: Shop, w: Witness, p: Process)
    requires Inv(s, w) && NamesPhase(s.shared.bState, s.barber.pc)
    ensures NamesPhase(Step(s, p).shared.bState, Step(s, p).barber.pc)
  {
    match p
    case Barber => BarberKeepsPhase(s.shared, s.barber, ChosenPc(s, w), w);
    case Customer(c) =>
      if c in s.clients {
        assert ClientOk(s.shared, s.barber.pc, w, c, s.clients[c].pc);
        ClientKeepsPhase(s.shared, s.barber, ChosenPc(s, w), w, c, s.clients[c]);
      }
  }

  lemma BarberKeepsPhase(s: Shared, b: BarberProcess, x: ClientPc, w: Witness)
    requires ChosenOk(s, b, w, x) && SignalsOk(s, b.pc, x) && NamesPhase(s.bState, b.pc)
    ensures NamesPhase(BarberMove(s, b).0.bState, BarberMove(s, b).1.pc)
  {
  }

  lemma ClientKeepsPhase(s: Shared, b: BarberProcess, x: ClientPc, w: Witness, c: int, me: Client)
    requires LocksOk(s, b, w) && LockPlaceOk(s, w, c, me.pc) && NamesPhase(s.bState, b.pc)
    ensures NamesPhase(ClientMove(s, c, me).0.bState, b.pc)
  {
  }

  // ----- Order of service

  /** The client that the step of `p` admits: it takes the sleeping barber, or joins the queue. */
  function AdmittedBy(s: Shop, p: Process): seq<int> {
    if p.Customer? && p.pid in s.clients && (s.clients[p.pid].pc.WakeMark? || s.clients[p.pid].pc.Push?)
    then [p.pid] else []
  }

  /** The client that the step of `p` puts into the chair. */
  function SeatedBy(s: Shop, p: Process): seq<int> {
    if p.Customer? && p.pid in s.clients && s.clients[p.pid].pc.ChairTake? then [p.pid] else []
  }

  function Admissions(s: Shop, schedule: seq<Process>): seq<int> {
    if schedule == [] then [] else
    var before := schedule[..|schedule| - 1];
    Admissions(s, before) + AdmittedBy(Run(s, before), schedule[|schedule| - 1])
  }

  function Seatings(s: Shop, schedule: seq<Process>): seq<int> {
    if schedule == [] then [] else
    var before := schedule[..|schedule| - 1];
    Seatings(s, before) + SeatedBy(Run(s, before), schedule[|schedule| - 1])
  }

  /** The chosen client while it is still on its way to the chair. */
  function Heading(w: Witness, x: ClientPc): seq<int> {
    if x.Outside? || InChair(x) || x.LeaveSignal? then [] else [w.chosen]
  }

  function OnTheWay(s: Shop, w: Witness): seq<int> {
    Heading(w, ChosenPc(s, w))
  }

  lemma BarberStepKeepsOrder(s: Shop, w: Witness)
    requires Inv(s, w)
    ensures var t, w' := Step(s, Barber), NextWitness(s, w, Barber);
            OnTheWay(t, w') + t.shared.queue == OnTheWay(s, w) + s.shared.queue
  {
    if s.barber.pc.Pop? {
      var q := s.shared.queue;
      assert q[0] in q && q == [q[0]] + q[1..];
      assert ClientOk(s.shared, s.barber.pc, w, q[0], s.clients[q[0]].pc);
    }
  }

  lemma ClientMoveKeepsOrder(s: Shared, b: BarberProcess, w: Witness, x: ClientPc, c: int, me: Client)
    requires ChosenOk(s, b, w, x) && LengthOk(s, b.pc) && PlaceOk(s, w, c, me.pc)
    requires c == w.chosen ==> x == me.pc
    ensures Heading(w, x) + s.queue + (if me.pc.WakeMark? || me.pc.Push? then [c] else [])
              == (if me.pc.ChairTake? then [c] else [])
                 + Heading(ClientWitness(s, w, c, me), NextChosenPc(s, w, x, c, me)) + ClientMove(s, c, me).0.queue
  {
    if c == w.chosen || me.pc.WakeMark? {
      ChosenMoveKeepsOrder(s, b, w, x, c, me);
    }
  }

  lemma ChosenMoveKeepsOrder(s: Shared, b: BarberProcess, w: Witness, x: ClientPc, c: int, me: Client)
    requires ChosenOk(s, b, w, x) && LengthOk(s, b.pc) && PlaceOk(s, w, c, me.pc)
    requires if c == w.chosen then x == me.pc else me.pc.WakeMark?
    ensures Heading(w, x) + s.queue + (if me.pc.WakeMark? || me.pc.Push? then [c] else [])
              == (if me.pc.ChairTake? then [c] else [])
                 + Heading(ClientWitness(s, w, c, me), ClientMove(s, c, me).1.pc) + ClientMove(s, c, me).0.queue
  {
  }

  lemma ClientStepKeepsOrder(s: Shop, w: Witness, c: int)
    requires Inv(s, w) && c in s.clients
    ensures var p := Customer(c);
            var t, w' := Step(s, p), NextWitness(s, w, p);
            OnTheWay(s, w) + s.shared.queue + AdmittedBy(s, p) == SeatedBy(s, p) + OnTheWay(t, w') + t.shared.queue
  {
    assert ClientOk(s.shared, s.barber.pc, w, c, s.clients[c].pc);
    ClientMoveKeepsOrder(s.shared, s.barber, w, ChosenPc(s, w), c, s.clients[c]);
    ClientKeepsHolders(s, w, c);
  }

  lemma StepKeepsOrder(s: Shop, w: Witness, p: Process)
    requires Inv(s, w)
    ensures OnTheWay(s, w) + s.shared.queue + AdmittedBy(s, p)
              == SeatedBy(s, p) + OnTheWay(Step(s, p), NextWitness(s, w, p)) + Step(s, p).shared.queue
  {
    match p
    case Barber => BarberStepKeepsOrder(s, w);
    case Customer(c) => if c in s.clients { ClientStepKeepsOrder(s, w, c); }
  }

  lemma AppendBoth(before: seq<int>, way: seq<int>, queue: seq<int>, out: seq<int>,
                   add: seq<int>, take: seq<int>, way': seq<int>, queue': seq<int>)
    requires before == out + (way + queue)
    requires way + queue + add == take + way' + queue'
    ensures before + add == out + take + (way' + queue')
  {
    assert before + add == out + (way + queue + add);
    assert out + (take + way' + queue') == out + take + (way' + queue');
  }

  /**
    Clients sit down in exactly the order in which client_come_in admitted them: the
    admitted but not yet seated ones are at most one client on its way to the chair,
    followed by the queue.
   */
  lemma {:induction false} SeatedInOrderOfAdmission(s: Shop, schedule: seq<Process>)
    requires Initial(s)
    ensures Admissions(s, schedule)
              == Seatings(s, schedule)
                 + (OnTheWay(Run(s, schedule), WitnessAfter(s, schedule)) + Run(s, schedule).shared.queue)
    ensures Seatings(s, schedule) <= Admissions(s, schedule)
  {
    if schedule != [] {
      var before, p := schedule[..|schedule| - 1], schedule[|schedule| - 1];
      var t, w := Run(s, before), WitnessAfter(s, before);
      SeatedInOrderOfAdmission(s, before);
      ReachableInv(s, before);
      StepKeepsOrder(t, w, p);
      AppendBoth(Admissions(s, before), OnTheWay(t, w), t.shared.queue, Seatings(s, before), AdmittedBy(t, p),
                 SeatedBy(t, p), OnTheWay(Step(t, p), NextWitness(t, w, p)), Step(t, p).shared.queue);
    }
  }

  /** A client that takes the sleeping barber overtakes nobody. */
  lemma WakingClientOvertakesNobody(s: Shop, schedule: seq<Process>, c: int)
    requires Initial(s)
    requires c in Run(s, schedule).clients && Run(s, schedule).clients[c].pc.WakeMark?
    ensures Run(s, schedule).shared.queue == []
    ensures Seatings(s, schedule) == Admissions(s, schedule)
  {
    ReachableInv(s, schedule);
    SeatedInOrderOfAdmission(s, schedule);
    var t, w := Run(s, schedule), WitnessAfter(s, schedule);
    assert ClientOk(t.shared, t.barber.pc, w, c, t.clients[c].pc);
  }

  // ----- Haircuts

  function Occurrences(q: seq<int>, c: int): nat {
    if q == [] then 0 else Occurrences(q[..|q| - 1], c) + One(q[|q| - 1] == c)
  }

  /** Seated, but the haircut is not counted off yet. */
  predicate HairBeingCut(pc: ClientPc) {
    pc.ChairUnlock? || pc.ChairSignal? || pc.WaitFinished?
  }

  /** Every seating of a client is one haircut off the number it came with. */
  lemma {:induction false} OneHaircutForEachSeating(s: Shop, schedule: seq<Process>, c: int)
    requires Initial(s) && c in s.clients
    ensures c in Run(s, schedule).clients
    ensures var t := Run(s, schedule).clients[c];
            Occurrences(Seatings(s, schedule), c) == s.clients[c].repeats - t.repeats + One(HairBeingCut(t.pc))
  {
    ClientsStay(s, schedule);
    if schedule != [] {
      var before, p := schedule[..|schedule| - 1], schedule[|schedule| - 1];
      OneHaircutForEachSeating(s, before, c);
      var seated := SeatedBy(Run(s, before), p);
      ClientStepCounts(Run(s, before), p, c);
      if seated != [] {
        assert (Seatings(s, before) + seated)[..|Seatings(s, before)|] == Seatings(s, before);
      } else {
        assert Seatings(s, before) + seated == Seatings(s, before);
      }
    }
  }

  lemma ClientStepCounts(s: Shop, p: Process, c: int)
    requires c in s.clients
    ensures c in Step(s, p).clients
    ensures var t := Step(s, p).clients[c];
            One(SeatedBy(s, p) == [c])
              == s.clients[c].repeats - t.repeats + One(HairBeingCut(t.pc)) - One(HairBeingCut(s.clients[c].pc))
  {
  }

  /** A client that has exited was seated exactly as often as it was told to come. */
  lemma ExitedClientGotEveryHaircut(s: Shop, schedule: seq<Process>, c: int)
    requires Initial(s) && c in s.clients
    requires c in Run(s, schedule).clients && Run(s, schedule).clients[c].pc.Exited?
    ensures Occurrences(Seatings(s, schedule), c) == s.clients[c].repeats
  {
    OneHaircutForEachSeating(s, schedule, c);
    ExitedOnlyWhenDone(s, schedule, c);
  }

  lemma {:induction false} ExitedOnlyWhenDone(s: Shop, schedule: seq<Process>, c: int)
    requires Initial(s) && c in s.clients
    ensures c in Run(s, schedule).clients
    ensures Run(s, schedule).clients[c].pc.Exited? ==> Run(s, schedule).clients[c].repeats == 0
  {
    ClientsStay(s, schedule);
    if schedule != [] {
      ExitedOnlyWhenDone(s, schedule[..|schedule| - 1], c);
    }
  }
}
