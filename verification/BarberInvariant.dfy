/**
  The inductive invariant of the barber shop.  It is stated relative to a witness
  that names the holder of each of the two locks and the client that has been
  chosen (it woke the barber, or was popped from the queue) and has not left yet.
  With the witness given, the invariant speaks about one client at a time.
 */
module BarberInvariant {
  import opened BarberShop
  import opened Sums

  const NOBODY := 0
  const THE_BARBER := -1

  /** Holder of BARBER_STATE_LOCK, holder of QUEUE_LOCK, and the chosen client. */
  datatype Witness = Witness(state: int, queue: int, chosen: int)

  predicate BarberHoldsState(pc: BarberPc) {
    pc.SleepMark? || pc.SleepUnlock? || pc.CutCheck? || pc.CutMark? || pc.CutUnlock? || pc.Peek?
    || pc.InviteCheck? || pc.InviteMark? || pc.InviteUnlock?
  }

  predicate BarberHoldsQueue(pc: BarberPc) {
    pc.Pop? || pc.PopUnlock?
  }

  predicate HoldsState(pc: ClientPc) {
    pc.Look? || pc.WakeMark? || pc.WakeSignal? || pc.WakeUnlock? || pc.QueueLock? || pc.Count? || pc.FullUnlock?
    || pc.Push? || pc.PushUnlockQueue? || pc.PushUnlock? || pc.ChairCheck? || pc.ChairTake? || pc.ChairUnlock?
  }

  predicate HoldsQueue(pc: ClientPc) {
    pc.Count? || pc.FullUnlock? || pc.FullUnlockQueue? || pc.Push? || pc.PushUnlockQueue?
  }

  /** In the queue, or popped from it and not yet past the wait for the invitation. */
  predicate Waiting(pc: ClientPc) {
    pc.PushUnlockQueue? || pc.PushUnlock? || pc.OpenSem? || pc.WaitInvited?
  }

  /** Between the chair's lock and the wait for the haircut to end. */
  predicate Seating(pc: ClientPc) {
    pc.ChairLock? || pc.ChairCheck? || pc.ChairTake? || pc.ChairUnlock? || pc.ChairSignal? || pc.WaitFinished?
  }

  /** Only a chosen client is at one of these points. */
  predicate Served(pc: ClientPc) {
    Seating(pc) || pc.WakeSignal? || pc.WakeUnlock? || pc.RemoveSem? || pc.ChairLeave? || pc.LeaveSignal?
  }

  /** The client's pid is in the shared field `seated_client`. */
  predicate InChair(pc: ClientPc) {
    pc.ChairUnlock? || pc.ChairSignal? || pc.WaitFinished? || pc.ChairLeave?
  }

  /** The barber has popped the client he is about to seat. */
  predicate HasPopped(pc: BarberPc) {
    pc.PopUnlock? || pc.InviteOpen? || pc.InvitePost? || pc.InviteWaitSeated? || pc.InviteCheckSame?
  }

  /** Where the chosen client may be while the barber is at `b`; Outside: nobody is chosen. */
  predicate Rendezvous(b: BarberPc, x: ClientPc) {
    match b
    case SleepMark | SleepUnlock | CutCheckEmpty | PeekLock | Peek
       | InviteCheck | InviteMark | InviteUnlock | PopLock | Pop => x.Outside?
    case SleepWait => x.Outside? || Seating(x) || x.WakeSignal? || x.WakeUnlock?
    case WakeWaitSeated => Seating(x) || x.WakeUnlock?
    case WakeCheck | CutLock | CutCheck | CutMark | CutUnlock | CutFinish | InviteCheckSame => x.WaitFinished?
    case CutWaitLeft => x.Outside? || x.WaitFinished? || x.ChairLeave? || x.LeaveSignal?
    case PopUnlock | InviteOpen | InvitePost => x.PushUnlock? || x.OpenSem? || x.WaitInvited?
    case InviteWaitSeated => x.PushUnlock? || x.OpenSem? || x.WaitInvited? || x.RemoveSem? || Seating(x)
  }

  predicate LocksOk(s: Shared, b: BarberProcess, w: Witness) {
    && (w.state == THE_BARBER <==> BarberHoldsState(b.pc))
    && (w.queue == THE_BARBER <==> BarberHoldsQueue(b.pc))
    && s.stateLock == (if w.state == NOBODY then 1 else 0)
    && s.queueLock == (if w.queue == NOBODY then 1 else 0)
  }

  /** `x` is where the chosen client is, or Outside when there is none. */
  predicate ChosenOk(s: Shared, b: BarberProcess, w: Witness, x: ClientPc) {
    && w.chosen >= 0
    && (w.chosen == NOBODY <==> x.Outside?)
    && Rendezvous(b.pc, x)
    && (HasPopped(b.pc) ==> b.next == w.chosen)
    && s.seated == (if InChair(x) then w.chosen else NO_CLIENT)
    && (s.bState == Sleeping <==> b.pc.SleepUnlock? || (b.pc.SleepWait? && x.Outside?))
  }

  /** The four signalling semaphores. */
  predicate SignalsOk(s: Shared, b: BarberPc, x: ClientPc) {
    && s.customerAvail == One(b.SleepWait? && !x.Outside? && !x.WakeSignal?)
    && s.currentSeated == One(x.WaitFinished? && (b.SleepWait? || b.WakeWaitSeated? || b.InviteWaitSeated?))
    && s.finished == One(x.WaitFinished? && b.CutWaitLeft?)
    && s.left == One(x.Outside? && b.CutWaitLeft?)
  }

  predicate NoDuplicates(q: seq<int>) {
    forall i, j :: 0 <= i < j < |q| ==> q[i] != q[j]
  }

  lemma PopFront(q: seq<int>)
    requires q != [] && NoDuplicates(q)
    ensures NoDuplicates(q[1..]) && q[0] !in q[1..]
    ensures forall c :: c in q <==> c == q[0] || c in q[1..]
  {
    assert q == [q[0]] + q[1..];
  }

  /** The queue holds distinct pids, none of them the chosen client's. */
  predicate MembersOk(q: seq<int>, chosen: int) {
    NoDuplicates(q) && chosen !in q && forall i :: 0 <= i < |q| ==> 0 < q[i]
  }

  predicate LengthOk(s: Shared, b: BarberPc) {
    && (s.chairs >= 0 ==> |s.queue| <= s.chairs)
    && (s.bState == Sleeping || b.SleepMark? ==> s.queue == [])
    && (b.InviteCheck? || b.InviteMark? || b.InviteUnlock? || b.PopLock? || b.Pop? ==> s.queue != [])
  }

  predicate LockPlaceOk(s: Shared, w: Witness, c: int, pc: ClientPc) {
    && 0 < c
    && (HoldsState(pc) <==> w.state == c)
    && (HoldsQueue(pc) <==> w.queue == c)
    && (pc.WakeMark? ==> s.bState == Sleeping)
    && (pc.QueueLock? || pc.Count? || pc.FullUnlock? || pc.Push? ==> s.bState != Sleeping)
    && (pc.Push? ==> |s.queue| != s.chairs)
    && (pc.FullUnlock? ==> |s.queue| == s.chairs)
  }

  predicate QueuePlaceOk(s: Shared, w: Witness, c: int, pc: ClientPc) {
    && (c in s.queue ==> Waiting(pc))
    && (Waiting(pc) ==> c in s.queue || c == w.chosen)
    && (Served(pc) ==> c == w.chosen)
  }

  predicate PlaceOk(s: Shared, w: Witness, c: int, pc: ClientPc) {
    LockPlaceOk(s, w, c, pc) && QueuePlaceOk(s, w, c, pc)
  }

  /** When the client's own semaphore exists; it is 1 just between the barber's post and the client's wait. */
  predicate SemaphoreOk(s: Shared, b: BarberPc, w: Witness, c: int, pc: ClientPc) {
    SemaphoreExists(s, b, w, c, pc) && SemaphoreValue(s, b, w, c, pc)
  }

  predicate SemaphoreExists(s: Shared, b: BarberPc, w: Witness, c: int, pc: ClientPc) {
    c in s.invited <==>
      pc.WaitInvited? || pc.RemoveSem?
      || (c == w.chosen && (b.InvitePost? || b.InviteWaitSeated?) && (pc.PushUnlock? || pc.OpenSem?))
  }

  predicate SemaphoreValue(s: Shared, b: BarberPc, w: Witness, c: int, pc: ClientPc) {
    c in s.invited ==> s.invited[c] == One(c == w.chosen && b.InviteWaitSeated? && Waiting(pc))
  }

  predicate ClientOk(s: Shared, b: BarberPc, w: Witness, c: int, pc: ClientPc) {
    PlaceOk(s, w, c, pc) && SemaphoreOk(s, b, w, c, pc)
  }

  predicate Core(s: Shared, b: BarberProcess, w: Witness, x: ClientPc) {
    && LocksOk(s, b, w) && ChosenOk(s, b, w, x) && SignalsOk(s, b.pc, x)
    && MembersOk(s.queue, w.chosen) && LengthOk(s, b.pc)
  }

  function Holder(before: int, me: int, holdsNow: bool): int {
    if holdsNow then me else if before == me then NOBODY else before
  }

  /** The witness after a step of the barber. */
  function BarberWitness(s: Shared, b: BarberProcess, w: Witness): Witness {
    var pc := BarberMove(s, b).1.pc;
    Witness(Holder(w.state, THE_BARBER, BarberHoldsState(pc)),
            Holder(w.queue, THE_BARBER, BarberHoldsQueue(pc)),
            if b.pc.Pop? && s.queue != [] then s.queue[0] else w.chosen)
  }

  /** The witness after a step of client `c`. */
  function ClientWitness(s: Shared, w: Witness, c: int, me: Client): Witness {
    var pc := ClientMove(s, c, me).1.pc;
    Witness(Holder(w.state, c, HoldsState(pc)),
            Holder(w.queue, c, HoldsQueue(pc)),
            if me.pc.WakeMark? then c else if me.pc.LeaveSignal? then NOBODY else w.chosen)
  }

  lemma BarberKeepsLocks(s: Shared, b: BarberProcess, w: Witness)
    requires LocksOk(s, b, w)
    ensures var (t, b') := BarberMove(s, b);
            LocksOk(t, b', BarberWitness(s, b, w))
  {
  }

  /** The client that the barber pops has left the critical section in which it queued. */
  lemma FrontOfQueue(s: Shared, b: BarberProcess, w: Witness, front: ClientPc)
    requires b.pc.Pop? && LocksOk(s, b, w) && MembersOk(s.queue, w.chosen) && LengthOk(s, b.pc)
    requires s.queue != [] ==> PlaceOk(s, w, s.queue[0], front)
    ensures s.queue != [] && 0 < s.queue[0] && (front.PushUnlock? || front.OpenSem? || front.WaitInvited?)
  {
  }

  lemma BarberKeepsChosen(s: Shared, b: BarberProcess, w: Witness, x: ClientPc, front: ClientPc)
    requires ChosenOk(s, b, w, x) && SignalsOk(s, b.pc, x)
    requires b.pc.Pop? ==>
               s.queue != [] && 0 < s.queue[0] && (front.PushUnlock? || front.OpenSem? || front.WaitInvited?)
    ensures var (t, b') := BarberMove(s, b);
            var w', x' := BarberWitness(s, b, w), if b.pc.Pop? then front else x;
            ChosenOk(t, b', w', x')
  {
    if !b.pc.Pop? {
      BarberKeepsChoice(s, b, w, x);
    }
  }

  lemma BarberKeepsChoice(s: Shared, b: BarberProcess, w: Witness, x: ClientPc)
    requires ChosenOk(s, b, w, x) && SignalsOk(s, b.pc, x) && !b.pc.Pop?
    ensures var (t, b') := BarberMove(s, b);
            ChosenOk(t, b', BarberWitness(s, b, w), x)
  {
    BarberKeepsRendezvous(s, b, x);
  }

  lemma BarberKeepsRendezvous(s: Shared, b: BarberProcess, x: ClientPc)
    requires Rendezvous(b.pc, x) && SignalsOk(s, b.pc, x) && !b.pc.Pop?
    ensures Rendezvous(BarberMove(s, b).1.pc, x)
  {
  }

  lemma BarberKeepsSignals(s: Shared, b: BarberProcess, w: Witness, x: ClientPc, front: ClientPc)
    requires ChosenOk(s, b, w, x) && SignalsOk(s, b.pc, x)
    ensures var (t, b') := BarberMove(s, b);
            SignalsOk(t, b'.pc, if b.pc.Pop? then front else x)
  {
  }

  lemma BarberKeepsMembers(s: Shared, b: BarberProcess, w: Witness)
    requires MembersOk(s.queue, w.chosen)
    ensures MembersOk(BarberMove(s, b).0.queue, BarberWitness(s, b, w).chosen)
  {
    if b.pc.Pop? && s.queue != [] {
      PopFront(s.queue);
    }
  }

  lemma BarberKeepsLength(s: Shared, b: BarberProcess, w: Witness, x: ClientPc)
    requires ChosenOk(s, b, w, x) && LengthOk(s, b.pc)
    requires MembersOk(s.queue, w.chosen)
    ensures var (t, b') := BarberMove(s, b);
            LengthOk(t, b'.pc)
  {
  }

  lemma BarberKeepsLockPlace(s: Shared, b: BarberProcess, w: Witness, c: int, pc: ClientPc)
    requires LocksOk(s, b, w) && LockPlaceOk(s, w, c, pc)
    ensures LockPlaceOk(BarberMove(s, b).0, BarberWitness(s, b, w), c, pc)
  {
  }

  lemma BarberKeepsQueuePlace(s: Shared, b: BarberProcess, w: Witness, x: ClientPc, c: int, pc: ClientPc)
    requires ChosenOk(s, b, w, x) && MembersOk(s.queue, w.chosen) && QueuePlaceOk(s, w, c, pc)
    requires 0 < c
    ensures QueuePlaceOk(BarberMove(s, b).0, BarberWitness(s, b, w), c, pc)
  {
    if b.pc.Pop? && s.queue != [] {
      PopFront(s.queue);
    }
  }

  lemma BarberKeepsSemaphore(s: Shared, b: BarberProcess, w: Witness, x: ClientPc, c: int, pc: ClientPc)
    requires ChosenOk(s, b, w, x) && SignalsOk(s, b.pc, x) && ClientOk(s, b.pc, w, c, pc)
    requires c == w.chosen ==> x == pc
    ensures var (t, b') := BarberMove(s, b);
            SemaphoreOk(t, b'.pc, BarberWitness(s, b, w), c, pc)
  {
    BarberKeepsSemaphoreValue(s, b, w, x, c, pc);
  }

  lemma BarberKeepsSemaphoreValue(s: Shared, b: BarberProcess, w: Witness, x: ClientPc, c: int, pc: ClientPc)
    requires ChosenOk(s, b, w, x) && SignalsOk(s, b.pc, x) && ClientOk(s, b.pc, w, c, pc)
    requires c == w.chosen ==> x == pc
    ensures var (t, b') := BarberMove(s, b);
            SemaphoreValue(t, b'.pc, BarberWitness(s, b, w), c, pc)
  {
  }

  /** Where the chosen client is after a step of client `c`. */
  function NextChosenPc(s: Shared, w: Witness, x: ClientPc, c: int, me: Client): ClientPc {
    if me.pc.WakeMark? || w.chosen == c then ClientMove(s, c, me).1.pc else x
  }

  lemma ClientKeepsLocks(s: Shared, b: BarberProcess, w: Witness, c: int, me: Client)
    requires LocksOk(s, b, w) && PlaceOk(s, w, c, me.pc)
    ensures var t, w' := ClientMove(s, c, me).0, ClientWitness(s, w, c, me);
            LocksOk(t, b, w')
  {
  }

  /** The client that takes the sleeping barber becomes the chosen one. */
  lemma WakerIsChosen(s: Shared, b: BarberProcess, w: Witness, x: ClientPc, c: int, me: Client)
    requires LocksOk(s, b, w) && ChosenOk(s, b, w, x) && LockPlaceOk(s, w, c, me.pc) && me.pc.WakeMark?
    ensures ChosenOk(ClientMove(s, c, me).0, b, ClientWitness(s, w, c, me), NextChosenPc(s, w, x, c, me))
  {
  }

  lemma ChosenGoesOn(s: Shared, b: BarberProcess, w: Witness, c: int, me: Client)
    requires ChosenOk(s, b, w, me.pc) && SignalsOk(s, b.pc, me.pc) && SemaphoreOk(s, b.pc, w, c, me.pc)
    requires 0 < c == w.chosen && !me.pc.WakeMark?
    ensures ChosenOk(ClientMove(s, c, me).0, b, ClientWitness(s, w, c, me), NextChosenPc(s, w, me.pc, c, me))
  {
  }

  lemma BystanderChangesNoChoice(s: Shared, b: BarberProcess, w: Witness, x: ClientPc, c: int, me: Client)
    requires ChosenOk(s, b, w, x) && QueuePlaceOk(s, w, c, me.pc) && c != w.chosen && !me.pc.WakeMark?
    ensures ChosenOk(ClientMove(s, c, me).0, b, ClientWitness(s, w, c, me), NextChosenPc(s, w, x, c, me))
  {
  }

  lemma ClientKeepsChosen(s: Shared, b: BarberProcess, w: Witness, x: ClientPc, c: int, me: Client)
    requires LocksOk(s, b, w) && ChosenOk(s, b, w, x) && SignalsOk(s, b.pc, x) && ClientOk(s, b.pc, w, c, me.pc)
    requires c == w.chosen ==> x == me.pc
    ensures ChosenOk(ClientMove(s, c, me).0, b, ClientWitness(s, w, c, me), NextChosenPc(s, w, x, c, me))
  {
    if me.pc.WakeMark? {
      WakerIsChosen(s, b, w, x, c, me);
    } else if c == w.chosen {
      ChosenGoesOn(s, b, w, c, me);
    } else {
      BystanderChangesNoChoice(s, b, w, x, c, me);
    }
  }

  lemma ClientKeepsSignals(s: Shared, b: BarberProcess, w: Witness, x: ClientPc, c: int, me: Client)
    requires ChosenOk(s, b, w, x) && SignalsOk(s, b.pc, x) && ClientOk(s, b.pc, w, c, me.pc)
    requires c == w.chosen ==> x == me.pc
    ensures var t, w' := ClientMove(s, c, me).0, ClientWitness(s, w, c, me);
            var x' := NextChosenPc(s, w, x, c, me);
            SignalsOk(t, b.pc, x')
  {
  }

  lemma ClientKeepsMembers(s: Shared, b: BarberProcess, w: Witness, x: ClientPc, c: int, me: Client)
    requires ChosenOk(s, b, w, x) && MembersOk(s.queue, w.chosen) && PlaceOk(s, w, c, me.pc)
    requires c == w.chosen ==> x == me.pc
    ensures MembersOk(ClientMove(s, c, me).0.queue, ClientWitness(s, w, c, me).chosen)
  {
  }

  lemma ClientKeepsLength(s: Shared, b: BarberProcess, w: Witness, x: ClientPc, c: int, me: Client)
    requires LocksOk(s, b, w) && ChosenOk(s, b, w, x) && LengthOk(s, b.pc) && PlaceOk(s, w, c, me.pc)
    ensures LengthOk(ClientMove(s, c, me).0, b.pc)
  {
  }

  lemma ClientKeepsOwnLockPlace(s: Shared, b: BarberProcess, w: Witness, c: int, me: Client)
    requires LocksOk(s, b, w) && LockPlaceOk(s, w, c, me.pc)
    ensures var (t, me') := ClientMove(s, c, me);
            LockPlaceOk(t, ClientWitness(s, w, c, me), c, me'.pc)
  {
  }

  lemma ClientKeepsOwnQueuePlace(s: Shared, b: BarberProcess, w: Witness, x: ClientPc, c: int, me: Client)
    requires ChosenOk(s, b, w, x) && w.chosen !in s.queue && ClientOk(s, b.pc, w, c, me.pc)
    requires c == w.chosen ==> x == me.pc
    ensures var (t, me') := ClientMove(s, c, me);
            QueuePlaceOk(t, ClientWitness(s, w, c, me), c, me'.pc)
  {
  }

  lemma ClientKeepsOwnSemaphore(s: Shared, b: BarberProcess, w: Witness, x: ClientPc, c: int, me: Client)
    requires ChosenOk(s, b, w, x) && SignalsOk(s, b.pc, x) && ClientOk(s, b.pc, w, c, me.pc)
    requires c == w.chosen ==> x == me.pc
    ensures var (t, me') := ClientMove(s, c, me);
            SemaphoreOk(t, b.pc, ClientWitness(s, w, c, me), c, me'.pc)
  {
    ClientKeepsOwnSemaphoreValue(s, b, w, x, c, me);
  }

  lemma ClientKeepsOwnSemaphoreValue(s: Shared, b: BarberProcess, w: Witness, x: ClientPc, c: int, me: Client)
    requires ChosenOk(s, b, w, x) && SignalsOk(s, b.pc, x) && ClientOk(s, b.pc, w, c, me.pc)
    requires c == w.chosen ==> x == me.pc
    ensures var (t, me') := ClientMove(s, c, me);
            SemaphoreValue(t, b.pc, ClientWitness(s, w, c, me), c, me'.pc)
  {
  }

  lemma ClientKeepsOtherLockPlace(s: Shared, b: BarberProcess, w: Witness, c: int, me: Client, d: int, pc: ClientPc)
    requires LocksOk(s, b, w) && LockPlaceOk(s, w, c, me.pc)
    requires c != d && LockPlaceOk(s, w, d, pc)
    ensures LockPlaceOk(ClientMove(s, c, me).0, ClientWitness(s, w, c, me), d, pc)
  {
  }

  lemma ClientKeepsOtherQueuePlace(s: Shared, b: BarberProcess, w: Witness, x: ClientPc,
        c: int, me: Client, d: int, pc: ClientPc)
    requires ChosenOk(s, b, w, x) && PlaceOk(s, w, c, me.pc)
    requires c == w.chosen ==> x == me.pc
    requires c != d && 0 < d && QueuePlaceOk(s, w, d, pc)
    ensures QueuePlaceOk(ClientMove(s, c, me).0, ClientWitness(s, w, c, me), d, pc)
  {
  }

  lemma ClientKeepsOtherSemaphore(s: Shared, b: BarberProcess, w: Witness, x: ClientPc,
        c: int, me: Client, d: int, pc: ClientPc)
    requires ChosenOk(s, b, w, x) && PlaceOk(s, w, c, me.pc)
    requires c == w.chosen ==> x == me.pc
    requires c != d && ClientOk(s, b.pc, w, d, pc)
    ensures SemaphoreOk(ClientMove(s, c, me).0, b.pc, ClientWitness(s, w, c, me), d, pc)
  {
    LeavesOtherSemaphoreAlone(s, c, me, d);
  }

  lemma LeavesOtherSemaphoreAlone(s: Shared, c: int, me: Client, d: int)
    requires c != d
    ensures var t := ClientMove(s, c, me).0;
            (d in t.invited <==> d in s.invited) && (d in s.invited ==> t.invited[d] == s.invited[d])
  {
  }

  function ChosenPc(s: Shop, w: Witness): ClientPc {
    if w.chosen in s.clients then s.clients[w.chosen].pc else Outside
  }

  predicate HolderOk(s: Shop, holder: int) {
    holder == NOBODY || holder == THE_BARBER || holder in s.clients
  }

  predicate Inv(s: Shop, w: Witness) {
    && HolderOk(s, w.state) && HolderOk(s, w.queue)
    && Core(s.shared, s.barber, w, ChosenPc(s, w))
    && (forall c <- s.shared.queue :: c in s.clients)
    && (forall c <- s.clients :: ClientOk(s.shared, s.barber.pc, w, c, s.clients[c].pc))
  }

  function NextWitness(s: Shop, w: Witness, p: Process): Witness {
    match p
    case Barber => BarberWitness(s.shared, s.barber, w)
    case Customer(c) => if c in s.clients then ClientWitness(s.shared, w, c, s.clients[c]) else w
  }

  lemma BarberKeepsCore(s: Shop, w: Witness, t: Shop, w': Witness)
    requires Inv(s, w)
    requires t == Step(s, Barber) && w' == NextWitness(s, w, Barber)
    ensures Core(t.shared, t.barber, w', if s.barber.pc.Pop? then ChosenPc(s, w') else ChosenPc(s, w))
  {
    var x := ChosenPc(s, w);
    var front := if s.shared.queue != [] && s.shared.queue[0] in s.clients
      then s.clients[s.shared.queue[0]].pc else Outside;
    if s.barber.pc.Pop? {
      FrontOfQueue(s.shared, s.barber, w, front);
    }
    BarberKeepsLocks(s.shared, s.barber, w);
    BarberKeepsChosen(s.shared, s.barber, w, x, front);
    BarberKeepsSignals(s.shared, s.barber, w, x, front);
    BarberKeepsMembers(s.shared, s.barber, w);
    BarberKeepsLength(s.shared, s.barber, w, x);
  }

  lemma BarberKeepsClient(s: Shop, w: Witness, c: int)
    requires Inv(s, w) && c in s.clients
    ensures var (t, b) := BarberMove(s.shared, s.barber);
            ClientOk(t, b.pc, BarberWitness(s.shared, s.barber, w), c, s.clients[c].pc)
  {
    BarberKeepsLockPlace(s.shared, s.barber, w, c, s.clients[c].pc);
    BarberKeepsQueuePlace(s.shared, s.barber, w, ChosenPc(s, w), c, s.clients[c].pc);
    BarberKeepsSemaphore(s.shared, s.barber, w, ChosenPc(s, w), c, s.clients[c].pc);
  }

  lemma BarberKeepsInv(s: Shop, w: Witness)
    requires Inv(s, w)
    ensures Inv(Step(s, Barber), NextWitness(s, w, Barber))
  {
    var (t, b) := BarberMove(s.shared, s.barber);
    var w' := NextWitness(s, w, Barber);
    BarberKeepsCore(s, w, Step(s, Barber), w');
    forall c <- s.clients
      ensures ClientOk(t, b.pc, w', c, s.clients[c].pc)
    {
      BarberKeepsClient(s, w, c);
    }
    BarberKeepsHolders(s, w);
    InvAfterBarber(s, t, b, w');
  }

  lemma BarberKeepsHolders(s: Shop, w: Witness)
    requires Inv(s, w)
    ensures var w' := NextWitness(s, w, Barber);
            && HolderOk(s, w'.state) && HolderOk(s, w'.queue)
            && (forall c <- BarberMove(s.shared, s.barber).0.queue :: c in s.clients)
            && (!s.barber.pc.Pop? ==> ChosenPc(s, w') == ChosenPc(s, w))
  {
    assert forall c <- BarberMove(s.shared, s.barber).0.queue :: c in s.shared.queue;
  }

  /** Puts the parts together, whatever move the barber has made. */
  lemma InvAfterBarber(s: Shop, shared: Shared, barber: BarberProcess, w': Witness)
    requires HolderOk(s, w'.state) && HolderOk(s, w'.queue)
    requires Core(shared, barber, w', ChosenPc(s, w'))
    requires forall c <- shared.queue :: c in s.clients
    requires forall c <- s.clients :: ClientOk(shared, barber.pc, w', c, s.clients[c].pc)
    ensures Inv(s.(shared := shared, barber := barber), w')
  {
  }

  lemma ClientKeepsCore(s: Shop, w: Witness, c: int)
    requires Inv(s, w) && c in s.clients
    ensures var me, w' := s.clients[c], NextWitness(s, w, Customer(c));
            Core(ClientMove(s.shared, c, me).0, s.barber, w', NextChosenPc(s.shared, w, ChosenPc(s, w), c, me))
  {
    var x, me := ChosenPc(s, w), s.clients[c];
    ClientKeepsLocks(s.shared, s.barber, w, c, me);
    ClientKeepsChosen(s.shared, s.barber, w, x, c, me);
    ClientKeepsSignals(s.shared, s.barber, w, x, c, me);
    ClientKeepsMembers(s.shared, s.barber, w, x, c, me);
    ClientKeepsLength(s.shared, s.barber, w, x, c, me);
  }

  lemma ClientKeepsSelf(s: Shop, w: Witness, c: int)
    requires Inv(s, w) && c in s.clients
    ensures var (t, me) := ClientMove(s.shared, c, s.clients[c]);
            ClientOk(t, s.barber.pc, ClientWitness(s.shared, w, c, s.clients[c]), c, me.pc)
  {
    ClientKeepsOwnLockPlace(s.shared, s.barber, w, c, s.clients[c]);
    ClientKeepsOwnQueuePlace(s.shared, s.barber, w, ChosenPc(s, w), c, s.clients[c]);
    ClientKeepsOwnSemaphore(s.shared, s.barber, w, ChosenPc(s, w), c, s.clients[c]);
  }

  lemma ClientKeepsOther(s: Shop, w: Witness, c: int, d: int)
    requires Inv(s, w) && c in s.clients && d in s.clients && c != d
    ensures ClientOk(ClientMove(s.shared, c, s.clients[c]).0, s.barber.pc,
                     ClientWitness(s.shared, w, c, s.clients[c]), d, s.clients[d].pc)
  {
    ClientKeepsOtherLockPlace(s.shared, s.barber, w, c, s.clients[c], d, s.clients[d].pc);
    ClientKeepsOtherQueuePlace(s.shared, s.barber, w, ChosenPc(s, w), c, s.clients[c], d, s.clients[d].pc);
    ClientKeepsOtherSemaphore(s.shared, s.barber, w, ChosenPc(s, w), c, s.clients[c], d, s.clients[d].pc);
  }

  /** Puts the parts together, whatever move client `c` has made. */
  lemma InvFromParts(s: Shop, w: Witness, c: int, shared: Shared, me: Client, w': Witness, x: ClientPc)
    requires Inv(s, w) && c in s.clients
    requires HolderOk(s, w'.state) && HolderOk(s, w'.queue)
    requires Core(shared, s.barber, w', x)
    requires x == if w'.chosen == c then me.pc else ChosenPc(s, w')
    requires forall d <- shared.queue :: d in s.clients
    requires ClientOk(shared, s.barber.pc, w', c, me.pc)
    requires forall d <- s.clients :: d != c ==> ClientOk(shared, s.barber.pc, w', d, s.clients[d].pc)
    ensures Inv(s.(shared := shared, clients := s.clients[c := me]), w')
  {
  }

  lemma ClientKeepsHolders(s: Shop, w: Witness, c: int)
    requires Inv(s, w) && c in s.clients
    ensures var me, w' := s.clients[c], NextWitness(s, w, Customer(c));
            && HolderOk(s, w'.state) && HolderOk(s, w'.queue)
            && (w'.chosen == w.chosen || w'.chosen == c || w'.chosen == NOBODY)
            && (forall d <- ClientMove(s.shared, c, me).0.queue :: d in s.clients)
            && NextChosenPc(s.shared, w, ChosenPc(s, w), c, me)
                == (if w'.chosen == c then ClientMove(s.shared, c, me).1.pc else ChosenPc(s, w'))
  {
    assert ClientOk(s.shared, s.barber.pc, w, c, s.clients[c].pc);
    forall d <- ClientMove(s.shared, c, s.clients[c]).0.queue ensures d in s.clients {
      assert d == c || d in s.shared.queue;
    }
  }

  lemma ClientKeepsInv(s: Shop, w: Witness, c: int)
    requires Inv(s, w) && c in s.clients
    ensures Inv(Step(s, Customer(c)), NextWitness(s, w, Customer(c)))
  {
    var (t, me) := ClientMove(s.shared, c, s.clients[c]);
    var w' := NextWitness(s, w, Customer(c));
    ClientKeepsHolders(s, w, c);
    ClientKeepsCore(s, w, c);
    ClientKeepsSelf(s, w, c);
    forall d <- s.clients | d != c ensures ClientOk(t, s.barber.pc, w', d, s.clients[d].pc) {
      ClientKeepsOther(s, w, c, d);
    }
    InvFromParts(s, w, c, t, me, w', NextChosenPc(s.shared, w, ChosenPc(s, w), c, s.clients[c]));
  }
}
