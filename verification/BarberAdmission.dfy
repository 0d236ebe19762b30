/**
  What becomes of a client that comes in: with both locks free, its own turns alone
  decide whether it wakes the barber, joins the queue or is turned away.
 */
module BarberAdmission {
  import opened BarberShop

  predicate Eager(s: Shop, c: int) {
    c in s.clients && s.clients[c].pc.Outside? && s.clients[c].repeats != 0
  }

  predicate DoorFree(s: Shop) {
    s.shared.stateLock == s.shared.queueLock == 1
  }

  /** `n` turns of the same process. */
  function Turns(p: Process, n: nat): seq<Process> {
    if n == 0 then [] else Turns(p, n - 1) + [p]
  }

  lemma OneTurnMore(s: Shop, p: Process, n: nat)
    ensures Run(s, Turns(p, n + 1)) == Step(Run(s, Turns(p, n)), p)
  {
    assert Turns(p, n + 1)[..n] + [p] == Turns(p, n + 1) by { TurnsLength(p, n); }
  }

  lemma TurnsLength(p: Process, n: nat)
    ensures |Turns(p, n)| == n
  {
  }

  /** The shop with another shared block and another state of client `c`. */
  function With(s: Shop, c: int, shared: Shared, me: Client): Shop {
    s.(shared := shared, clients := s.clients[c := me])
  }

  lemma Unchanged(s: Shop, c: int)
    requires c in s.clients
    ensures With(s, c, s.shared, s.clients[c]) == s
  {
    assert s.clients[c := s.clients[c]] == s.clients;
  }

  /** After `n` turns of its own, which nobody interrupts, the client is at `me`. */
  predicate GetsTo(s: Shop, c: int, n: nat, shared: Shared, me: Client) {
    Run(s, Turns(Customer(c), n)) == With(s, c, shared, me)
  }

  lemma OwnTurn(s: Shop, c: int, n: nat, shared: Shared, me: Client)
    requires GetsTo(s, c, n, shared, me)
    ensures GetsTo(s, c, n + 1, ClientMove(shared, c, me).0, ClientMove(shared, c, me).1)
  {
    OneTurnMore(s, Customer(c), n);
    assert s.clients[c := me][c := ClientMove(shared, c, me).1] == s.clients[c := ClientMove(shared, c, me).1];
  }

  lemma NoTurn(s: Shop, c: int)
    requires c in s.clients
    ensures GetsTo(s, c, 0, s.shared, s.clients[c])
  {
    Unchanged(s, c);
  }

  lemma LocksState(s: Shop, c: int, n: nat, shared: Shared, me: Client)
    requires GetsTo(s, c, n, shared, me) && me.pc.Outside? && me.repeats != 0 && shared.stateLock == 1
    ensures GetsTo(s, c, n + 1, shared.(stateLock := 0), me.(pc := Look))
  {
    OwnTurn(s, c, n, shared, me);
  }

  lemma Looks(s: Shop, c: int, n: nat, shared: Shared, me: Client)
    requires GetsTo(s, c, n, shared, me) && me.pc.Look?
    ensures GetsTo(s, c, n + 1, shared, me.(pc := if shared.bState == Sleeping then WakeMark else QueueLock))
  {
    OwnTurn(s, c, n, shared, me);
  }

  lemma LocksQueue(s: Shop, c: int, n: nat, shared: Shared, me: Client)
    requires GetsTo(s, c, n, shared, me) && me.pc.QueueLock? && shared.queueLock == 1
    ensures GetsTo(s, c, n + 1, shared.(queueLock := 0), me.(pc := Count))
  {
    OwnTurn(s, c, n, shared, me);
  }

  lemma Counts(s: Shop, c: int, n: nat, shared: Shared, me: Client)
    requires GetsTo(s, c, n, shared, me) && me.pc.Count?
    ensures GetsTo(s, c, n + 1, shared, me.(pc := if |shared.queue| == shared.chairs then FullUnlock else Push))
  {
    OwnTurn(s, c, n, shared, me);
  }

  lemma Queues(s: Shop, c: int, n: nat, shared: Shared, me: Client)
    requires GetsTo(s, c, n, shared, me) && me.pc.Push?
    ensures GetsTo(s, c, n + 1, shared.(queue := shared.queue + [c]), me.(pc := PushUnlockQueue))
  {
    OwnTurn(s, c, n, shared, me);
  }

  lemma UnlocksQueue(s: Shop, c: int, n: nat, shared: Shared, me: Client)
    requires GetsTo(s, c, n, shared, me) && (me.pc.PushUnlockQueue? || me.pc.FullUnlockQueue?)
    ensures GetsTo(s, c, n + 1, shared.(queueLock := shared.queueLock + 1),
                   me.(pc := if me.pc.PushUnlockQueue? then PushUnlock else Outside))
  {
    OwnTurn(s, c, n, shared, me);
  }

  lemma UnlocksState(s: Shop, c: int, n: nat, shared: Shared, me: Client)
    requires GetsTo(s, c, n, shared, me) && (me.pc.PushUnlock? || me.pc.FullUnlock? || me.pc.WakeUnlock?)
    ensures GetsTo(s, c, n + 1, shared.(stateLock := shared.stateLock + 1),
                   me.(pc := if me.pc.PushUnlock? then OpenSem
                             else if me.pc.FullUnlock? then FullUnlockQueue else ChairLock))
  {
    OwnTurn(s, c, n, shared, me);
  }

  lemma Wakes(s: Shop, c: int, n: nat, shared: Shared, me: Client)
    requires GetsTo(s, c, n, shared, me) && me.pc.WakeMark?
    ensures GetsTo(s, c, n + 2, shared.(bState := Waking, customerAvail := shared.customerAvail + 1),
                   me.(pc := WakeUnlock))
  {
    OwnTurn(s, c, n, shared, me);
    OwnTurn(s, c, n + 1, shared.(bState := Waking), me.(pc := WakeSignal));
  }

  /** The four turns that bring a client from outside to the count of the queue. */
  lemma ComeInAndCount(s: Shop, c: int, n: nat)
    requires s.shared.bState != Sleeping && DoorFree(s) && Eager(s, c) && n == 4
    ensures GetsTo(s, c, n, s.shared.(stateLock := 0, queueLock := 0),
                   s.clients[c].(pc := if |s.shared.queue| == s.shared.chairs then FullUnlock else Push))
  {
    var me, inside := s.clients[c], s.shared.(stateLock := 0);
    NoTurn(s, c);
    LocksState(s, c, n - 4, s.shared, me);
    Looks(s, c, n - 3, inside, me.(pc := Look));
    LocksQueue(s, c, n - 2, inside, me.(pc := QueueLock));
    Counts(s, c, n - 1, inside.(queueLock := 0), me.(pc := Count));
  }

  /** On a sleeping barber a client that comes in wakes him and goes to the chair. */
  lemma SleepingBarberIsWoken(s: Shop, c: int, n: nat)
    requires s.shared.bState == Sleeping && DoorFree(s) && Eager(s, c) && n == 5
    ensures GetsTo(s, c, n, s.shared.(bState := Waking, customerAvail := s.shared.customerAvail + 1),
                   s.clients[c].(pc := ChairLock))
  {
    var me, inside := s.clients[c], s.shared.(stateLock := 0);
    NoTurn(s, c);
    LocksState(s, c, n - 5, s.shared, me);
    Looks(s, c, n - 4, inside, me.(pc := Look));
    Wakes(s, c, n - 3, inside, me.(pc := WakeMark));
    UnlocksState(s, c, n - 1, inside.(bState := Waking, customerAvail := s.shared.customerAvail + 1),
                 me.(pc := WakeUnlock));
  }

  /** While he is awake, a client that finds a free chair is queued up, and both locks are free again. */
  lemma FreeChairIsTaken(s: Shop, c: int, n: nat)
    requires s.shared.bState != Sleeping && DoorFree(s) && Eager(s, c) && n == 7
    requires |s.shared.queue| != s.shared.chairs
    ensures GetsTo(s, c, n, s.shared.(queue := s.shared.queue + [c]), s.clients[c].(pc := OpenSem))
  {
    var me := s.clients[c];
    var shared := s.shared.(stateLock := 0, queueLock := 0);
    var queued := shared.(queue := s.shared.queue + [c]);
    ComeInAndCount(s, c, n - 3);
    Queues(s, c, n - 3, shared, me.(pc := Push));
    UnlocksQueue(s, c, n - 2, queued, me.(pc := PushUnlockQueue));
    UnlocksState(s, c, n - 1, queued.(queueLock := 1), me.(pc := PushUnlock));
  }

  /** A client that finds all chairs taken is outside again, and nothing else has changed. */
  lemma FullShopTurnsAway(s: Shop, c: int, n: nat)
    requires s.shared.bState != Sleeping && DoorFree(s) && Eager(s, c) && n == 6
    requires |s.shared.queue| == s.shared.chairs
    ensures Run(s, Turns(Customer(c), n)) == s
  {
    var me, shared := s.clients[c], s.shared.(stateLock := 0, queueLock := 0);
    ComeInAndCount(s, c, n - 2);
    UnlocksState(s, c, n - 2, shared, me.(pc := FullUnlock));
    UnlocksQueue(s, c, n - 1, shared.(stateLock := 1), me.(pc := FullUnlockQueue));
    Unchanged(s, c);
  }
}
