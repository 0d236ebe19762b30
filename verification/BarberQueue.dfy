/**
  The waiting queue as it lies in the shared block: an array of MAX_QUEUE cells and
  a length.  Popping shifts the remaining pids one cell to the left.  The second
  half settles for which numbers of chairs the array is large enough.
 */
module BarberQueue {
  import opened BarberAdmission
  import opened BarberShop
  import opened BarberInvariant
  import opened BarberTheorems

  class SharedQueue {
    const cells: array<int>
    var length: nat

    ghost predicate Valid()
      reads this
    {
      length <= cells.Length == MAX_QUEUE
    }

    ghost function Contents(): seq<int>
      requires Valid()
      reads this, cells
    {
      cells[..length]
    }

    constructor ()
      ensures Valid() && fresh(cells) && Contents() == []
    {
      cells := new int[MAX_QUEUE](_ => NO_CLIENT);
      length := 0;
    }

    method Push(pid: int)
      requires Valid() && length < MAX_QUEUE
      modifies this, cells
      ensures Valid() && Contents() == old(Contents()) + [pid]
    {
      cells[length] := pid;
      length := length + 1;
    }

    method Peek() returns (pid: int)
      requires Valid()
      ensures pid == PeekQueue(Contents())
      ensures pid == if Contents() == [] then NO_CLIENT else Contents()[0]
    {
      pid := if length == 0 then NO_CLIENT else cells[0];
    }

    /** The effect of the barber's step at Pop. */
    method Pop() returns (pid: int)
      requires Valid()
      modifies this, cells
      ensures Valid()
      ensures if old(Contents()) == [] then pid == NO_CLIENT && Contents() == []
              else pid == old(Contents())[0] && Contents() == old(Contents())[1..]
      ensures forall s: Shared, me: BarberProcess :: s.queue == old(Contents()) && me.pc.Pop? ==>
                BarberMove(s, me) == (s.(queue := Contents()), BarberProcess(PopUnlock, pid))
    {
      PopSteps(Contents());
      if length == 0 {
        return NO_CLIENT;
      }
      pid := cells[0];
      var i := 0;
      while i < length - 1
        invariant 0 <= i <= length - 1 && length == old(length)
        invariant forall j :: 0 <= j < i ==> cells[j] == old(cells[j + 1])
        invariant forall j :: i <= j < length ==> cells[j] == old(cells[j])
      {
        cells[i] := cells[i + 1];
        i := i + 1;
      }
      length := length - 1;
      assert Contents() == old(Contents())[1..];
    }
  }

  /** The barber's pop on a queue `q`. */
  lemma PopSteps(q: seq<int>)
    ensures forall s: Shared, me: BarberProcess :: s.queue == q && me.pc.Pop? ==>
              BarberMove(s, me) == if q == [] then (s.(queue := q), BarberProcess(PopUnlock, NO_CLIENT))
                                   else (s.(queue := q[1..]), BarberProcess(PopUnlock, q[0]))
  {
  }

  /** With 0 to MAX_QUEUE chairs, push_client always writes inside the array. */
  lemma PushStaysInside(s: Shop, schedule: seq<Process>, c: int)
    requires Initial(s) && 0 <= s.shared.chairs <= MAX_QUEUE
    requires c in Run(s, schedule).clients && Run(s, schedule).clients[c].pc.Push?
    ensures |Run(s, schedule).shared.queue| < MAX_QUEUE
  {
    ReachableInv(s, schedule);
    QueueNeverExceedsChairs(s, schedule);
    ClientsStay(s, schedule);
    var t, w := Run(s, schedule), WitnessAfter(s, schedule);
    assert ClientOk(t.shared, t.barber.pc, w, c, t.clients[c].pc);
  }

  // ----- A run that fills the queue: one client wakes the barber and dawdles, the others queue up

  /** The first of the `crowd` is on its way to the chair, the next `k` have queued up, the rest is outside. */
  predicate Filling(s: Shop, crowd: seq<int>, k: nat) {
    && s.shared.bState == Waking && s.shared.stateLock == s.shared.queueLock == 1 && |s.shared.queue| == k
    && NoDuplicates(crowd) && forall i :: k < i < |crowd| ==> Eager(s, crowd[i])
  }

  lemma OneMoreInQueue(s: Shop, crowd: seq<int>, k: nat) returns (schedule: seq<Process>)
    requires Filling(s, crowd, k) && k + 1 < |crowd| && k != s.shared.chairs
    ensures Filling(Run(s, schedule), crowd, k + 1) && Run(s, schedule).shared.chairs == s.shared.chairs
  {
    var c, turns := crowd[k + 1], 7;
    FreeChairIsTaken(s, c, turns);
    schedule := Turns(Customer(c), turns);
    OthersStayOut(s, crowd, k, Run(s, schedule).clients);
  }

  lemma OthersStayOut(s: Shop, crowd: seq<int>, k: nat, clients: map<int, Client>)
    requires Filling(s, crowd, k) && k + 1 < |crowd|
    requires forall d <- s.clients :: d != crowd[k + 1] ==> d in clients && clients[d] == s.clients[d]
    ensures forall i :: k + 1 < i < |crowd| ==> Eager(s.(clients := clients), crowd[i])
  {
    forall i | k + 1 < i < |crowd|
      ensures Eager(s.(clients := clients), crowd[i])
    {
      assert Eager(s, crowd[i]) && crowd[i] != crowd[k + 1];
    }
  }

  lemma {:induction false} FillTheQueue(s: Shop, crowd: seq<int>, k: nat, target: nat) returns (schedule: seq<Process>)
    requires Filling(s, crowd, k) && k <= target < |crowd|
    requires s.shared.chairs < 0 || s.shared.chairs >= target
    ensures Filling(Run(s, schedule), crowd, target) && Run(s, schedule).shared.chairs == s.shared.chairs
    decreases target - k
  {
    if k == target {
      schedule := [];
    } else {
      var first := OneMoreInQueue(s, crowd, k);
      var more := FillTheQueue(Run(s, first), crowd, k + 1, target);
      schedule := first + more;
      RunConcat(s, first, more);
    }
  }

  /** Different clients that all want a haircut. */
  predicate Crowd(s: Shop, crowd: seq<int>) {
    NoDuplicates(crowd) && forall i :: 0 <= i < |crowd| ==> crowd[i] in s.clients && s.clients[crowd[i]].repeats != 0
  }

  lemma BarberFallsAsleep(s: Shop)
    requires Initial(s)
    ensures Run(s, [Barber] + [Barber])
              == s.(shared := s.shared.(bState := Sleeping, stateLock := 1), barber := s.barber.(pc := SleepWait))
  {
    RunConcat(s, [Barber], [Barber]);
    assert Run(s, [Barber]) == Step(s, Barber);
    assert Run(Step(s, Barber), [Barber]) == Step(Step(s, Barber), Barber);
  }

  /** The barber falls asleep, and the first of the crowd wakes him. */
  lemma WakeUpCall(s: Shop, crowd: seq<int>) returns (schedule: seq<Process>)
    requires Initial(s) && Crowd(s, crowd) && crowd != []
    ensures Filling(Run(s, schedule), crowd, 0)
    ensures Run(s, schedule).shared.chairs == s.shared.chairs
  {
    var c, turns := crowd[0], 5;
    BarberFallsAsleep(s);
    var asleep := Run(s, [Barber] + [Barber]);
    SleepingBarberIsWoken(asleep, c, turns);
    schedule := [Barber] + [Barber] + Turns(Customer(c), turns);
    RunConcat(s, [Barber] + [Barber], Turns(Customer(c), turns));
    FirstWakesOthersWait(s, crowd, asleep, Run(s, schedule).clients);
  }

  lemma FirstWakesOthersWait(s: Shop, crowd: seq<int>, asleep: Shop, clients: map<int, Client>)
    requires Initial(s) && Crowd(s, crowd) && crowd != [] && asleep.clients == s.clients
    requires forall d <- s.clients :: d != crowd[0] ==> d in clients && clients[d] == s.clients[d]
    ensures forall i :: 0 < i < |crowd| ==> Eager(s.(clients := clients), crowd[i])
  {
    forall i | 0 < i < |crowd|
      ensures Eager(s.(clients := clients), crowd[i])
    {
      assert crowd[i] != crowd[0];
    }
  }

  /**
    With any other number of chairs and any 52 clients that want a haircut, some run
    reaches push_client with a full array.
   */
  lemma PushCanOverrun(s: Shop, crowd: seq<int>) returns (schedule: seq<Process>)
    requires Initial(s) && Crowd(s, crowd) && |crowd| >= MAX_QUEUE + 2
    requires !(0 <= s.shared.chairs <= MAX_QUEUE)
    ensures var t, c := Run(s, schedule), crowd[MAX_QUEUE + 1];
            |t.shared.queue| == MAX_QUEUE && c in t.clients && t.clients[c].pc.Push?
  {
    var first := WakeUpCall(s, crowd);
    var more := FillTheQueue(Run(s, first), crowd, 0, MAX_QUEUE);
    RunConcat(s, first, more);
    var turns := 4;
    var last := Turns(Customer(crowd[MAX_QUEUE + 1]), turns);
    RunConcat(s, first + more, last);
    ComeInAndCount(Run(s, first + more), crowd[MAX_QUEUE + 1], turns);
    schedule := first + more + last;
  }
}
