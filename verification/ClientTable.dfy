/**
  The server's table of clients: a fixed array of slots, a counter, and the handlers
  that register, remove and ping clients.  A slot is free when its socket is not positive.
 */
module ClientTable {

  const MAX_CLIENTS := 20

  datatype Slot = Slot(name: string, socket: int, responsive: bool)

  datatype Table = Table(slots: seq<Slot>, count: int)

  datatype Reply = Ignored | NameTaken | Accepted

  /** What the loops over the slots look for. */
  datatype Key = Free | ByName(name: string) | BySocket(socket: int)

  predicate Used(slot: Slot) {
    slot.socket > 0
  }

  predicate Matches(slot: Slot, key: Key) {
    match key
    case Free => !Used(slot)
    case ByName(name) => slot.name == name
    case BySocket(socket) => slot.socket == socket
  }

  /** The first matching slot from `from` on, or |slots|. */
  function First(slots: seq<Slot>, key: Key, from: nat := 0): (i: nat)
    requires from <= |slots|
    ensures from <= i <= |slots|
    ensures i < |slots| ==> Matches(slots[i], key)
    ensures forall j :: from <= j < i ==> !Matches(slots[j], key)
    decreases |slots| - from
  {
    if from == |slots| || Matches(slots[from], key) then from else First(slots, key, from + 1)
  }

  function Occupied(slots: seq<Slot>): (n: nat)
    ensures n <= |slots|
    ensures n == |slots| <==> forall k :: 0 <= k < |slots| ==> Used(slots[k])
    ensures n == 0 <==> forall k :: 0 <= k < |slots| ==> !Used(slots[k])
  {
    if slots == [] then 0 else
    assert forall k :: 0 <= k < |slots| - 1 ==> slots[..|slots| - 1][k] == slots[k];
    Occupied(slots[..|slots| - 1]) + if Used(slots[|slots| - 1]) then 1 else 0
  }

  function Empty(): Table {
    Table(seq(MAX_CLIENTS, _ => Slot("", 0, false)), 0)
  }

  /** The counter counts the slots in use. */
  predicate Counted(t: Table) {
    |t.slots| == MAX_CLIENTS && t.count == Occupied(t.slots)
  }

  // ----- What each handler makes of the table

  /** Some slot other than the first free one carries the name. */
  predicate Taken(slots: seq<Slot>, name: string) {
    exists k :: 0 <= k < |slots| && k != First(slots, Free) && slots[k].name == name
  }

  function ReplyTo(t: Table, name: string): Reply {
    if t.count >= MAX_CLIENTS then Ignored else if Taken(t.slots, name) then NameTaken else Accepted
  }

  function Registered(t: Table, name: string, socket: int): Table
    requires Counted(t)
  {
    if ReplyTo(t, name).Accepted?
    then Table(t.slots[First(t.slots, Free) := Slot(name, socket, true)], t.count + 1)
    else t
  }

  function Unregistered(t: Table, name: string): Table {
    var i := First(t.slots, ByName(name));
    if i == |t.slots| then t else Table(t.slots[i := Slot("", 0, t.slots[i].responsive)], t.count - 1)
  }

  /** The client at the other end of `socket` closed the connection. */
  function Disconnected(t: Table, socket: int): Table {
    var i := First(t.slots, BySocket(socket));
    if i == |t.slots| then t else Unregistered(t, t.slots[i].name)
  }

  function Answered(t: Table, socket: int): Table {
    var i := First(t.slots, BySocket(socket));
    if i == |t.slots| then t else Table(t.slots[i := t.slots[i].(responsive := true)], t.count)
  }

  /** The monitor looks at slot `i`. */
  function Watched(t: Table, i: nat): (u: Table)
    requires i < |t.slots|
    ensures |u.slots| == |t.slots|
    ensures forall k :: i < k < |t.slots| ==> u.slots[k] == t.slots[k]
  {
    var slot := t.slots[i];
    if !Used(slot) then t
    else if !slot.responsive then Unregistered(t, slot.name)
    else Table(t.slots[i := slot.(responsive := false)], t.count)
  }

  /** The monitor's pass from slot `i` on. */
  function PassFrom(t: Table, i: nat): Table
    requires i <= |t.slots|
    decreases |t.slots| - i
  {
    if i == |t.slots| then t else PassFrom(Watched(t, i), i + 1)
  }

  /** The sockets of the responsive clients, in slot order: those the monitor pings. */
  function Responsive(slots: seq<Slot>): seq<int> {
    if slots == [] then [] else
    var last := slots[|slots| - 1];
    Responsive(slots[..|slots| - 1]) + if Used(last) && last.responsive then [last.socket] else []
  }

  // ----- The server's own table and handlers

  class Server {
    const clients: array<Slot>
    var clientCount: int

    function Now(): Table
      reads this, clients
    {
      Table(clients[..], clientCount)
    }

    constructor ()
      ensures Now() == Empty() && fresh(clients)
    {
      clients := new Slot[MAX_CLIENTS](_ => Slot("", 0, false));
      clientCount := 0;
    }

    method HandleRegister(name: string, socket: int) returns (reply: Reply)
      requires Counted(Now())
      modifies this, clients
      ensures reply == ReplyTo(old(Now()), name)
      ensures Now() == Registered(old(Now()), name, socket)
    {
      if clientCount >= MAX_CLIENTS {
        return Ignored;
      }
      var available := -1;
      for i := 0 to clients.Length
        invariant clients[..] == old(clients[..]) && clientCount == old(clientCount)
        invariant available == -1 ==> First(clients[..], Free) >= i
        invariant available != -1 ==> available == First(clients[..], Free) < i
        invariant forall k :: 0 <= k < i && k != available ==> clients[k].name != name
      {
        if available == -1 && clients[i].socket <= 0 {
          available := i;
        } else if clients[i].name == name {
          assert clients[..][i].name == name;
          return NameTaken;
        }
      }
      clients[available] := Slot(name, socket, true);
      clientCount := clientCount + 1;
      return Accepted;
    }

    method HandleUnregister(name: string)
      modifies this, clients
      ensures Now() == Unregistered(old(Now()), name)
    {
      for i := 0 to clients.Length
        invariant Now() == old(Now())
        invariant First(clients[..], ByName(name)) >= i
      {
        if clients[i].name == name {
          clients[i] := Slot("", 0, clients[i].responsive);
          clientCount := clientCount - 1;
          break;
        }
      }
    }

    method FindClientBySocket(socket: int) returns (i: nat)
      ensures i == First(clients[..], BySocket(socket))
    {
      i := 0;
      while i < clients.Length && clients[i].socket != socket
        invariant i <= clients.Length && First(clients[..], BySocket(socket)) >= i
      {
        i := i + 1;
      }
    }

    method HandlePing(socket: int)
      modifies clients
      ensures Now() == Answered(old(Now()), socket)
    {
      for i := 0 to clients.Length
        invariant clients[..] == old(clients[..])
        invariant First(clients[..], BySocket(socket)) >= i
      {
        if clients[i].socket == socket {
          clients[i] := clients[i].(responsive := true);
          break;
        }
      }
    }

    /** What reading an empty message from `socket` leads to. */
    method HandleClosed(socket: int)
      modifies this, clients
      ensures Now() == Disconnected(old(Now()), socket)
    {
      var i := FindClientBySocket(socket);
      if i < clients.Length {
        HandleUnregister(clients[i].name);
      }
    }

    /** One pass of the monitor; `pinged` lists the sockets it sends PING to. */
    method MonitorPass() returns (pinged: seq<int>)
      modifies this, clients
      ensures Now() == PassFrom(old(Now()), 0)
      ensures pinged == Responsive(old(clients[..]))
    {
      pinged := [];
      for i := 0 to clients.Length
        invariant PassFrom(Now(), i) == PassFrom(old(Now()), 0)
        invariant forall k :: i <= k < clients.Length ==> clients[k] == old(clients[k])
        invariant pinged == Responsive(old(clients[..])[..i])
      {
        ghost var was := Now();
        assert old(clients[..])[..i + 1][..i] == old(clients[..])[..i];
        if clients[i].socket > 0 {
          if !clients[i].responsive {
            HandleUnregister(clients[i].name);
          } else {
            pinged := pinged + [clients[i].socket];
            clients[i] := clients[i].(responsive := false);
          }
        }
        assert Now() == Watched(was, i);
        assert forall k :: i < k < clients.Length ==> Now().slots[k] == was.slots[k];
      }
      assert old(clients[..])[..clients.Length] == old(clients[..]);
    }

    /** The first used slot, searched for cyclically from slot random % MAX_CLIENTS on. */
    method GetRandomClient(random: nat) returns (found: bool, i: nat, ghost steps: nat)
      requires Counted(Now())
      ensures found <==> exists k :: 0 <= k < clients.Length && Used(clients[k])
      ensures found ==> steps < MAX_CLIENTS && i == (random + steps) % MAX_CLIENTS && Used(clients[i])
      ensures found ==> forall k :: 0 <= k < clients.Length && (k - random) % MAX_CLIENTS < steps ==> !Used(clients[k])
      ensures found && Used(clients[random % MAX_CLIENTS]) ==> i == random % MAX_CLIENTS
    {
      if clientCount < 1 {
        return false, 0, 0;
      }
      ghost var k :| 0 <= k < clients.Length && Used(clients[k]);
      ghost var distance := AroundReaches(random, k);
      i, found, steps := random % MAX_CLIENTS, true, 0;
      while clients[i].socket <= 0
        invariant i == Around(random, steps) && steps <= distance
        invariant forall d :: 0 <= d < steps ==> !Used(clients[Around(random, d)])
        decreases distance - steps
      {
        AroundStep(random, steps);
        i := (i + 1) % MAX_CLIENTS;
        steps := steps + 1;
      }
      forall k | 0 <= k < clients.Length && (k - random) % MAX_CLIENTS < steps
        ensures !Used(clients[k])
      {
        AroundDistance(random, k);
      }
      assert steps > 0 ==> !Used(clients[Around(random, 0)]);
    }
  }

  /** The slot reached from `start` in `steps` steps. */
  function Around(start: nat, steps: nat): (i: nat)
    ensures i < MAX_CLIENTS
  {
    (start + steps) % MAX_CLIENTS
  }

  /** Slot `k` is reached after as many steps as it lies behind the start. */
  lemma AroundDistance(start: nat, k: nat)
    requires k < MAX_CLIENTS
    ensures Around(start, (k - start) % MAX_CLIENTS) == k
  {
  }

  lemma AroundStep(start: nat, steps: nat)
    ensures Around(start, steps + 1) == (Around(start, steps) + 1) % MAX_CLIENTS
  {
  }

  /** Every slot is reached within one round. */
  lemma AroundReaches(start: nat, k: nat) returns (steps: nat)
    requires k < MAX_CLIENTS
    ensures steps < MAX_CLIENTS && Around(start, steps) == k
  {
    var from := start % MAX_CLIENTS;
    steps := if k >= from then k - from else k + MAX_CLIENTS - from;
  }
}
