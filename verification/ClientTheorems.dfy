/**
  The table of clients as a map from names to connections, over any sequence of
  messages, closed connections and monitor passes; and which clients the monitor keeps.
 */
module ClientTheorems {
  import opened ClientTable

  datatype Client = Client(socket: int, responsive: bool)

  predicate NamedIfUsed(slots: seq<Slot>) {
    forall k :: 0 <= k < |slots| ==> (Used(slots[k]) <==> slots[k].name != "")
  }

  predicate NamesDiffer(slots: seq<Slot>) {
    forall j, k :: 0 <= j < k < |slots| && Used(slots[j]) && Used(slots[k]) ==> slots[j].name != slots[k].name
  }

  predicate Valid(t: Table) {
    Counted(t) && NamedIfUsed(t.slots) && NamesDiffer(t.slots)
  }

  /** The clients by name. */
  function View(slots: seq<Slot>): map<string, Client> {
    if slots == [] then map[] else
    var last, front := slots[|slots| - 1], View(slots[..|slots| - 1]);
    if Used(last) then front[last.name := Entry(last)] else front
  }

  function Entry(slot: Slot): Client {
    Client(slot.socket, slot.responsive)
  }

  predicate Unnamed(slots: seq<Slot>, name: string) {
    forall k :: 0 <= k < |slots| && Used(slots[k]) ==> slots[k].name != name
  }

  lemma {:induction false} ViewNames(slots: seq<Slot>, name: string)
    ensures name in View(slots) <==> !Unnamed(slots, name)
  {
    if slots != [] {
      var n := |slots| - 1;
      ViewNames(slots[..n], name);
      assert Unnamed(slots, name) <==> Unnamed(slots[..n], name) && (Used(slots[n]) ==> slots[n].name != name);
    }
  }

  lemma {:induction false} ViewEntry(slots: seq<Slot>, k: nat)
    requires NamesDiffer(slots) && k < |slots| && Used(slots[k])
    ensures slots[k].name in View(slots) && View(slots)[slots[k].name] == Entry(slots[k])
  {
    var n := |slots| - 1;
    if k < n {
      ViewEntry(slots[..n], k);
    }
  }

  lemma {:induction false} ViewAdd(slots: seq<Slot>, i: nat, slot: Slot)
    requires i < |slots| && !Used(slots[i]) && Used(slot) && Unnamed(slots, slot.name)
    ensures View(slots[i := slot]) == View(slots)[slot.name := Entry(slot)]
  {
    var n := |slots| - 1;
    if i < n {
      ViewAdd(slots[..n], i, slot);
      assert slots[i := slot][..n] == slots[..n][i := slot];
    } else {
      assert slots[i := slot][..n] == slots[..n];
    }
  }

  lemma {:induction false} ViewRemove(slots: seq<Slot>, i: nat, slot: Slot)
    requires NamesDiffer(slots) && i < |slots| && Used(slots[i]) && !Used(slot)
    ensures View(slots[i := slot]) == View(slots) - {slots[i].name}
  {
    var n := |slots| - 1;
    if i < n {
      ViewRemove(slots[..n], i, slot);
      assert slots[i := slot][..n] == slots[..n][i := slot];
    } else {
      assert slots[i := slot][..n] == slots[..n];
      ViewNames(slots[..n], slots[n].name);
    }
  }

  lemma {:induction false} ViewReplace(slots: seq<Slot>, i: nat, slot: Slot)
    requires NamesDiffer(slots) && i < |slots| && Used(slots[i]) && Used(slot) && slot.name == slots[i].name
    ensures View(slots[i := slot]) == View(slots)[slot.name := Entry(slot)]
  {
    var n := |slots| - 1;
    if i < n {
      ViewReplace(slots[..n], i, slot);
      assert slots[i := slot][..n] == slots[..n][i := slot];
    } else {
      assert slots[i := slot][..n] == slots[..n];
    }
  }

  lemma {:induction false} OccupiedUpdate(slots: seq<Slot>, i: nat, slot: Slot)
    requires i < |slots|
    ensures Occupied(slots[i := slot]) + (if Used(slots[i]) then 1 else 0)
         == Occupied(slots) + (if Used(slot) then 1 else 0)
  {
    var n := |slots| - 1;
    if i < n {
      OccupiedUpdate(slots[..n], i, slot);
      assert slots[i := slot][..n] == slots[..n][i := slot];
    } else {
      assert slots[i := slot][..n] == slots[..n];
    }
  }

  /** The map has as many entries as slots are in use. */
  lemma {:induction false} ViewSize(slots: seq<Slot>)
    requires NamesDiffer(slots)
    ensures |View(slots)| == Occupied(slots)
  {
    if slots != [] {
      var n := |slots| - 1;
      ViewSize(slots[..n]);
      ViewNames(slots[..n], slots[n].name);
    }
  }

  // ----- Registration

  /** What an accepted registration puts into the table. */
  lemma AcceptedKeepsValid(t: Table, name: string, socket: int)
    requires Valid(t) && ReplyTo(t, name).Accepted?
    ensures Valid(Registered(t, name, socket)) <==> name != "" && socket > 0
  {
    var i := First(t.slots, Free);
    OccupiedUpdate(t.slots, i, Slot(name, socket, true));
    assert Registered(t, name, socket).slots[i] == Slot(name, socket, true);
  }

  lemma {:induction false} OccupiedAllBut(slots: seq<Slot>, i: nat)
    requires i < |slots| && !Used(slots[i])
    ensures Occupied(slots) < |slots|
    ensures Occupied(slots) == |slots| - 1 <==> forall k :: 0 <= k < |slots| && k != i ==> Used(slots[k])
  {
    OccupiedUpdate(slots, i, Slot("", 1, false));
    var full := slots[i := Slot("", 1, false)];
    assert Occupied(full) == |full| <==> forall k :: 0 <= k < |full| ==> Used(full[k]);
    assert forall k :: 0 <= k < |slots| && k != i ==> full[k] == slots[k];
  }

  /** The empty name can be registered exactly when one slot is left. */
  lemma ReplyToEmptyName(t: Table)
    requires Valid(t)
    ensures ReplyTo(t, "") == if t.count == MAX_CLIENTS then Ignored
                              else if t.count == MAX_CLIENTS - 1 then Accepted else NameTaken
  {
    if t.count < MAX_CLIENTS {
      var i := First(t.slots, Free);
      OccupiedAllBut(t.slots, i);
      assert Taken(t.slots, "") <==> exists k :: 0 <= k < |t.slots| && k != i && !Used(t.slots[k]);
    }
  }

  /** A registration over a connection spoils the table exactly when it takes the last slot for the empty name. */
  lemma RegisterKeepsValid(t: Table, name: string, socket: int)
    requires Valid(t) && socket > 0
    ensures Valid(Registered(t, name, socket)) <==> name != "" || t.count != MAX_CLIENTS - 1
  {
    ReplyToEmptyName(t);
    if ReplyTo(t, name).Accepted? {
      AcceptedKeepsValid(t, name, socket);
    }
  }

  /** Without a connection it spoils the table exactly when there is room and the name is new. */
  lemma RegisterWithoutConnection(t: Table, name: string, socket: int)
    requires Valid(t) && socket <= 0
    ensures var spare := if name == "" then t.count == MAX_CLIENTS - 1 else name !in View(t.slots);
            Valid(Registered(t, name, socket)) <==> t.count == MAX_CLIENTS || !spare
  {
    ReplyToEmptyName(t);
    ViewSize(t.slots);
    if name != "" {
      ReplyRefinesMap(t, name);
    }
    if ReplyTo(t, name).Accepted? {
      AcceptedKeepsValid(t, name, socket);
    }
  }

  /** Looking for an empty name finds the same slot as looking for a free socket. */
  lemma FreeSlotIsUnnamed(t: Table)
    requires Valid(t)
    ensures First(t.slots, ByName("")) == First(t.slots, Free)
  {
    var i, j := First(t.slots, ByName("")), First(t.slots, Free);
    assert i < |t.slots| ==> Matches(t.slots[i], Free);
    assert j < |t.slots| ==> Matches(t.slots[j], ByName(""));
  }

  /** A registration is accepted exactly when there is room and nobody has the name. */
  lemma ReplyRefinesMap(t: Table, name: string)
    requires Valid(t) && name != ""
    ensures ReplyTo(t, name) == if |View(t.slots)| >= MAX_CLIENTS then Ignored
                                else if name in View(t.slots) then NameTaken else Accepted
  {
    ViewSize(t.slots);
    ViewNames(t.slots, name);
    if !Unnamed(t.slots, name) {
      var k :| 0 <= k < |t.slots| && Used(t.slots[k]) && t.slots[k].name == name;
      assert k != First(t.slots, Free);
    }
  }

  lemma RegisterRefinesMap(t: Table, name: string, socket: int)
    requires Valid(t) && name != "" && socket > 0
    ensures var m := View(t.slots);
            View(Registered(t, name, socket).slots) ==
            if |m| >= MAX_CLIENTS || name in m then m else m[name := Client(socket, true)]
  {
    ReplyRefinesMap(t, name);
    if ReplyTo(t, name).Accepted? {
      ViewNames(t.slots, name);
      ViewAdd(t.slots, First(t.slots, Free), Slot(name, socket, true));
    }
  }

  /** An accepted registration takes the first free slot and leaves the others as they are. */
  lemma RegisterTakesFirstFreeSlot(t: Table, name: string, socket: int) returns (i: nat)
    requires Counted(t) && ReplyTo(t, name).Accepted?
    ensures i < |t.slots| && t.slots[i].socket <= 0 && forall k :: 0 <= k < i ==> t.slots[k].socket > 0
    ensures Registered(t, name, socket) == Table(t.slots[i := Slot(name, socket, true)], t.count + 1)
  {
    i := First(t.slots, Free);
  }

  // ----- Removal

  /**
    Unregistering the empty name hits the first free slot, and lowers the counter for
    nothing: the table survives exactly when the name is not empty or no slot is free.
   */
  lemma UnregisterKeepsValid(t: Table, name: string)
    requires Valid(t)
    ensures Valid(Unregistered(t, name)) <==> name != "" || t.count == MAX_CLIENTS
  {
    var i := First(t.slots, ByName(name));
    if i < |t.slots| {
      OccupiedUpdate(t.slots, i, Slot("", 0, t.slots[i].responsive));
    }
  }

  lemma UnregisterRefinesMap(t: Table, name: string)
    requires Valid(t) && name != ""
    ensures View(Unregistered(t, name).slots) == View(t.slots) - {name}
  {
    var i := First(t.slots, ByName(name));
    ViewNames(t.slots, name);
    if i < |t.slots| {
      ViewRemove(t.slots, i, Slot("", 0, t.slots[i].responsive));
    }
  }

  /** A connection that closes takes with it a client on that socket, if there is one. */
  lemma DisconnectRefinesMap(t: Table, socket: int)
    requires Valid(t) && socket > 0
    ensures Valid(Disconnected(t, socket))
    ensures var m, m' := View(t.slots), View(Disconnected(t, socket).slots);
            || (m' == m && forall name :: name in m ==> m[name].socket != socket)
            || (exists name :: name in m && m[name].socket == socket && m' == m - {name})
  {
    var i := First(t.slots, BySocket(socket));
    if i < |t.slots| {
      var name := t.slots[i].name;
      UnregisterKeepsValid(t, name);
      UnregisterRefinesMap(t, name);
      ViewEntry(t.slots, i);
    } else {
      NobodyOn(t.slots, socket);
    }
  }

  lemma NobodyOn(slots: seq<Slot>, socket: int)
    requires NamesDiffer(slots) && First(slots, BySocket(socket)) == |slots|
    ensures forall name :: name in View(slots) ==> View(slots)[name].socket != socket
  {
    forall name | name in View(slots)
      ensures View(slots)[name].socket != socket
    {
      ViewNames(slots, name);
      var k :| 0 <= k < |slots| && Used(slots[k]) && slots[k].name == name;
      ViewEntry(slots, k);
    }
  }

  // ----- Pings and the monitor

  lemma PingRefinesMap(t: Table, socket: int)
    requires Valid(t) && socket > 0
    ensures Valid(Answered(t, socket))
    ensures var m, m' := View(t.slots), View(Answered(t, socket).slots);
            || (m' == m && forall name :: name in m ==> m[name].socket != socket)
            || (exists name :: name in m && m[name].socket == socket && m' == m[name := Client(socket, true)])
  {
    var i := First(t.slots, BySocket(socket));
    if i < |t.slots| {
      var slot := t.slots[i].(responsive := true);
      OccupiedUpdate(t.slots, i, slot);
      ViewReplace(t.slots, i, slot);
      ViewEntry(t.slots, i);
      var name := t.slots[i].name;
      assert View(t.slots)[name].socket == socket;
    } else {
      NobodyOn(t.slots, socket);
    }
  }

  /** What one look of the monitor makes of a slot. */
  function Seen(slot: Slot): Slot {
    if !Used(slot) then slot
    else if slot.responsive then slot.(responsive := false)
    else Slot("", 0, false)
  }

  lemma WatchTouchesOneSlot(t: Table, i: nat)
    requires Valid(t) && i < |t.slots|
    ensures Valid(Watched(t, i)) && Watched(t, i).slots == t.slots[i := Seen(t.slots[i])]
  {
    var slot := t.slots[i];
    if Used(slot) && !slot.responsive {
      UnregisterKeepsValid(t, slot.name);
      assert First(t.slots, ByName(slot.name)) == i;
    } else if Used(slot) {
      OccupiedUpdate(t.slots, i, slot.(responsive := false));
    }
  }

  lemma {:induction false} PassTouchesEverySlot(t: Table, i: nat)
    requires Valid(t) && i <= |t.slots|
    ensures Valid(PassFrom(t, i))
    ensures forall k :: 0 <= k < |t.slots| ==>
              PassFrom(t, i).slots[k] == if k < i then t.slots[k] else Seen(t.slots[k])
    decreases |t.slots| - i
  {
    if i < |t.slots| {
      WatchTouchesOneSlot(t, i);
      PassTouchesEverySlot(Watched(t, i), i + 1);
    }
  }

  /** The entries a pass keeps, with the flag lowered. */
  function Kept(m: map<string, Client>): map<string, Client> {
    map name | name in m && m[name].responsive :: Client(m[name].socket, false)
  }

  lemma {:induction false} ViewSeen(slots: seq<Slot>, seen: seq<Slot>)
    requires NamesDiffer(slots) && |seen| == |slots|
    requires forall k :: 0 <= k < |slots| ==> seen[k] == Seen(slots[k])
    ensures View(seen) == Kept(View(slots))
  {
    if slots != [] {
      var n := |slots| - 1;
      ViewSeen(slots[..n], seen[..n]);
      ViewNames(slots[..n], slots[n].name);
    }
  }

  /** A pass removes exactly the clients whose flag is down, and lowers the flag of the others. */
  lemma PassRefinesMap(t: Table)
    requires Valid(t)
    ensures Valid(PassFrom(t, 0)) && View(PassFrom(t, 0).slots) == Kept(View(t.slots))
  {
    PassTouchesEverySlot(t, 0);
    ViewSeen(t.slots, PassFrom(t, 0).slots);
  }

  predicate Reaches(m: map<string, Client>, socket: int) {
    exists name :: name in m && m[name].responsive && m[name].socket == socket
  }

  /** It pings exactly the connections of the clients it keeps. */
  lemma {:induction false} PassPingsTheKept(slots: seq<Slot>, socket: int)
    requires NamesDiffer(slots)
    ensures socket in Responsive(slots) <==> Reaches(View(slots), socket)
  {
    if slots != [] {
      var n := |slots| - 1;
      PassPingsTheKept(slots[..n], socket);
      if Used(slots[n]) {
        ViewNames(slots[..n], slots[n].name);
        ReachesOneMore(View(slots[..n]), slots[n].name, Entry(slots[n]), socket);
      }
    }
  }

  lemma ReachesOneMore(m: map<string, Client>, name: string, c: Client, socket: int)
    requires name !in m
    ensures Reaches(m[name := c], socket) <==> Reaches(m, socket) || (c.responsive && c.socket == socket)
  {
    var more := m[name := c];
    assert more[name] == c;
    if Reaches(m, socket) {
      var other :| other in m && m[other].responsive && m[other].socket == socket;
      assert more[other] == m[other];
    }
  }

  predicate SlotOrder(slots: seq<Slot>, at: seq<nat>) {
    && (forall j, k :: 0 <= j < k < |at| ==> at[j] < at[k])
    && (forall k :: 0 <= k < |at| ==> at[k] < |slots| && Used(slots[at[k]]) && slots[at[k]].responsive)
    && (forall i :: 0 <= i < |slots| && Used(slots[i]) && slots[i].responsive ==> i in at)
  }

  /** The sockets pinged are those of the responsive clients in the order of their slots, each slot once. */
  lemma {:induction false} PassPingsInSlotOrder(slots: seq<Slot>) returns (at: seq<nat>)
    ensures SlotOrder(slots, at)
    ensures |Responsive(slots)| == |at| && forall k :: 0 <= k < |at| ==> Responsive(slots)[k] == slots[at[k]].socket
  {
    if slots == [] {
      at := [];
    } else {
      var n := |slots| - 1;
      var front := PassPingsInSlotOrder(slots[..n]);
      at := front + if Used(slots[n]) && slots[n].responsive then [n] else [];
      OrderExtends(slots, front, at);
    }
  }

  lemma OrderExtends(slots: seq<Slot>, front: seq<nat>, at: seq<nat>)
    requires slots != [] && SlotOrder(slots[..|slots| - 1], front)
    requires at == front + if Used(slots[|slots| - 1]) && slots[|slots| - 1].responsive then [|slots| - 1] else []
    ensures SlotOrder(slots, at)
  {
    var n := |slots| - 1;
    forall i | 0 <= i < |slots| && Used(slots[i]) && slots[i].responsive
      ensures i in at
    {
      if i < n {
        assert slots[..n][i] == slots[i] && i in front;
      } else {
        assert at[|front|] == n;
      }
    }
  }

  /** The clients that a pass pings on `socket`. */
  function PingedOn(m: map<string, Client>, socket: int): set<string> {
    set name | name in m && m[name].responsive && m[name].socket == socket
  }

  lemma PingedOneMore(m: map<string, Client>, name: string, c: Client, socket: int)
    requires name !in m
    ensures |PingedOn(m[name := c], socket)|
              == |PingedOn(m, socket)| + if c.responsive && c.socket == socket then 1 else 0
  {
    var before, after := PingedOn(m, socket), PingedOn(m[name := c], socket);
    assert name !in before;
    if c.responsive && c.socket == socket {
      assert after == before + {name};
    } else {
      assert after == before;
    }
  }

  lemma KeptOneMore(m: map<string, Client>, name: string, c: Client)
    requires name !in m
    ensures |Kept(m[name := c])| == |Kept(m)| + if c.responsive then 1 else 0
  {
    var before, after := Kept(m).Keys, Kept(m[name := c]).Keys;
    assert name !in before;
    if c.responsive {
      assert after == before + {name};
    } else {
      assert after == before;
    }
    assert |Kept(m)| == |before| && |Kept(m[name := c])| == |after|;
  }

  /** A pass sends each client that it keeps one ping. */
  lemma {:induction false} PassPingsEachOnce(slots: seq<Slot>, socket: int)
    requires NamesDiffer(slots)
    ensures multiset(Responsive(slots))[socket] == |PingedOn(View(slots), socket)|
    ensures |Responsive(slots)| == |Kept(View(slots))|
  {
    if slots != [] {
      var n := |slots| - 1;
      PassPingsEachOnce(slots[..n], socket);
      if Used(slots[n]) {
        ViewNames(slots[..n], slots[n].name);
        PingedOneMore(View(slots[..n]), slots[n].name, Entry(slots[n]), socket);
        KeptOneMore(View(slots[..n]), slots[n].name, Entry(slots[n]));
      }
    }
  }

  // ----- Runs of the server

  datatype Event =
    | Register(name: string, socket: int)
    | Unregister(name: string)
    | Closed(socket: int)
    | Ping(socket: int)
    | Pass

  /** Messages name a client, and come over a connection. */
  predicate Proper(e: Event) {
    && (e.Register? || e.Unregister? ==> e.name != "")
    && (e.Register? || e.Closed? || e.Ping? ==> e.socket > 0)
  }

  function Step(t: Table, e: Event): Table
    requires Counted(t)
  {
    match e
    case Register(name, socket) => Registered(t, name, socket)
    case Unregister(name) => Unregistered(t, name)
    case Closed(socket) => Disconnected(t, socket)
    case Ping(socket) => Answered(t, socket)
    case Pass => PassFrom(t, 0)
  }

  /** The same event on a map from names to clients. */
  predicate MapStep(m: map<string, Client>, e: Event, m': map<string, Client>) {
    match e
    case Register(name, socket) => m' == if |m| >= MAX_CLIENTS || name in m then m else m[name := Client(socket, true)]
    case Unregister(name) => m' == m - {name}
    case Closed(socket) =>
      || (m' == m && forall name :: name in m ==> m[name].socket != socket)
      || (exists name :: name in m && m[name].socket == socket && m' == m - {name})
    case Ping(socket) =>
      || (m' == m && forall name :: name in m ==> m[name].socket != socket)
      || (exists name :: name in m && m[name].socket == socket && m' == m[name := Client(socket, true)])
    case Pass => m' == Kept(m)
  }

  /** Every event keeps the table sound and does to it what it should do to the map. */
  lemma StepRefinesMap(t: Table, e: Event)
    requires Valid(t) && Proper(e)
    ensures Valid(Step(t, e)) && MapStep(View(t.slots), e, View(Step(t, e).slots))
  {
    match e
    case Register(name, socket) =>
      RegisterKeepsValid(t, name, socket);
      RegisterRefinesMap(t, name, socket);
    case Unregister(name) =>
      UnregisterKeepsValid(t, name);
      UnregisterRefinesMap(t, name);
    case Closed(socket) =>
      DisconnectRefinesMap(t, socket);
    case Ping(socket) =>
      PingRefinesMap(t, socket);
    case Pass =>
      PassRefinesMap(t);
  }

  predicate AllProper(es: seq<Event>) {
    forall k :: 0 <= k < |es| ==> Proper(es[k])
  }

  function Run(t: Table, es: seq<Event>): (u: Table)
    requires Valid(t) && AllProper(es)
    ensures Valid(u)
    decreases |es|
  {
    if es == [] then t else StepRefinesMap(t, es[0]); Run(Step(t, es[0]), es[1..])
  }

  lemma EmptyIsValid()
    ensures Valid(Empty()) && View(Empty().slots) == map[]
  {
    NobodyIn(Empty().slots);
  }

  /** `maps` begins with `m` and follows the events, each in the way of a map. */
  predicate MapRun(m: map<string, Client>, es: seq<Event>, maps: seq<map<string, Client>>) {
    && |maps| == |es| + 1 && maps[0] == m
    && forall k :: 0 <= k < |es| ==> MapStep(maps[k], es[k], maps[k + 1])
  }

  lemma {:induction false} RunRefinesMap(t: Table, es: seq<Event>) returns (maps: seq<map<string, Client>>)
    requires Valid(t) && AllProper(es)
    ensures MapRun(View(t.slots), es, maps) && maps[|es|] == View(Run(t, es).slots)
    decreases |es|
  {
    maps := [View(t.slots)];
    if es != [] {
      StepRefinesMap(t, es[0]);
      var rest := RunRefinesMap(Step(t, es[0]), es[1..]);
      maps := maps + rest;
      PrependStep(View(t.slots), es, rest);
    }
  }

  lemma PrependStep(m: map<string, Client>, es: seq<Event>, rest: seq<map<string, Client>>)
    requires es != [] && rest != [] && MapStep(m, es[0], rest[0]) && MapRun(rest[0], es[1..], rest)
    ensures MapRun(m, es, [m] + rest)
  {
    var maps := [m] + rest;
    forall k | 0 <= k < |es|
      ensures MapStep(maps[k], es[k], maps[k + 1])
    {
      if k > 0 {
        assert maps[k] == rest[k - 1] && maps[k + 1] == rest[k] && es[k] == es[1..][k - 1];
      }
    }
  }

  /**
    From the empty table of a new server, any events lead to a sound table; its map comes
    from the empty map by the same events, and has as many entries as the counter says.
   */
  lemma ServerRefinesMap(es: seq<Event>) returns (maps: seq<map<string, Client>>)
    requires AllProper(es)
    ensures Valid(Empty()) && MapRun(map[], es, maps)
    ensures var t := Run(Empty(), es);
            Valid(t) && maps[|es|] == View(t.slots) && |maps[|es|]| == t.count <= MAX_CLIENTS
  {
    EmptyIsValid();
    maps := RunRefinesMap(Empty(), es);
    ViewSize(Run(Empty(), es).slots);
  }

  lemma {:induction false} NobodyIn(slots: seq<Slot>)
    requires forall k :: 0 <= k < |slots| ==> !Used(slots[k])
    ensures View(slots) == map[]
  {
    if slots != [] {
      NobodyIn(slots[..|slots| - 1]);
    }
  }

  // ----- Who survives the monitor

  /** In each pass the client on `socket` has answered since the pass before. */
  predicate Answers(es: seq<Event>, socket: int, answered: bool) {
    es == [] ||
    match es[0]
    case Pass => answered && Answers(es[1..], socket, false)
    case Ping(from) => Answers(es[1..], socket, answered || from == socket)
    case _ => Answers(es[1..], socket, answered)
  }

  /** The event neither names the client nor ends or reuses its connection. */
  predicate LeavesAlone(e: Event, name: string, socket: int) {
    && (e.Register? || e.Unregister? ==> e.name != name)
    && (e.Register? || e.Closed? ==> e.socket != socket)
  }

  /** `name` is registered, alone on its connection. */
  predicate Alone(m: map<string, Client>, name: string, socket: int, responsive: bool) {
    && name in m && m[name] == Client(socket, responsive)
    && forall other :: other in m && other != name ==> m[other].socket != socket
  }

  lemma AloneStep(m: map<string, Client>, e: Event, m': map<string, Client>, name: string, socket: int, answered: bool)
    requires Alone(m, name, socket, answered) && MapStep(m, e, m') && LeavesAlone(e, name, socket)
    ensures e.Pass? && !answered ==> name !in m'
    ensures e.Pass? && answered ==> Alone(m', name, socket, false)
    ensures !e.Pass? ==> Alone(m', name, socket, answered || e == Ping(socket))
  {
  }

  lemma {:induction false} GoneStaysGone(t: Table, es: seq<Event>, name: string, socket: int)
    requires Valid(t) && AllProper(es) && name !in View(t.slots)
    requires forall k :: 0 <= k < |es| ==> LeavesAlone(es[k], name, socket)
    ensures name !in View(Run(t, es).slots)
    decreases |es|
  {
    if es != [] {
      StepRefinesMap(t, es[0]);
      GoneStaysGone(Step(t, es[0]), es[1..], name, socket);
    }
  }

  /**
    A client left alone is still registered after any run exactly when it has answered
    before each pass of the monitor.
   */
  lemma {:induction false} KeptExactlyWhenItAnswers(t: Table, es: seq<Event>, name: string, socket: int, answered: bool)
    requires Valid(t) && AllProper(es) && Alone(View(t.slots), name, socket, answered)
    requires forall k :: 0 <= k < |es| ==> LeavesAlone(es[k], name, socket)
    ensures name in View(Run(t, es).slots) <==> Answers(es, socket, answered)
    decreases |es|
  {
    if es != [] {
      var e, next := es[0], Step(t, es[0]);
      StepRefinesMap(t, e);
      AloneStep(View(t.slots), e, View(next.slots), name, socket, answered);
      if e.Pass? && !answered {
        GoneStaysGone(next, es[1..], name, socket);
      } else {
        KeptExactlyWhenItAnswers(next, es[1..], name, socket,
                                 if e.Pass? then false else answered || e == Ping(socket));
      }
    }
  }

  function Passes(es: seq<Event>): nat {
    if es == [] then 0 else Passes(es[1..]) + if es[0].Pass? then 1 else 0
  }

  lemma {:induction false} SilenceIsNoAnswer(es: seq<Event>, socket: int, answered: bool)
    requires forall k :: 0 <= k < |es| ==> es[k] != Ping(socket)
    ensures Answers(es, socket, answered) <==> Passes(es) <= if answered then 1 else 0
  {
    if es != [] {
      SilenceIsNoAnswer(es[1..], socket, if es[0].Pass? then false else answered);
    }
  }

  /** A client that falls silent outlives one pass of the monitor and is gone with the second. */
  lemma SilentClientGoesAtTheSecondPass(t: Table, es: seq<Event>, name: string, socket: int)
    requires Valid(t) && AllProper(es) && Alone(View(t.slots), name, socket, true)
    requires forall k :: 0 <= k < |es| ==> LeavesAlone(es[k], name, socket) && es[k] != Ping(socket)
    ensures name in View(Run(t, es).slots) <==> Passes(es) <= 1
  {
    KeptExactlyWhenItAnswers(t, es, name, socket, true);
    SilenceIsNoAnswer(es, socket, true);
  }
}
