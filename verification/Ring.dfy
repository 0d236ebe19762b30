/**
  The ring of slots that both bounded buffers use, and the FIFO queue that a ring
  represents when its occupied slots form one segment.
 */
module Ring {
  import opened Options

  type Line = string

  datatype Role = Producer | Consumer

  function Succ(pos: nat, size: nat): (next: nat)
    requires pos < size
    ensures next < size
    ensures next == if pos + 1 == size then 0 else pos + 1
  {
    (pos + 1) % size
  }

  predicate Suits(slot: Option<Line>, role: Role) {
    slot.None? <==> role.Producer?
  }

  datatype Fifo = Fifo(start: nat, items: seq<Line>)

  /** The ring position `i` places after `start`, for `i` up to the size. */
  function Place(start: nat, i: nat, size: nat): (place: nat)
    requires start < size && i <= size
    ensures place < size
  {
    if start + i < size then start + i else start + i - size
  }

  predicate Fits(f: Fifo, size: nat) {
    f.start < size && |f.items| <= size
  }

  /** The occupied slots are exactly the ring segment of the queue's lines. */
  predicate RingOk(buffer: seq<Option<Line>>, f: Fifo) {
    && Fits(f, |buffer|)
    && forall i :: 0 <= i < |buffer| ==>
         buffer[Place(f.start, i, |buffer|)] == if i < |f.items| then Some(f.items[i]) else None
  }

  lemma RingEnqueue(buffer: seq<Option<Line>>, f: Fifo, line: Line)
    requires RingOk(buffer, f) && |f.items| < |buffer|
    ensures RingOk(buffer[Place(f.start, |f.items|, |buffer|) := Some(line)], Fifo(f.start, f.items + [line]))
  {
  }

  lemma RingDequeue(buffer: seq<Option<Line>>, f: Fifo)
    requires RingOk(buffer, f) && f.items != []
    ensures buffer[f.start] == Some(f.items[0])
    ensures RingOk(buffer[f.start := None], Fifo(Succ(f.start, |buffer|), f.items[1..]))
  {
    var n := |buffer|;
    assert Place(f.start, 0, n) == f.start;
    var g, b := Fifo(Succ(f.start, n), f.items[1..]), buffer[f.start := None];
    forall i | 0 <= i < n ensures b[Place(g.start, i, n)] == if i < |g.items| then Some(g.items[i]) else None {
      if i + 1 < n {
        assert Place(g.start, i, n) == Place(f.start, i + 1, n);
      } else {
        assert Place(g.start, i, n) == f.start;
      }
    }
  }

  lemma SlotHasPlace(start: nat, i: nat, size: nat) returns (k: nat)
    requires start < size && i < size
    ensures k < size && Place(start, k, size) == i
  {
    k := if i >= start then i - start else i + size - start;
  }

  lemma FullRing(buffer: seq<Option<Line>>, f: Fifo)
    requires RingOk(buffer, f) && |f.items| == |buffer|
    ensures forall slot <- buffer :: slot.Some?
  {
    forall i | 0 <= i < |buffer|
      ensures buffer[i].Some?
    {
      var k := SlotHasPlace(f.start, i, |buffer|);
    }
  }

  lemma EmptyRing(buffer: seq<Option<Line>>, f: Fifo)
    requires RingOk(buffer, f) && f.items == []
    ensures forall slot <- buffer :: slot.None?
  {
    forall i | 0 <= i < |buffer|
      ensures buffer[i].None?
    {
      var k := SlotHasPlace(f.start, i, |buffer|);
    }
  }

  /** The queue after a step by a thread of this role: a transfer enqueues its line or dequeues the oldest. */
  function NextFifo(f: Fifo, transfers: bool, role: Role, line: Line, size: nat): Fifo
    requires f.start < size
  {
    if !transfers then f
    else if role.Producer? then Fifo(f.start, f.items + [line])
    else if f.items == [] then f
    else Fifo(Succ(f.start, size), f.items[1..])
  }

  // ----- Lines that come in and slots that are emptied

  function Filled(lines: seq<Line>): (slots: seq<Option<Line>>)
    ensures |slots| == |lines|
  {
    seq(|lines|, i requires 0 <= i < |lines| => Some(lines[i]))
  }

  lemma Enqueued(written: seq<Line>, taken: seq<Option<Line>>, items: seq<Line>, line: Line)
    requires Filled(written) == taken + Filled(items)
    ensures Filled(written + [line]) == taken + Filled(items + [line])
  {
    assert Filled(written + [line]) == Filled(written) + [Some(line)];
    assert Filled(items + [line]) == Filled(items) + [Some(line)];
  }

  lemma Dequeued(written: seq<Line>, taken: seq<Option<Line>>, items: seq<Line>)
    requires Filled(written) == taken + Filled(items) && items != []
    ensures Filled(written) == taken + [Some(items[0])] + Filled(items[1..])
  {
    assert Filled(items) == [Some(items[0])] + Filled(items[1..]);
  }

  // ----- A producer's input

  /** The input is what the producer wrote, the line in its hand, and what it has not read. */
  predicate Accounted(input: seq<Line>, written: seq<Line>, hand: seq<Line>, unread: seq<Line>) {
    input == written + hand + unread
  }

  lemma ReadOne(input: seq<Line>, written: seq<Line>, unread: seq<Line>)
    requires Accounted(input, written, [], unread) && unread != []
    ensures Accounted(input, written, [unread[0]], unread[1..])
  {
    assert written + [] + unread == written + [unread[0]] + unread[1..];
  }

  lemma WroteOne(input: seq<Line>, written: seq<Line>, line: Line, unread: seq<Line>)
    requires Accounted(input, written, [line], unread)
    ensures Accounted(input, written + [line], [], unread)
  {
    assert written + [line] + unread == written + [line] + [] + unread;
  }

  lemma WroteAllExactlyWhen(input: seq<Line>, written: seq<Line>, hand: seq<Line>, unread: seq<Line>)
    requires Accounted(input, written, hand, unread)
    ensures written == input <==> hand == [] && unread == []
  {
    assert hand == [] && unread == [] ==> written + hand + unread == written;
  }

  lemma PlaceIsModulo(start: nat, i: nat, size: nat)
    requires start < size && i <= size
    ensures Place(start, i, size) == (start + i) % size
  {
    if start + i >= size {
      ModuloOnce(start + i - size, size);
    }
  }

  lemma ModuloOnce(rest: nat, size: nat)
    requires rest < size
    ensures (rest + size) % size == rest
  {
    var q := (rest + size) / size;
    assert rest + size == q * size + (rest + size) % size;
    if q >= 2 {
      TwiceAtMost(q, size);
    }
  }

  lemma TwiceAtMost(q: nat, size: nat)
    requires 2 <= q
    ensures 2 * size <= q * size
  {
    assert q * size == 2 * size + (q - 2) * size;
  }

  lemma AppendAssociates<T>(a: seq<T>, b: seq<T>, c: seq<T>)
    ensures a + (b + c) == a + b + c
  {
  }
}
