/**
  Sorting a file of fixed-size records in place: an insertion sort that reaches the
  records only through reads, writes and relative seeks at one byte cursor.
 */
module RecordSort {

  type Byte = b: int | 0 <= b < 256

  type Record = seq<Byte>

  datatype Whence = FromStart | FromCursor

  /** A regular file with its cursor. */
  class File {
    var data: seq<Byte>
    var cursor: nat

    constructor (contents: seq<Byte>)
      ensures data == contents && cursor == 0
    {
      data, cursor := contents, 0;
    }

    /** A seek to before the start of the file fails and leaves the cursor alone. */
    method Seek(offset: int, whence: Whence)
      modifies this`cursor
      ensures var target := if whence.FromStart? then offset else old(cursor) + offset;
              cursor == if target < 0 then old(cursor) else target
    {
      var target := if whence.FromStart? then offset else cursor + offset;
      if target >= 0 {
        cursor := target;
      }
    }

    /** Reads at most `size` bytes, fewer at the end of the file. */
    method Read(size: nat) returns (bytes: seq<Byte>)
      modifies this`cursor
      ensures bytes == BytesAt(data, old(cursor), size)
      ensures cursor == old(cursor) + |bytes|
    {
      bytes := BytesAt(data, cursor, size);
      cursor := cursor + |bytes|;
    }

    method Write(bytes: seq<Byte>)
      modifies this
      ensures data == Overwritten(old(data), old(cursor), bytes)
      ensures cursor == old(cursor) + |bytes|
    {
      data := Overwritten(data, cursor, bytes);
      cursor := cursor + |bytes|;
    }
  }

  function BytesAt(data: seq<Byte>, from: nat, size: nat): seq<Byte> {
    if from >= |data| then [] else if from + size <= |data| then data[from..from + size] else data[from..]
  }

  /** A write past the end extends the file, with zeros in between. */
  function Overwritten(data: seq<Byte>, from: nat, bytes: seq<Byte>): seq<Byte> {
    if bytes == [] then data
    else if from > |data| then data + seq(from - |data|, _ => 0) + bytes
    else if from + |bytes| <= |data| then data[..from] + bytes + data[from + |bytes|..]
    else data[..from] + bytes
  }

  // ----- The specification: a stable insertion sort by first byte

  predicate Below(a: Record, b: Record)
    requires a != [] && b != []
  {
    a[0] < b[0]
  }

  predicate Records(rs: seq<Record>, size: nat) {
    forall k :: 0 <= k < |rs| ==> |rs[k]| == size
  }

  /** `r` goes behind the last record that is not above it. */
  function Insert(rs: seq<Record>, r: Record, size: nat): (out: seq<Record>)
    requires 1 <= size && Records(rs, size) && |r| == size
    ensures Records(out, size) && |out| == |rs| + 1
  {
    if rs != [] && Below(r, rs[|rs| - 1]) then Insert(rs[..|rs| - 1], r, size) + [rs[|rs| - 1]] else rs + [r]
  }

  function Sorted(rs: seq<Record>, size: nat): (out: seq<Record>)
    requires 1 <= size && Records(rs, size)
    ensures Records(out, size) && |out| == |rs|
  {
    if rs == [] then [] else Insert(Sorted(rs[..|rs| - 1], size), rs[|rs| - 1], size)
  }

  predicate InOrder(rs: seq<Record>, size: nat)
    requires 1 <= size && Records(rs, size)
  {
    forall j, k :: 0 <= j < k < |rs| ==> rs[j][0] <= rs[k][0]
  }

  /** The records with first byte `key`, in their order. */
  function WithKey(rs: seq<Record>, key: Byte): seq<Record> {
    if rs == [] then [] else
    WithKey(rs[..|rs| - 1], key) + if rs[|rs| - 1] != [] && rs[|rs| - 1][0] == key then [rs[|rs| - 1]] else []
  }

  predicate AtMost(rs: seq<Record>, size: nat, key: Byte)
    requires 1 <= size && Records(rs, size)
  {
    forall k :: 0 <= k < |rs| ==> rs[k][0] <= key
  }

  lemma {:induction false} InsertAtMost(rs: seq<Record>, r: Record, size: nat, key: Byte)
    requires 1 <= size && Records(rs, size) && |r| == size
    requires AtMost(rs, size, key) && r[0] <= key
    ensures AtMost(Insert(rs, r, size), size, key)
  {
    if rs != [] && Below(r, rs[|rs| - 1]) {
      InsertAtMost(rs[..|rs| - 1], r, size, key);
    }
  }

  lemma {:induction false} InsertIsInOrder(rs: seq<Record>, r: Record, size: nat)
    requires 1 <= size && Records(rs, size) && |r| == size && InOrder(rs, size)
    ensures InOrder(Insert(rs, r, size), size)
  {
    if rs != [] {
      var n := |rs| - 1;
      if Below(r, rs[n]) {
        InsertIsInOrder(rs[..n], r, size);
        InsertAtMost(rs[..n], r, size, rs[n][0]);
      }
    }
  }

  lemma {:induction false} InsertIsPermutation(rs: seq<Record>, r: Record, size: nat)
    requires 1 <= size && Records(rs, size) && |r| == size
    ensures multiset(Insert(rs, r, size)) == multiset(rs) + multiset{r}
  {
    if rs != [] && Below(r, rs[|rs| - 1]) {
      var n := |rs| - 1;
      InsertIsPermutation(rs[..n], r, size);
      assert rs == rs[..n] + [rs[n]];
    }
  }

  lemma {:induction false} InsertIsStable(rs: seq<Record>, r: Record, size: nat, key: Byte)
    requires 1 <= size && Records(rs, size) && |r| == size && InOrder(rs, size)
    ensures WithKey(Insert(rs, r, size), key) == WithKey(rs, key) + if r[0] == key then [r] else []
  {
    var out := Insert(rs, r, size);
    if rs != [] && Below(r, rs[|rs| - 1]) {
      var n := |rs| - 1;
      InsertIsStable(rs[..n], r, size, key);
      assert out[..n + 1] == Insert(rs[..n], r, size);
    } else {
      assert out[..|rs|] == rs;
    }
  }

  lemma {:induction false} SortedIsInOrder(rs: seq<Record>, size: nat)
    requires 1 <= size && Records(rs, size)
    ensures InOrder(Sorted(rs, size), size)
  {
    if rs != [] {
      var n := |rs| - 1;
      SortedIsInOrder(rs[..n], size);
      InsertIsInOrder(Sorted(rs[..n], size), rs[n], size);
    }
  }

  lemma {:induction false} SortedIsPermutation(rs: seq<Record>, size: nat)
    requires 1 <= size && Records(rs, size)
    ensures multiset(Sorted(rs, size)) == multiset(rs)
  {
    if rs != [] {
      var n := |rs| - 1;
      SortedIsPermutation(rs[..n], size);
      InsertIsPermutation(Sorted(rs[..n], size), rs[n], size);
      assert rs == rs[..n] + [rs[n]];
    }
  }

  /** Records with equal keys keep their order. */
  lemma {:induction false} SortedIsStable(rs: seq<Record>, size: nat, key: Byte)
    requires 1 <= size && Records(rs, size)
    ensures WithKey(Sorted(rs, size), key) == WithKey(rs, key)
  {
    if rs != [] {
      var n := |rs| - 1;
      SortedIsStable(rs[..n], size, key);
      SortedIsInOrder(rs[..n], size);
      InsertIsStable(Sorted(rs[..n], size), rs[n], size, key);
    }
  }

  // ----- Records as bytes

  /** Byte position of record `k`. */
  function Offset(k: nat, size: nat): nat {
    if k == 0 then 0 else Offset(k - 1, size) + size
  }

  lemma {:induction false} OffsetIsProduct(k: nat, size: nat)
    ensures Offset(k, size) == k * size
  {
    if k > 0 {
      OffsetIsProduct(k - 1, size);
    }
  }

  function Flat(rs: seq<Record>): seq<Byte> {
    if rs == [] then [] else Flat(rs[..|rs| - 1]) + rs[|rs| - 1]
  }

  lemma {:induction false} FlatConcat(a: seq<Record>, b: seq<Record>)
    ensures Flat(a + b) == Flat(a) + Flat(b)
  {
    if b == [] {
      assert a + b == a;
    } else {
      var n := |b| - 1;
      FlatConcat(a, b[..n]);
      assert (a + b)[..|a + b| - 1] == a + b[..n];
    }
  }

  lemma {:induction false} FlatLength(rs: seq<Record>, size: nat)
    requires Records(rs, size)
    ensures |Flat(rs)| == Offset(|rs|, size)
  {
    if rs != [] {
      FlatLength(rs[..|rs| - 1], size);
    }
  }

  lemma MiddleAccess(front: seq<Byte>, middle: seq<Byte>, back: seq<Byte>, bytes: seq<Byte>)
    requires |middle| == |bytes| > 0
    ensures BytesAt(front + middle + back, |front|, |middle|) == middle
    ensures Overwritten(front + middle + back, |front|, bytes) == front + bytes + back
  {
  }

  /** A sequence of records around record `k`, as bytes. */
  lemma FlatAround(front: seq<Record>, r: Record, back: seq<Record>, tail: seq<Byte>)
    ensures Flat(front + [r] + back) + tail == Flat(front) + r + (Flat(back) + tail)
  {
    FlatConcat(front + [r], back);
    FlatConcat(front, [r]);
    assert Flat([r]) == r;
  }

  /** Reading and overwriting record `k` of a file that holds the records `rs`. */
  lemma RecordAccess(rs: seq<Record>, tail: seq<Byte>, k: nat, size: nat, r: Record)
    requires Records(rs, size) && k < |rs| && |r| == size && 1 <= size
    ensures BytesAt(Flat(rs) + tail, Offset(k, size), size) == rs[k]
    ensures Overwritten(Flat(rs) + tail, Offset(k, size), r) == Flat(rs[k := r]) + tail
  {
    var front, back := rs[..k], rs[k + 1..];
    assert rs == front + [rs[k]] + back && rs[k := r] == front + [r] + back;
    FlatAround(front, rs[k], back, tail);
    FlatAround(front, r, back, tail);
    FlatLength(front, size);
    MiddleAccess(Flat(front), rs[k], Flat(back) + tail, r);
  }

  lemma OffsetStep(k: nat, size: nat)
    requires 0 < k
    ensures Offset(k, size) - size == Offset(k - 1, size)
    ensures 0 <= Offset(k - 1, size)
  {
  }

  lemma {:induction false} OffsetSum(k: nat, n: nat, size: nat)
    ensures Offset(k + n, size) == Offset(k, size) + n * size
  {
    OffsetIsProduct(k + n, size);
    OffsetIsProduct(k, size);
  }

  /** The first `records` records of the file, when it has that many. */
  function RecordsOf(data: seq<Byte>, size: nat, records: nat): (rs: seq<Record>)
    requires Offset(records, size) <= |data|
    ensures Records(rs, size) && |rs| == records
    decreases records
  {
    if records == 0 then [] else
    RecordsOf(data, size, records - 1) + [data[Offset(records - 1, size)..Offset(records, size)]]
  }

  lemma {:induction false} RecordsAndRest(data: seq<Byte>, size: nat, records: nat)
    requires Offset(records, size) <= |data|
    ensures data == Flat(RecordsOf(data, size, records)) + data[Offset(records, size)..]
  {
    if records > 0 {
      RecordsAndRest(data, size, records - 1);
      assert RecordsOf(data, size, records)[..records - 1] == RecordsOf(data, size, records - 1);
    }
  }

  // ----- The sort

  /** How many of the first `records` records the file really has. */
  function Whole(data: seq<Byte>, size: nat, records: nat): (m: nat)
    ensures m <= records && Offset(m, size) <= |data|
    ensures m < records ==> |data| < Offset(m + 1, size)
  {
    if Offset(records, size) <= |data| then records else Whole(data, size, records - 1)
  }

  /** The file holds the records `rs`, which go up to byte |Flat(rs)|, and then `tail`. */
  ghost predicate Holds(file: File, rs: seq<Record>, tail: seq<Byte>, size: nat)
    reads file`data
  {
    Records(rs, size) && file.data == Flat(rs) + tail
  }

  method ReadRecord(file: File, k: nat, size: nat, ghost rs: seq<Record>, ghost tail: seq<Byte>) returns (r: Record)
    requires 1 <= size && k < |rs| && Holds(file, rs, tail, size) && file.cursor == Offset(k, size)
    modifies file
    ensures r == rs[k] && Holds(file, rs, tail, size) && file.cursor == Offset(k + 1, size)
  {
    RecordAccess(rs, tail, k, size, rs[k]);
    r := file.Read(size);
  }

  method WriteRecord(file: File, r: Record, k: nat, size: nat, ghost rs: seq<Record>, ghost tail: seq<Byte>)
    requires 1 <= size == |r| && k < |rs| && Holds(file, rs, tail, size) && file.cursor == Offset(k, size)
    modifies file
    ensures Holds(file, rs[k := r], tail, size) && file.cursor == Offset(k + 1, size)
  {
    RecordAccess(rs, tail, k, size, r);
    file.Write(r);
  }

  /** The records during the inner loop: a gap at `pos`, which still holds some record. */
  function WithGap(done: seq<Record>, pos: nat, gap: Record, rest: seq<Record>): (rs: seq<Record>)
    requires pos <= |done|
    ensures |rs| == |done| + 1 + |rest| && rs[pos] == gap
    ensures pos > 0 ==> rs[pos - 1] == done[pos - 1]
  {
    done[..pos] + [gap] + (done[pos..] + rest)
  }

  lemma GapMoves(done: seq<Record>, pos: nat, gap: Record, rest: seq<Record>, r: Record)
    requires pos <= |done|
    ensures WithGap(done, pos, gap, rest)[pos := r] == WithGap(done, pos, r, rest)
    ensures pos > 0 ==> WithGap(done, pos, done[pos - 1], rest) == WithGap(done, pos - 1, done[pos - 1], rest)
  {
    if pos > 0 {
      assert done[..pos] == done[..pos - 1] + [done[pos - 1]];
      assert done[pos - 1..] == [done[pos - 1]] + done[pos..];
    }
  }

  lemma {:induction false} InsertAt(done: seq<Record>, pos: nat, r: Record, size: nat)
    requires 1 <= size == |r| && Records(done, size) && pos <= |done|
    requires pos == 0 || !Below(r, done[pos - 1])
    requires forall k :: pos <= k < |done| ==> Below(r, done[k])
    ensures Insert(done, r, size) == done[..pos] + [r] + done[pos..]
  {
    var n := |done| - 1;
    if pos <= n {
      InsertAt(done[..n], pos, r, size);
      assert done[pos..] == done[..n][pos..] + [done[n]] && done[..n][..pos] == done[..pos];
    } else {
      assert done[..pos] == done && done[pos..] == [];
    }
  }

  lemma GapCloses(done: seq<Record>, pos: nat, gap: Record, rest: seq<Record>, r: Record, size: nat)
    requires 1 <= size == |r| && Records(done, size) && pos <= |done|
    requires pos == 0 || !Below(r, done[pos - 1])
    requires forall k :: pos <= k < |done| ==> Below(r, done[k])
    ensures WithGap(done, pos, gap, rest)[pos := r] == Insert(done, r, size) + rest
  {
    GapMoves(done, pos, gap, rest, r);
    InsertAt(done, pos, r, size);
    assert WithGap(done, pos, r, rest) == done[..pos] + [r] + done[pos..] + rest;
  }

  /**
    The inner loop: from the end of `done` leftwards, moves the records above `current`
    a place to the right each and writes `current` into the gap.
   */
  method PutInPlace(file: File, current: Record, size: nat,
                    ghost done: seq<Record>, ghost rest: seq<Record>, ghost tail: seq<Byte>, i: nat)
    returns (pos: nat)
    requires 1 <= size == |current| && i == |done| && file.cursor == Offset(i, size)
    requires Records(done, size) && Records(rest, size) && Holds(file, WithGap(done, i, current, rest), tail, size)
    modifies file
    ensures pos <= i && file.cursor == Offset(pos + 1, size)
    ensures Holds(file, Insert(done, current, size) + rest, tail, size)
  {
    ghost var gap := current;
    pos := i;
    while pos > 0
      invariant pos <= i && file.cursor == Offset(pos, size)
      invariant Holds(file, WithGap(done, pos, gap, rest), tail, size)
      invariant forall k :: pos <= k < i ==> Below(current, done[k])
    {
      OffsetStep(pos, size);
      file.Seek(-1 * size, FromCursor);
      var buffer := ReadRecord(file, pos - 1, size, WithGap(done, pos, gap, rest), tail);
      if !Below(current, buffer) {
        break;
      }
      WriteRecord(file, buffer, pos, size, WithGap(done, pos, gap, rest), tail); // over the gap
      GapMoves(done, pos, gap, rest, buffer);
      gap := buffer;
      file.Seek(-2 * size, FromCursor);
      pos := pos - 1;
    }
    WriteRecord(file, current, pos, size, WithGap(done, pos, gap, rest), tail);
    GapCloses(done, pos, gap, rest, current, size);
  }

  /** The first `i` records are sorted, the others untouched. */
  function SortedUpTo(original: seq<Record>, i: nat, size: nat): (rs: seq<Record>)
    requires 1 <= size && Records(original, size) && i <= |original|
    ensures Records(rs, size) && |rs| == |original|
  {
    Sorted(original[..i], size) + original[i..]
  }

  lemma SortedOneMore(original: seq<Record>, i: nat, size: nat)
    requires 1 <= size && Records(original, size) && i < |original|
    ensures var done, rest := Sorted(original[..i], size), original[i + 1..];
            && SortedUpTo(original, i, size) == WithGap(done, i, original[i], rest)
            && SortedUpTo(original, i + 1, size) == Insert(done, original[i], size) + rest
  {
    assert original[..i + 1][..i] == original[..i];
    assert original[i..] == [original[i]] + original[i + 1..];
  }

  /**
    Sorts the first `records` records; false when the file ends too early.  In that case
    the records it does have are sorted.  The rest of the file is left alone.
   */
  method Sort(file: File, records: nat, size: nat) returns (ok: bool)
    requires 1 <= size
    modifies file
    ensures var m := Whole(old(file.data), size, records);
            && (ok <==> records <= 1 || m == records)
            && file.data == Flat(Sorted(RecordsOf(old(file.data), size, m), size)) + old(file.data)[Offset(m, size)..]
  {
    ghost var m := Whole(file.data, size, records);
    RecordsAndRest(file.data, size, m);
    SortedStart(RecordsOf(file.data, size, m), size);
    SortedEnd(RecordsOf(file.data, size, m), size);
    ok := SortFrom(file, records, size, RecordsOf(file.data, size, m), file.data[Offset(m, size)..]);
  }

  /** How many records are sorted before the loop starts. */
  function OneIfAny(original: seq<Record>): nat {
    if original == [] then 0 else 1
  }

  method SortFrom(file: File, records: nat, size: nat,
                  ghost original: seq<Record>, ghost tail: seq<Byte>) returns (ok: bool)
    requires 1 <= size && Records(original, size) && |original| <= records
    requires |original| < records ==> |tail| < size
    requires Holds(file, SortedUpTo(original, OneIfAny(original), size), tail, size)
    modifies file
    ensures ok <==> records <= 1 || |original| == records
    ensures Holds(file, SortedUpTo(original, |original|, size), tail, size)
  {
    file.Seek(size, FromStart);
    var i := 1;
    ghost var sorted := OneIfAny(original);
    while i < records
      invariant 1 <= i && sorted <= |original| && (sorted == i || (sorted == 0 == |original| && i == 1))
      invariant file.cursor == Offset(i, size)
      invariant Holds(file, SortedUpTo(original, sorted, size), tail, size)
    {
      var whole := PlaceNext(file, i, size, original, tail, sorted);
      if !whole {
        break;
      }
      i := i + 1;
      sorted := i;
    }
    ok := i >= records;
  }

  /** One turn of the outer loop; false when the file has no whole record left to read. */
  method PlaceNext(file: File, i: nat, size: nat, ghost original: seq<Record>, ghost tail: seq<Byte>, ghost sorted: nat)
    returns (whole: bool)
    requires 1 <= size && 1 <= i && Records(original, size)
    requires |original| <= i ==> |tail| < size
    requires sorted <= |original| && (sorted == i || (sorted == 0 == |original| && i == 1))
    requires Holds(file, SortedUpTo(original, sorted, size), tail, size)
    requires file.cursor == Offset(i, size)
    modifies file
    ensures whole <==> i < |original|
    ensures whole ==> file.cursor == Offset(i + 1, size) && Holds(file, SortedUpTo(original, i + 1, size), tail, size)
    ensures !whole ==> Holds(file, SortedUpTo(original, sorted, size), tail, size)
  {
    var current := ReadNext(file, i, size, original, tail, sorted);
    whole := |current| == size;
    if whole {
      file.Seek(-1 * size, FromCursor); // back over the record just read
      var pos := PutInPlace(file, current, size, Sorted(original[..i], size), original[i + 1..], tail, i);
      SortedOneMore(original, i, size);
      pos := pos + 1;
      SkipTo(file, pos, i + 1, size);
    }
  }

  method SkipTo(file: File, pos: nat, next: nat, size: nat)
    requires pos <= next && file.cursor == Offset(pos, size)
    modifies file`cursor
    ensures file.cursor == Offset(next, size)
  {
    var skip := next - pos;
    OffsetSum(pos, skip, size);
    file.Seek(skip * size, FromCursor);
  }

  /** The read at the head of the outer loop: a whole record, or too few bytes. */
  method ReadNext(file: File, i: nat, size: nat,
                  ghost original: seq<Record>, ghost tail: seq<Byte>, ghost sorted: nat)
    returns (bytes: seq<Byte>)
    requires 1 <= size && 1 <= i && Records(original, size)
    requires |original| <= i ==> |tail| < size
    requires sorted <= |original| && (sorted == i || (sorted == 0 == |original| && i == 1))
    requires Holds(file, SortedUpTo(original, sorted, size), tail, size)
    requires file.cursor == Offset(i, size)
    modifies file`cursor
    ensures |bytes| == size <==> i < |original|
    ensures i < |original| ==>
              && file.cursor == Offset(i + 1, size)
              && bytes == original[i]
              && Holds(file, WithGap(Sorted(original[..i], size), i, original[i], original[i + 1..]), tail, size)
  {
    bytes := file.Read(size);
    if i < |original| {
      SortedOneMore(original, i, size);
      RecordAccess(SortedUpTo(original, i, size), tail, i, size, original[i]);
    } else {
      ShortFile(file, SortedUpTo(original, |original|, size), tail, size, i);
    }
  }

  lemma SortedStart(original: seq<Record>, size: nat)
    requires 1 <= size && Records(original, size)
    ensures SortedUpTo(original, OneIfAny(original), size) == original
  {
    assert Sorted(original[..0], size) == [];
    if original != [] {
      SortedOneMore(original, 0, size);
      assert Insert([], original[0], size) == [original[0]];
    }
  }

  lemma SortedEnd(original: seq<Record>, size: nat)
    requires 1 <= size && Records(original, size)
    ensures SortedUpTo(original, |original|, size) == Sorted(original, size)
  {
    assert original[..|original|] == original;
  }

  /** At the end of the records less than a record is left to read. */
  lemma ShortFile(file: File, rs: seq<Record>, tail: seq<Byte>, size: nat, k: nat)
    requires 1 <= size && |tail| < size && Holds(file, rs, tail, size)
    requires k == |rs| || (k == 1 && rs == [])
    ensures |BytesAt(file.data, Offset(k, size), size)| < size
  {
    FlatLength(rs, size);
    assert Offset(1, size) == Offset(0, size) + size;
  }
}
