/**
  Dividing the rows of a picture among worker threads.  Every worker filters its own
  rows, pixel by pixel; the workers share the output picture without a lock.
 */
module ParallelFilter {
  import opened Convolution

  datatype Job = Job(task: Task, threads: nat) {
    predicate Valid() {
      task.Valid() && threads > 0
    }

    function PartLen(): nat
      requires Valid()
    {
      DivCeil(task.Height(), threads)
    }

    function Begin(k: nat): nat
      requires Valid()
    {
      k * PartLen()
    }

    function End(k: nat): nat
      requires Valid()
    {
      if Begin(k) + PartLen() <= task.Height() then Begin(k) + PartLen() else task.Height()
    }

    predicate InPart(k: nat, row: nat)
      requires Valid()
    {
      Begin(k) <= row < End(k)
    }
  }

  lemma MulMonotone(a: nat, b: nat, n: nat)
    requires a <= b
    ensures a * n <= b * n
  {
  }

  lemma PartsApart(k: nat, other: nat, len: nat)
    requires k < other
    ensures k * len + len <= other * len
  {
    MulMonotone(k + 1, other, len);
  }

  /** No row is in two parts. */
  lemma PartsAreDisjoint(j: Job, k: nat, other: nat, row: nat)
    requires j.Valid() && j.InPart(k, row) && j.InPart(other, row)
    ensures k == other
  {
    if k < other {
      PartsApart(k, other, j.PartLen());
    } else if other < k {
      PartsApart(other, k, j.PartLen());
    }
  }

  /** No part is longer than an even division needs: one row less for each thread would leave rows over. */
  lemma PartsAreEven(j: Job, k: nat)
    requires j.Valid() && j.Begin(k) < j.End(k)
    ensures (j.End(k) - j.Begin(k) - 1) * j.threads < j.task.Height()
  {
    DivCeilIsCeiling(j.task.Height(), j.threads);
    MulMonotone(j.End(k) - j.Begin(k) - 1, j.PartLen() - 1, j.threads);
  }

  /** Every row is in the part of one of the threads; with more threads than parts the late parts are empty. */
  lemma EveryRowHasAWorker(j: Job, row: nat) returns (k: nat)
    requires j.Valid() && row < j.task.Height()
    ensures k < j.threads && j.InPart(k, row)
  {
    var len := j.PartLen();
    DivCeilIsCeiling(j.task.Height(), j.threads);
    if len == 0 {
      assert false;
    }
    k := row / len;
    DivideRow(row, len);
    if k >= j.threads {
      MulMonotone(j.threads, k, len);
      assert false;
    }
  }

  lemma DivideRow(row: nat, len: nat)
    requires len > 0
    ensures row / len * len <= row < row / len * len + len
  {
  }

  // ----- The threads one after another, on the shared output array

  predicate Fits(t: Task, out: array2<int>) {
    out.Length0 == t.Height() && out.Length1 == t.width
  }

  method ProcessPart(t: Task, out: array2<int>, begin: nat, end: nat)
    requires t.Valid() && Fits(t, out) && end <= t.Height()
    modifies out
    ensures forall r, c :: 0 <= r < out.Length0 && 0 <= c < out.Length1 ==>
              out[r, c] == if begin <= r < end then Pixel(t, r, c) else old(out[r, c])
  {
    var i := begin;
    while i < end
      invariant i <= end || i == begin
      invariant forall r, c :: 0 <= r < out.Length0 && 0 <= c < out.Length1 ==>
                  out[r, c] == if begin <= r < i then Pixel(t, r, c) else old(out[r, c])
    {
      for j := 0 to t.width
        invariant forall r, c :: 0 <= r < out.Length0 && 0 <= c < out.Length1 ==>
                    out[r, c] == if begin <= r < i || (r == i && c < j) then Pixel(t, r, c) else old(out[r, c])
      {
        out[i, j] := CalcPixelValue(t, i, j);
      }
      i := i + 1;
    }
  }

  method ProcessImage(j: Job, out: array2<int>)
    requires j.Valid() && Fits(j.task, out)
    modifies out
    ensures forall r, c :: 0 <= r < out.Length0 && 0 <= c < out.Length1 ==> out[r, c] == Pixel(j.task, r, c)
  {
    var partLen := DivCeil(j.task.Height(), j.threads);
    for i := 0 to j.threads
      invariant forall r, c, k :: 0 <= r < out.Length0 && 0 <= c < out.Length1 && 0 <= k < i && j.InPart(k, r) ==>
                  out[r, c] == Pixel(j.task, r, c)
    {
      var begin := i * partLen;
      var end := if begin + partLen <= j.task.Height() then begin + partLen else j.task.Height();
      ProcessPart(j.task, out, begin, end);
    }
    forall r, c | 0 <= r < out.Length0 && 0 <= c < out.Length1
      ensures out[r, c] == Pixel(j.task, r, c)
    {
      var k := EveryRowHasAWorker(j, r);
    }
  }

  // ----- The threads at the same time

  /** Where a thread is in its two loops. */
  datatype Worker = Worker(row: nat, col: nat)

  datatype State = State(out: Picture, workers: seq<Worker>)

  function Start(j: Job, out: Picture): State
    requires j.Valid()
  {
    State(out, seq(j.threads, k requires 0 <= k => Worker(j.Begin(k), 0)))
  }

  predicate Sized(j: Job, s: State)
    requires j.Valid()
  {
    |s.workers| == j.threads && |s.out| == j.task.Height() && Shape(s.out, j.task.width)
  }

  predicate Done(j: Job, s: State, k: nat)
    requires j.Valid() && k < |s.workers|
  {
    s.workers[k].row >= j.End(k)
  }

  /** Thread `k` writes a pixel, or goes on to the next row; a thread that is done stays so. */
  function Step(j: Job, s: State, k: nat): (s': State)
    requires j.Valid() && Sized(j, s) && k < j.threads
    ensures Sized(j, s')
  {
    var w := s.workers[k];
    if Done(j, s, k) then s
    else if w.col < j.task.width then
      State(s.out[w.row := s.out[w.row][w.col := Pixel(j.task, w.row, w.col)]],
            s.workers[k := Worker(w.row, w.col + 1)])
    else
      s.(workers := s.workers[k := Worker(w.row + 1, 0)])
  }

  predicate Schedule(j: Job, turns: seq<nat>) {
    forall i :: 0 <= i < |turns| ==> turns[i] < j.threads
  }

  function Run(j: Job, s: State, turns: seq<nat>): (s': State)
    requires j.Valid() && Sized(j, s) && Schedule(j, turns)
    ensures Sized(j, s')
    decreases |turns|
  {
    if turns == [] then s else Run(j, Step(j, s, turns[0]), turns[1..])
  }

  predicate Passed(w: Worker, r: nat, c: nat) {
    r < w.row || (r == w.row && c < w.col)
  }

  predicate WorkersOk(j: Job, s: State)
    requires j.Valid() && Sized(j, s)
  {
    forall k :: 0 <= k < j.threads ==>
      j.Begin(k) <= s.workers[k].row && s.workers[k].col <= j.task.width && (Done(j, s, k) ==> s.workers[k].col == 0)
  }

  /** Exactly the pixels that the owner of their row has passed are written. */
  predicate PixelsOk(j: Job, s: State, start: Picture)
    requires j.Valid() && Sized(j, s) && |start| == j.task.Height() && Shape(start, j.task.width)
  {
    forall k, r, c :: 0 <= k < j.threads && 0 <= r < |s.out| && j.InPart(k, r) && 0 <= c < |s.out[r]| ==>
      s.out[r][c] == if Passed(s.workers[k], r, c) then Pixel(j.task, r, c) else start[r][c]
  }

  lemma StepKeeps(j: Job, s: State, k: nat, start: Picture)
    requires j.Valid() && Sized(j, s) && |start| == j.task.Height() && Shape(start, j.task.width) && k < j.threads
    requires WorkersOk(j, s) && PixelsOk(j, s, start)
    ensures WorkersOk(j, Step(j, s, k)) && PixelsOk(j, Step(j, s, k), start)
  {
    var s', w := Step(j, s, k), s.workers[k];
    forall other, r, c | 0 <= other < j.threads && 0 <= r < |s'.out| && j.InPart(other, r) && 0 <= c < |s'.out[r]|
      ensures s'.out[r][c] == if Passed(s'.workers[other], r, c) then Pixel(j.task, r, c) else start[r][c]
    {
      if other != k && r == w.row && !Done(j, s, k) {
        PartsAreDisjoint(j, k, other, r);
      }
    }
  }

  lemma {:induction false} RunKeeps(j: Job, s: State, turns: seq<nat>, start: Picture)
    requires j.Valid() && Sized(j, s) && |start| == j.task.Height() && Shape(start, j.task.width) && Schedule(j, turns)
    requires WorkersOk(j, s) && PixelsOk(j, s, start)
    ensures WorkersOk(j, Run(j, s, turns)) && PixelsOk(j, Run(j, s, turns), start)
    decreases |turns|
  {
    if turns != [] {
      StepKeeps(j, s, turns[0], start);
      RunKeeps(j, Step(j, s, turns[0]), turns[1..], start);
    }
  }

  /** The picture of the sequential double loop. */
  function Filtered(t: Task): Picture
    requires t.Valid()
  {
    seq(t.Height(), r requires 0 <= r < t.Height() => seq(t.width, c requires 0 <= c < t.width => Pixel(t, r, c)))
  }

  lemma StartOk(j: Job, start: Picture)
    requires j.Valid() && |start| == j.task.Height() && Shape(start, j.task.width)
    ensures WorkersOk(j, Start(j, start)) && PixelsOk(j, Start(j, start), start)
  {
  }

  lemma DoneIsFiltered(j: Job, s: State, start: Picture)
    requires j.Valid() && Sized(j, s) && |start| == j.task.Height() && Shape(start, j.task.width)
    requires PixelsOk(j, s, start) && forall k :: 0 <= k < j.threads ==> Done(j, s, k)
    ensures s.out == Filtered(j.task)
  {
    forall r | 0 <= r < |s.out|
      ensures s.out[r] == Filtered(j.task)[r]
    {
      var k := EveryRowHasAWorker(j, r);
      assert Done(j, s, k);
      assert forall c :: 0 <= c < |s.out[r]| ==> s.out[r][c] == Pixel(j.task, r, c);
    }
  }

  /** However the threads interleave, once all are done the output is that of the sequential loop. */
  lemma EveryInterleavingGivesTheFilteredPicture(j: Job, start: Picture, turns: seq<nat>)
    requires j.Valid() && |start| == j.task.Height() && Shape(start, j.task.width) && Schedule(j, turns)
    requires forall k :: 0 <= k < j.threads ==> Done(j, Run(j, Start(j, start), turns), k)
    ensures Run(j, Start(j, start), turns).out == Filtered(j.task)
  {
    StartOk(j, start);
    RunKeeps(j, Start(j, start), turns, start);
    DoneIsFiltered(j, Run(j, Start(j, start), turns), start);
  }

  /** The turns thread `k` still needs. */
  function Left(j: Job, s: State, k: nat): int
    requires j.Valid() && Sized(j, s) && k < j.threads
  {
    if Done(j, s, k) then 0
    else (j.End(k) - s.workers[k].row) * (j.task.width + 1) - s.workers[k].col
  }

  function Turns(turns: seq<nat>, k: nat): nat {
    if turns == [] then 0 else Turns(turns[1..], k) + if turns[0] == k then 1 else 0
  }

  lemma OneRowLess(rows: nat, n: nat)
    requires rows > 0
    ensures rows * n == (rows - 1) * n + n && rows * n >= n
  {
    MulMonotone(1, rows, n);
  }

  lemma StepLeft(j: Job, s: State, turn: nat, k: nat)
    requires j.Valid() && Sized(j, s) && WorkersOk(j, s) && turn < j.threads && k < j.threads
    ensures Left(j, s, k) >= 0 && (Left(j, s, k) == 0 <==> Done(j, s, k))
    ensures Left(j, Step(j, s, turn), k) == if turn == k && !Done(j, s, k) then Left(j, s, k) - 1 else Left(j, s, k)
  {
    if !Done(j, s, k) {
      OneRowLess(j.End(k) - s.workers[k].row, j.task.width + 1);
    }
  }

  /** A thread is done exactly when it has had the turns it needs, whatever the others do. */
  lemma {:induction false} DoneExactlyAfterItsTurns(j: Job, s: State, turns: seq<nat>, k: nat, start: Picture)
    requires j.Valid() && Sized(j, s) && |start| == j.task.Height() && Shape(start, j.task.width) && Schedule(j, turns)
    requires WorkersOk(j, s) && PixelsOk(j, s, start) && k < j.threads
    ensures Done(j, Run(j, s, turns), k) <==> Turns(turns, k) >= Left(j, s, k)
    decreases |turns|
  {
    if turns == [] {
      StepLeft(j, s, k, k);
    } else {
      StepLeft(j, s, turns[0], k);
      StepKeeps(j, s, turns[0], start);
      DoneExactlyAfterItsTurns(j, Step(j, s, turns[0]), turns[1..], k, start);
    }
  }
}
