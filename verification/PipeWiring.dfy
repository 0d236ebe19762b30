/**
  How the batch executor wires a line of commands with pipes.  A descriptor table maps
  open descriptor numbers to what they refer to; pipe(2) may hand out any two unused
  numbers, including the closed one that the parent still remembers in `in[1]`.
 */
module PipeWiring {

  /** What a descriptor refers to: something opened before the line, or an end of its k-th pipe. */
  datatype End = Inherited(id: int) | ReadEnd(pipe: nat) | WriteEnd(pipe: nat)

  type Table = map<int, End>

  const STDIN := 0
  const STDOUT := 1
  const CLOSED := -1

  /** Closing a number that is not open has no effect. */
  function Close(table: Table, fd: int): Table {
    table - {fd}
  }

  function Dup2(table: Table, from: int, to: int): Table {
    if from in table then table[to := table[from]] else table
  }

  /** The table with which a forked child starts its command. */
  function ChildTable(table: Table, in0: int, in1: int, out0: int, out1: int): Table {
    Close(Close(Dup2(Dup2(table, in0, STDIN), out1, STDOUT), in1), out0)
  }

  predicate Keeps(table: Table, end: End) {
    exists fd <- table :: table[fd] == end
  }

  /** The table of the shell between lines. */
  predicate Idle(table: Table) {
    && STDIN in table && STDOUT in table
    && forall fd <- table :: 0 <= fd && table[fd].Inherited?
  }

  /** Child `k` of `n` reads from pipe k - 1, writes to pipe k, and holds no other pipe end. */
  predicate Wired(child: Table, table: Table, k: nat, n: nat)
    requires Idle(table)
  {
    && STDIN in child && child[STDIN] == (if k == 0 then table[STDIN] else ReadEnd(k - 1))
    && STDOUT in child && child[STDOUT] == (if k + 1 == n then table[STDOUT] else WriteEnd(k))
    && (forall fd <- child :: child[fd].ReadEnd? ==> child[fd].pipe == k - 1)
    && (forall fd <- child :: child[fd].WriteEnd? ==> child[fd].pipe == k && k + 1 < n)
    && (forall fd <- table :: fd != STDIN && fd != STDOUT ==> fd in child && child[fd] == table[fd])
  }

  lemma UnusedNumbers(table: Table)
    ensures exists r: nat, w: nat :: r !in table && w !in table && r != w
  {
    var fd := AboveAll(table);
    assert fd !in table && fd + 1 !in table;
  }

  lemma {:induction false} AboveAll(table: Table) returns (fd: nat)
    ensures forall i <- table :: i < fd
    decreases |table|
  {
    fd := 0;
    if i :| i in table {
      var rest := AboveAll(table - {i});
      fd := if i < rest then rest else i + 1;
      assert forall j <- table :: j == i || j in table - {i};
    }
  }

  lemma HoldsItsOwnEnds(child: Table, table: Table, n: nat, j: nat, k: nat)
    requires Idle(table) && j < n && Wired(child, table, j, n)
    ensures Keeps(child, WriteEnd(k)) <==> j == k && k + 1 < n
    ensures Keeps(child, ReadEnd(k)) <==> j == k + 1
  {
  }

  /** The only writer of pipe `k` is child `k` and its only reader is child k + 1. */
  lemma PipesHaveTwoHolders(children: seq<Table>, table: Table, n: nat)
    requires Idle(table) && |children| == n && forall k :: 0 <= k < n ==> Wired(children[k], table, k, n)
    ensures forall j, k: nat :: 0 <= j < n ==>
              && (Keeps(children[j], WriteEnd(k)) <==> j == k && k + 1 < n)
              && (Keeps(children[j], ReadEnd(k)) <==> j == k + 1)
    ensures forall k: nat :: !Keeps(table, WriteEnd(k)) && !Keeps(table, ReadEnd(k))
  {
    forall j, k: nat | 0 <= j < n
      ensures Keeps(children[j], WriteEnd(k)) <==> j == k && k + 1 < n
      ensures Keeps(children[j], ReadEnd(k)) <==> j == k + 1
    {
      HoldsItsOwnEnds(children[j], table, n, j, k);
    }
  }

  /** `base` is the parent's table at the head of the loop. */
  predicate HeadOfLoop(base: Table, table: Table, in0: int, in1: int, i: nat) {
    if i == 0 then in0 == STDIN && in1 == CLOSED && base == table
    else 0 <= in0 && in0 !in table && base == table[in0 := ReadEnd(i - 1)] && in1 !in base
  }

  /**
    Everything that child `k` holds: the shell's table with its ends in place, the read end
    also under its own number, and so the write end, unless that number is the one
    which the stale `in[1]` names.
   */
  function ChildHolds(table: Table, k: nat, n: nat, input: (int, int), output: (int, int)): Table
    requires Idle(table)
  {
    var wired := table[STDIN := if k == 0 then table[STDIN] else ReadEnd(k - 1)]
                      [STDOUT := if k + 1 == n then table[STDOUT] else WriteEnd(k)];
    var reading := if k == 0 then wired else wired[input.0 := ReadEnd(k - 1)];
    if k + 1 == n || output.1 == input.1 then reading else reading[output.1 := WriteEnd(k)]
  }

  /** The numbers in `in` when command `k` is run. */
  function InputOf(pipes: seq<(int, int)>, k: nat): (int, int)
    requires k <= |pipes|
  {
    if k == 0 then (STDIN, CLOSED) else pipes[k - 1]
  }

  /** The children's tables, given the numbers in each `out`. */
  function ChildrenHold(table: Table, n: nat, pipes: seq<(int, int)>): seq<Table>
    requires Idle(table)
  {
    if pipes == [] then [] else
    var k := |pipes| - 1;
    ChildrenHold(table, n, pipes[..k]) + [ChildHolds(table, k, n, InputOf(pipes, k), pipes[k])]
  }

  lemma OneMoreChild(table: Table, n: nat, pipes: seq<(int, int)>, out: (int, int))
    requires Idle(table)
    ensures ChildrenHold(table, n, pipes + [out])
              == ChildrenHold(table, n, pipes) + [ChildHolds(table, |pipes|, n, InputOf(pipes, |pipes|), out)]
  {
    assert (pipes + [out])[..|pipes|] == pipes;
    assert InputOf(pipes + [out], |pipes|) == InputOf(pipes, |pipes|);
  }

  lemma FirstOrMiddleHolds(table: Table, base: Table, in0: int, in1: int, r: int, w: int, i: nat, n: nat)
    requires Idle(table) && i + 1 < n && HeadOfLoop(base, table, in0, in1, i)
    requires 0 <= r && 0 <= w && r !in base && w !in base && r != w
    ensures ChildTable(base[r := ReadEnd(i)][w := WriteEnd(i)], in0, in1, r, w)
              == ChildHolds(table, i, n, (in0, in1), (r, w))
  {
  }

  lemma LastHolds(table: Table, base: Table, in0: int, in1: int, i: nat, n: nat)
    requires Idle(table) && i + 1 == n && HeadOfLoop(base, table, in0, in1, i)
    ensures ChildTable(base, in0, in1, CLOSED, STDOUT) == ChildHolds(table, i, n, (in0, in1), (CLOSED, STDOUT))
  {
  }

  lemma FirstOrMiddleIsWired(table: Table, base: Table, in0: int, in1: int, r: int, w: int, i: nat, n: nat)
    requires Idle(table) && i + 1 < n && HeadOfLoop(base, table, in0, in1, i)
    requires 0 <= r && 0 <= w && r !in base && w !in base && r != w
    ensures Wired(ChildTable(base[r := ReadEnd(i)][w := WriteEnd(i)], in0, in1, r, w), table, i, n)
  {
  }

  lemma LastIsWired(table: Table, base: Table, in0: int, in1: int, i: nat, n: nat)
    requires Idle(table) && i + 1 == n && HeadOfLoop(base, table, in0, in1, i)
    ensures Wired(ChildTable(base, in0, in1, CLOSED, STDOUT), table, i, n)
  {
  }

  /** Runs a line of `n` commands: the children's tables, what is left in the parent, and the numbers in each `out`. */
  method ExecuteLine(table: Table, n: nat)
    returns (parent: Table, children: seq<Table>, ghost pipes: seq<(int, int)>)
    requires Idle(table) && 1 <= n
    ensures parent == table
    ensures |children| == |pipes| == n && children == ChildrenHold(table, n, pipes)
    ensures forall k :: 0 <= k < n ==> Wired(children[k], table, k, n)
    ensures forall j, k: nat :: 0 <= j < n ==>
              && (Keeps(children[j], WriteEnd(k)) <==> j == k && k + 1 < n)
              && (Keeps(children[j], ReadEnd(k)) <==> j == k + 1)
    ensures forall k: nat :: !Keeps(parent, WriteEnd(k)) && !Keeps(parent, ReadEnd(k))
  {
    parent, children, pipes := table, [], [];
    var in0, in1 := STDIN, CLOSED;
    for i := 0 to n
      invariant |children| == |pipes| == i && children == ChildrenHold(table, n, pipes)
      invariant (in0, in1) == InputOf(pipes, i)
      invariant forall k :: 0 <= k < i ==> Wired(children[k], table, k, n)
      invariant i < n ==> HeadOfLoop(parent, table, in0, in1, i)
      invariant i == n ==> parent == table
    {
      var out0, out1 := CLOSED, STDOUT;
      if i != n - 1 {
        UnusedNumbers(parent);
        var r: nat, w: nat :| r !in parent && w !in parent && r != w;
        FirstOrMiddleIsWired(table, parent, in0, in1, r, w, i, n);
        FirstOrMiddleHolds(table, parent, in0, in1, r, w, i, n);
        parent := parent[r := ReadEnd(i)][w := WriteEnd(i)];
        out0, out1 := r, w;
      } else {
        LastIsWired(table, parent, in0, in1, i, n);
        LastHolds(table, parent, in0, in1, i, n);
      }
      OneMoreChild(table, n, pipes, (out0, out1));
      children := children + [ChildTable(parent, in0, in1, out0, out1)];
      pipes := pipes + [(out0, out1)];
      if in0 != STDIN {
        parent := Close(parent, in0);
      }
      if out1 != STDOUT {
        parent := Close(parent, out1);
      }
      in0 := out0;
      in1 := out1; // the parent has just closed this number
    }
    PipesHaveTwoHolders(children, table, n);
  }
}
