/**
  Splitting a line of the batch file into tokens, and the tokens into the argument
  vectors of the commands between the pipes.
 */
module CommandLine {
  import opened Options

  // ----- Tokens

  predicate IsSpace(c: char) {
    c == ' ' || c == '\r' || c == '\n' || c == '\t'
  }

  /** strspn(s + from, WHITESPACE), as the index at which the white space ends. */
  function SkipSpace(s: string, from: nat): (end: nat)
    requires from <= |s|
    ensures from <= end <= |s|
    ensures forall i :: from <= i < end ==> IsSpace(s[i])
    ensures end < |s| ==> !IsSpace(s[end])
    decreases |s| - from
  {
    if from < |s| && IsSpace(s[from]) then SkipSpace(s, from + 1) else from
  }

  /** strcspn(s + from, WHITESPACE), as the index at which the word ends. */
  function SkipWord(s: string, from: nat): (end: nat)
    requires from <= |s|
    ensures from <= end <= |s|
    ensures forall i :: from <= i < end ==> !IsSpace(s[i])
    ensures end < |s| ==> IsSpace(s[end])
    decreases |s| - from
  {
    if from < |s| && !IsSpace(s[from]) then SkipWord(s, from + 1) else from
  }

  predicate IsWord(w: string) {
    w != [] && forall i :: 0 <= i < |w| ==> !IsSpace(w[i])
  }

  /** A run of non-space characters of `s` that cannot be extended. */
  predicate MaximalRun(s: string, start: nat, end: nat) {
    && start < end <= |s|
    && (forall i :: start <= i < end ==> !IsSpace(s[i]))
    && (start == 0 || IsSpace(s[start - 1]))
    && (end == |s| || IsSpace(s[end]))
  }

  predicate RunAt(s: string, from: nat, tok: string, start: nat) {
    from <= start && MaximalRun(s, start, start + |tok|) && tok == s[start..start + |tok|]
  }

  predicate Covered(i: nat, toks: seq<string>, starts: seq<nat>)
    requires |starts| == |toks|
  {
    exists k :: 0 <= k < |toks| && starts[k] <= i < starts[k] + |toks[k]|
  }

  /** `toks`, beginning at `starts`, are the maximal runs of `s` from position `from` on, left to right. */
  predicate AreTheRuns(s: string, from: nat, toks: seq<string>, starts: seq<nat>) {
    && |starts| == |toks|
    && (forall k :: 0 <= k < |toks| ==> RunAt(s, from, toks[k], starts[k]))
    && (forall j, k :: 0 <= j < k < |toks| ==> starts[j] < starts[k])
    && (forall i :: from <= i < |s| && !IsSpace(s[i]) ==> Covered(i, toks, starts))
  }

  /** The tokens of `s` from position `from` on. */
  function Tokens(s: string, from: nat): seq<string>
    requires from <= |s|
    decreases |s| - from
  {
    var start := SkipSpace(s, from);
    if start == |s| then [] else
    var end := SkipWord(s, start);
    [s[start..end]] + Tokens(s, end)
  }

  method Tokenize(s: string) returns (toks: seq<string>)
    ensures toks == Tokens(s, 0)
  {
    toks := [];
    var at := SkipSpace(s, 0);
    while at < |s|
      invariant at <= |s| && (at < |s| ==> !IsSpace(s[at]))
      invariant toks + Tokens(s, at) == Tokens(s, 0)
      decreases |s| - at
    {
      var wordEnd := SkipWord(s, at);
      toks := toks + [s[at..wordEnd]];
      at := SkipSpace(s, wordEnd);
    }
  }

  /** The tokens are exactly the maximal runs of non-space characters. */
  lemma {:induction false} TokensAreTheRuns(s: string, from: nat) returns (starts: seq<nat>)
    requires from <= |s|
    requires from == 0 || from == |s| || IsSpace(s[from])
    ensures AreTheRuns(s, from, Tokens(s, from), starts)
    decreases |s| - from
  {
    var start := SkipSpace(s, from);
    if start == |s| {
      starts := [];
    } else {
      var end := SkipWord(s, start);
      var rest := TokensAreTheRuns(s, end);
      starts := [start] + rest;
      RunsPrepend(s, from, start, end, Tokens(s, end), rest);
    }
  }

  lemma RunsStayRuns(s: string, from: nat, start: nat, end: nat, toks: seq<string>, starts: seq<nat>)
    requires from <= start && MaximalRun(s, start, end) && AreTheRuns(s, end, toks, starts)
    ensures var toks', starts' := [s[start..end]] + toks, [start] + starts;
            && (forall k :: 0 <= k < |toks'| ==> RunAt(s, from, toks'[k], starts'[k]))
            && (forall j, k :: 0 <= j < k < |toks'| ==> starts'[j] < starts'[k])
  {
    var toks', starts' := [s[start..end]] + toks, [start] + starts;
    forall k | 0 <= k < |toks'| ensures RunAt(s, from, toks'[k], starts'[k]) {
      if k > 0 {
        assert RunAt(s, end, toks[k - 1], starts[k - 1]);
      }
    }
    forall j, k | 0 <= j < k < |toks'| ensures starts'[j] < starts'[k] {
      assert RunAt(s, end, toks[k - 1], starts[k - 1]);
    }
  }

  lemma RunsPrepend(s: string, from: nat, start: nat, end: nat, toks: seq<string>, starts: seq<nat>)
    requires from <= start && MaximalRun(s, start, end) && AreTheRuns(s, end, toks, starts)
    requires forall i :: from <= i < start ==> IsSpace(s[i])
    ensures AreTheRuns(s, from, [s[start..end]] + toks, [start] + starts)
  {
    var toks', starts' := [s[start..end]] + toks, [start] + starts;
    RunsStayRuns(s, from, start, end, toks, starts);
    forall i | from <= i < |s| && !IsSpace(s[i]) ensures Covered(i, toks', starts') {
      if i < end {
        assert starts'[0] <= i < starts'[0] + |toks'[0]|;
      } else {
        assert Covered(i, toks, starts);
        var k :| 0 <= k < |toks| && starts[k] <= i < starts[k] + |toks[k]|;
        assert starts'[k + 1] <= i < starts'[k + 1] + |toks'[k + 1]|;
      }
    }
  }

  function Join(toks: seq<string>): string {
    if toks == [] then "" else if |toks| == 1 then toks[0] else toks[0] + " " + Join(toks[1..])
  }

  lemma {:induction false} WordEnds(s: string, from: nat, end: nat)
    requires from <= end <= |s| && (end < |s| ==> IsSpace(s[end]))
    requires forall i :: from <= i < end ==> !IsSpace(s[i])
    ensures SkipWord(s, from) == end
    decreases end - from
  {
    if from < end {
      WordEnds(s, from + 1, end);
    }
  }

  /** From position `n` on, `t` reads like `s`. */
  predicate Shifted(t: string, n: nat, s: string) {
    |t| == n + |s| && forall i :: 0 <= i < |s| ==> t[n + i] == s[i]
  }

  lemma {:induction false} ShiftSkips(t: string, n: nat, s: string, from: nat)
    requires Shifted(t, n, s) && from <= |s|
    ensures SkipSpace(t, n + from) == n + SkipSpace(s, from)
    ensures SkipWord(t, n + from) == n + SkipWord(s, from)
    decreases |s| - from
  {
    if from < |s| {
      ShiftSkips(t, n, s, from + 1);
      assert t[n + from] == s[from];
    }
  }

  lemma ShiftSlice(t: string, n: nat, s: string, start: nat, end: nat)
    requires Shifted(t, n, s) && start <= end <= |s|
    ensures t[n + start..n + end] == s[start..end]
  {
    forall i | start <= i < end ensures t[n + i] == s[i] {
    }
  }

  lemma FirstToken(s: string, from: nat, start: nat, end: nat)
    requires from <= |s| && start == SkipSpace(s, from) < |s| && end == SkipWord(s, start)
    ensures Tokens(s, from) == [s[start..end]] + Tokens(s, end)
  {
  }

  lemma NoToken(s: string, from: nat)
    requires from <= |s| && SkipSpace(s, from) == |s|
    ensures Tokens(s, from) == []
  {
  }

  lemma ShiftFirst(t: string, n: nat, s: string, from: nat, start: nat, end: nat)
    requires Shifted(t, n, s) && from <= |s| && start == SkipSpace(s, from) < |s| && end == SkipWord(s, start)
    ensures n + from <= |t| && SkipSpace(t, n + from) == n + start && SkipWord(t, n + start) == n + end
    ensures t[n + start..n + end] == s[start..end]
  {
    ShiftSkips(t, n, s, from);
    ShiftSkips(t, n, s, start);
    ShiftSlice(t, n, s, start, end);
  }

  lemma {:induction false} ShiftTokens(t: string, n: nat, s: string, from: nat)
    requires Shifted(t, n, s) && from <= |s|
    ensures Tokens(t, n + from) == Tokens(s, from)
    decreases |s| - from
  {
    ShiftSkips(t, n, s, from);
    var start := SkipSpace(s, from);
    if start == |s| {
      NoToken(t, n + from);
      NoToken(s, from);
    } else {
      var end := SkipWord(s, start);
      ShiftFirst(t, n, s, from, start, end);
      FirstToken(t, n + from, n + start, n + end);
      FirstToken(s, from, start, end);
      ShiftTokens(t, n, s, end);
    }
  }

  lemma OneWord(w: string)
    requires IsWord(w)
    ensures Tokens(w, 0) == [w]
  {
    WordEnds(w, 0, |w|);
    FirstToken(w, 0, 0, |w|);
    assert w[0..|w|] == w && Tokens(w, |w|) == [];
  }

  /** Words joined with single spaces are read back as the same words. */
  lemma {:induction false} TokenizeJoin(toks: seq<string>)
    requires forall k :: 0 <= k < |toks| ==> IsWord(toks[k])
    ensures Tokens(Join(toks), 0) == toks
  {
    if |toks| == 1 {
      OneWord(toks[0]);
    } else if toks != [] {
      var w, rest := toks[0], Join(toks[1..]);
      var s := w + " " + rest;
      assert SkipSpace(s, 0) == 0;
      WordEnds(s, 0, |w|);
      assert s[0..|w|] == w;
      TokenizeJoin(toks[1..]);
      assert Tokens(s, |w|) == Tokens(s, |w| + 1) by {
        assert SkipSpace(s, |w|) == SkipSpace(s, |w| + 1);
      }
      ShiftTokens(s, |w| + 1, rest, 0);
    }
  }

  lemma {:induction false} TokensAreWords(s: string, from: nat)
    requires from <= |s|
    ensures forall k :: 0 <= k < |Tokens(s, from)| ==> IsWord(Tokens(s, from)[k])
    decreases |s| - from
  {
    var start := SkipSpace(s, from);
    if start < |s| {
      TokensAreWords(s, SkipWord(s, start));
    }
  }

  /** Joining the tokens of any line with single spaces and splitting again gives the same tokens. */
  lemma SplitJoinSplit(s: string)
    ensures Tokens(Join(Tokens(s, 0)), 0) == Tokens(s, 0)
  {
    TokensAreWords(s, 0);
    TokenizeJoin(Tokens(s, 0));
  }

  lemma {:induction false} SkipWordIn(a: string, s: string, from: nat)
    requires from <= |a| <= |s| && a == s[..|a|] && (|a| < |s| ==> IsSpace(s[|a|]))
    ensures SkipWord(s, from) == SkipWord(a, from)
    ensures SkipSpace(a, from) < |a| ==> SkipSpace(s, from) == SkipSpace(a, from)
    decreases |a| - from
  {
    if from < |a| {
      assert s[from] == a[from];
      SkipWordIn(a, s, from + 1);
    }
  }

  lemma {:induction false} SpacesRunOut(a: string, s: string, from: nat)
    requires from <= |a| < |s| && a == s[..|a|] && SkipSpace(a, from) == |a| && IsSpace(s[|a|])
    ensures SkipSpace(s, from) == SkipSpace(s, |a| + 1)
    decreases |a| - from
  {
    if from < |a| {
      assert s[from] == a[from];
      SpacesRunOut(a, s, from + 1);
    }
  }

  lemma {:induction false} CutAt(a: string, s: string, from: nat)
    requires from <= |a| < |s| && a == s[..|a|] && IsSpace(s[|a|])
    ensures Tokens(s, from) == Tokens(a, from) + Tokens(s, |a| + 1)
    decreases |a| - from
  {
    var start := SkipSpace(a, from);
    if start == |a| {
      SpacesRunOut(a, s, from);
      NoToken(a, from);
      SameStart(s, from, |a| + 1);
    } else {
      var end := SkipWord(a, start);
      SkipWordIn(a, s, from);
      SkipWordIn(a, s, start);
      FirstToken(a, from, start, end);
      FirstToken(s, from, start, end);
      CutAt(a, s, end);
      assert s[start..end] == a[start..end];
    }
  }

  lemma SameStart(s: string, from: nat, other: nat)
    requires from <= |s| && other <= |s| && SkipSpace(s, from) == SkipSpace(s, other)
    ensures Tokens(s, from) == Tokens(s, other)
  {
  }

  /** A line cut at a blank, a carriage return, a line feed or a tab has the tokens of both halves. */
  lemma SpacesSeparate(left: string, c: char, right: string)
    requires c == ' ' || c == '\r' || c == '\n' || c == '\t'
    ensures Tokens(left + [c] + right, 0) == Tokens(left, 0) + Tokens(right, 0)
  {
    var s := left + [c] + right;
    CutAt(left, s, 0);
    ShiftTokens(s, |left| + 1, right, 0);
  }

  /** Nothing else does: text without any of them is one token. */
  lemma NothingElseSeparates(w: string)
    requires w != [] && forall i :: 0 <= i < |w| ==> w[i] != ' ' && w[i] != '\r' && w[i] != '\n' && w[i] != '\t'
    ensures Tokens(w, 0) == [w]
  {
    OneWord(w);
  }

  // ----- Commands

  /** A token that begins with a bar separates two commands. */
  predicate IsPipe(tok: string) {
    tok != [] && tok[0] == '|'
  }

  function Nulled(tok: string): Option<string> {
    if IsPipe(tok) then None else Some(tok)
  }

  /** The argument vector that begins at `at` and ends at the first NULL. */
  function Argv(toks: seq<Option<string>>, at: nat): seq<string>
    requires at <= |toks|
    decreases |toks| - at
  {
    if at == |toks| || toks[at].None? then [] else [toks[at].value] + Argv(toks, at + 1)
  }

  /** Where the commands begin among the first `n` tokens. */
  function Starts(toks: seq<string>, n: nat): seq<nat>
    requires n <= |toks|
  {
    if n == 0 then []
    else Starts(toks, n - 1) + if n == 1 || IsPipe(toks[n - 2]) then [n - 1] else []
  }

  function Slots(toks: seq<string>): (slots: seq<Option<string>>)
    ensures |slots| == |toks|
  {
    seq(|toks|, i requires 0 <= i < |toks| => Nulled(toks[i]))
  }

  /** `slots` holds the tokens, followed by NULLs; pipes become NULL and the commands' positions are returned. */
  method SplitCommands(slots: array<Option<string>>, toks: seq<string>) returns (commands: seq<nat>)
    requires |toks| < slots.Length
    requires forall i :: 0 <= i < slots.Length ==> slots[i] == if i < |toks| then Some(toks[i]) else None
    modifies slots
    ensures slots[..|toks|] == Slots(toks) && forall i :: |toks| <= i < slots.Length ==> slots[i].None?
    ensures commands == Starts(toks, |toks|)
  {
    commands := [];
    var i := 0;
    while i < |toks|
      invariant 0 <= i <= |toks|
      invariant forall j :: 0 <= j < slots.Length ==>
                  slots[j] == if j < i then Nulled(toks[j]) else if j < |toks| then Some(toks[j]) else None
      invariant commands == Starts(toks, i)
    {
      if IsPipe(slots[i].value) {
        slots[i] := None; // ends the command before it
      }
      if i == 0 || slots[i - 1] == None {
        commands := commands + [i];
      }
      i := i + 1;
    }
  }

  const BAR := "|"

  /** The token as split_commands understands it: only the first character of a separator matters. */
  function MarkOf(tok: string): string {
    if IsPipe(tok) then BAR else tok
  }

  function Marks(toks: seq<string>): (marks: seq<string>)
    ensures |marks| == |toks|
  {
    seq(|toks|, i requires 0 <= i < |toks| => MarkOf(toks[i]))
  }

  /** The commands' argument vectors with one pipe between neighbours. */
  function Rejoin(slots: seq<Option<string>>, commands: seq<nat>): seq<string>
    requires forall k :: 0 <= k < |commands| ==> commands[k] <= |slots|
  {
    if commands == [] then [] else
    Rejoin(slots, commands[..|commands| - 1])
    + (if |commands| == 1 then [] else [BAR])
    + Argv(slots, commands[|commands| - 1])
  }

  /** The tokens without one trailing bar. */
  function Trimmed(toks: seq<string>): seq<string> {
    if toks != [] && toks[|toks| - 1] == BAR then toks[..|toks| - 1] else toks
  }

  predicate Closed(slots: seq<Option<string>>, at: nat) {
    exists j :: at <= j < |slots| && slots[j].None?
  }

  /** A slot added at the end belongs to an argument vector that is still open. */
  lemma {:induction false} ArgvExtend(slots: seq<Option<string>>, last: Option<string>, at: nat)
    requires at <= |slots|
    ensures Argv(slots + [last], at)
              == Argv(slots, at) + if Closed(slots, at) || last.None? then [] else [last.value]
    decreases |slots| - at
  {
    if at < |slots| {
      assert (slots + [last])[at] == slots[at];
      if slots[at].Some? {
        ArgvExtend(slots, last, at + 1);
        assert Closed(slots, at) <==> Closed(slots, at + 1);
      }
    } else {
      assert (slots + [last])[at] == last;
      assert Argv(slots + [last], at + 1) == [];
    }
  }

  lemma {:induction false} RejoinClosed(slots: seq<Option<string>>, last: Option<string>, commands: seq<nat>)
    requires forall k :: 0 <= k < |commands| ==> commands[k] <= |slots| && Closed(slots, commands[k])
    ensures Rejoin(slots + [last], commands) == Rejoin(slots, commands)
  {
    if commands != [] {
      RejoinClosed(slots, last, commands[..|commands| - 1]);
      ArgvExtend(slots, last, commands[|commands| - 1]);
    }
  }

  /** All commands but the last one end at a pipe; the last one is open unless the tokens end with a pipe. */
  lemma {:induction false} StartsClose(toks: seq<string>, n: nat)
    requires 1 <= n <= |toks|
    ensures var starts, slots := Starts(toks, n), Slots(toks)[..n];
            && starts != []
            && (forall k :: 0 <= k < |starts| ==> starts[k] < n)
            && (forall k :: 0 <= k < |starts| - 1 ==> Closed(slots, starts[k]))
            && (Closed(slots, starts[|starts| - 1]) <==> IsPipe(toks[n - 1]))
  {
    var starts, slots := Starts(toks, n), Slots(toks)[..n];
    assert slots[n - 1] == Nulled(toks[n - 1]);
    if n > 1 {
      StartsClose(toks, n - 1);
      var starts', slots' := Starts(toks, n - 1), Slots(toks)[..n - 1];
      assert slots == slots' + [slots[n - 1]];
      forall k | 0 <= k < |starts'|
        ensures Closed(slots, starts'[k]) <==> Closed(slots', starts'[k]) || slots[n - 1].None?
      {
        ClosedExtend(slots', slots[n - 1], starts'[k]);
      }
      if IsPipe(toks[n - 2]) {
        assert starts == starts' + [n - 1];
        assert Closed(slots, n - 1) <==> slots[n - 1].None?;
      }
    }
  }

  lemma ClosedExtend(slots: seq<Option<string>>, last: Option<string>, at: nat)
    requires at <= |slots|
    ensures Closed(slots + [last], at) <==> Closed(slots, at) || last.None?
  {
    if Closed(slots, at) {
      var j :| at <= j < |slots| && slots[j].None?;
      assert (slots + [last])[j].None?;
    }
    assert (slots + [last])[|slots|] == last;
  }

  lemma RejoinLast(slots: seq<Option<string>>, commands: seq<nat>, c: nat)
    requires (forall k :: 0 <= k < |commands| ==> commands[k] <= |slots|) && c <= |slots|
    ensures Rejoin(slots, commands + [c])
              == Rejoin(slots, commands) + (if commands == [] then [] else [BAR]) + Argv(slots, c)
  {
    assert (commands + [c])[..|commands|] == commands;
  }

  /** A slot that follows a pipe opens a new command. */
  lemma RejoinOpens(slots: seq<Option<string>>, commands: seq<nat>, last: Option<string>)
    requires commands != [] && forall k :: 0 <= k < |commands| ==> commands[k] < |slots|
    requires forall k :: 0 <= k < |commands| ==> Closed(slots, commands[k])
    ensures Rejoin(slots + [last], commands + [|slots|])
              == Rejoin(slots, commands) + [BAR] + if last.Some? then [last.value] else []
  {
    RejoinClosed(slots, last, commands);
    RejoinLast(slots + [last], commands, |slots|);
    ArgvExtend(slots, last, |slots|);
    assert Argv(slots, |slots|) == [] && [] + [last] == [last];
  }

  /** Any other slot belongs to the last command. */
  lemma RejoinContinues(slots: seq<Option<string>>, commands: seq<nat>, c: nat, last: Option<string>)
    requires c < |slots| && forall k :: 0 <= k < |commands| ==> commands[k] < |slots|
    requires (forall k :: 0 <= k < |commands| ==> Closed(slots, commands[k])) && !Closed(slots, c)
    ensures Rejoin(slots + [last], commands + [c])
              == Rejoin(slots, commands + [c]) + if last.Some? then [last.value] else []
  {
    RejoinClosed(slots, last, commands);
    RejoinLast(slots + [last], commands, c);
    RejoinLast(slots, commands, c);
    ArgvExtend(slots, last, c);
    assert Argv(slots, c) + [] == Argv(slots, c);
  }

  /** The commands' argument vectors, rejoined with bars, are the marks but for one trailing bar. */
  lemma {:induction false} RejoinGivesMarks(toks: seq<string>, n: nat)
    requires 1 <= n <= |toks|
    ensures Within(Starts(toks, n), n)
    ensures Rejoin(Slots(toks)[..n], Starts(toks, n)) == Trimmed(Marks(toks)[..n])
  {
    if n == 1 {
      RejoinFirst(toks);
    } else {
      RejoinGivesMarks(toks, n - 1);
      StartsStayWithin(toks, n);
      RejoinOneMore(toks, n);
    }
  }

  lemma StartsStayWithin(toks: seq<string>, n: nat)
    requires 1 <= n <= |toks|
    ensures Within(Starts(toks, n), n)
  {
    StartsClose(toks, n);
  }

  lemma RejoinFirst(toks: seq<string>)
    requires toks != []
    ensures Within(Starts(toks, 1), 1)
    ensures Rejoin(Slots(toks)[..1], Starts(toks, 1)) == Trimmed(Marks(toks)[..1])
  {
    var slots := Slots(toks)[..1];
    assert Starts(toks, 1) == [] + [0] && slots == [] + [Nulled(toks[0])];
    RejoinLast(slots, [], 0);
    ArgvExtend([], Nulled(toks[0]), 0);
    assert Rejoin(slots, [0]) == if IsPipe(toks[0]) then [] else [toks[0]];
    assert Marks(toks)[..1] == [MarkOf(toks[0])];
  }

  predicate Within(starts: seq<nat>, n: nat) {
    forall k :: 0 <= k < |starts| ==> starts[k] <= n
  }

  lemma TrimStep(marks: seq<string>, n: nat, before: seq<string>)
    requires 2 <= n <= |marks| && before == Trimmed(marks[..n - 1])
    ensures Trimmed(marks[..n])
              == before + (if marks[n - 2] == BAR then [BAR] else [])
                 + if marks[n - 1] == BAR then [] else [marks[n - 1]]
  {
    assert marks[..n] == marks[..n - 2] + [marks[n - 2]] + [marks[n - 1]];
    assert marks[..n - 1] == marks[..n - 2] + [marks[n - 2]];
  }

  lemma TrimNext(toks: seq<string>, n: nat, before: seq<string>)
    requires 2 <= n <= |toks| && before == Trimmed(Marks(toks)[..n - 1])
    ensures Trimmed(Marks(toks)[..n])
              == before + (if IsPipe(toks[n - 2]) then [BAR] else [])
                 + if IsPipe(toks[n - 1]) then [] else [toks[n - 1]]
  {
    TrimStep(Marks(toks), n, before);
  }

  lemma RejoinOneMore(toks: seq<string>, n: nat)
    requires 2 <= n <= |toks|
    requires Within(Starts(toks, n - 1), n - 1) && Within(Starts(toks, n), n)
    requires Rejoin(Slots(toks)[..n - 1], Starts(toks, n - 1)) == Trimmed(Marks(toks)[..n - 1])
    ensures Rejoin(Slots(toks)[..n], Starts(toks, n)) == Trimmed(Marks(toks)[..n])
  {
    RejoinNext(toks, n);
    TrimNext(toks, n, Rejoin(Slots(toks)[..n - 1], Starts(toks, n - 1)));
  }

  lemma RejoinNext(toks: seq<string>, n: nat)
    requires 2 <= n <= |toks|
    requires Within(Starts(toks, n - 1), n - 1) && Within(Starts(toks, n), n)
    ensures Rejoin(Slots(toks)[..n], Starts(toks, n))
              == Rejoin(Slots(toks)[..n - 1], Starts(toks, n - 1))
                 + (if IsPipe(toks[n - 2]) then [BAR] else [])
                 + if IsPipe(toks[n - 1]) then [] else [toks[n - 1]]
  {
    var slots, starts, last := Slots(toks)[..n - 1], Starts(toks, n - 1), Nulled(toks[n - 1]);
    StartsClose(toks, n - 1);
    assert Slots(toks)[..n] == slots + [last];
    if IsPipe(toks[n - 2]) {
      RejoinOpens(slots, starts, last);
    } else {
      var c := starts[|starts| - 1];
      assert starts == starts[..|starts| - 1] + [c] && Starts(toks, n) == starts;
      RejoinContinues(slots, starts[..|starts| - 1], c, last);
    }
  }

  /** Every token that begins with a bar is the bar alone. */
  predicate BarsStandAlone(toks: seq<string>) {
    forall k :: 0 <= k < |toks| && toks[k] != [] && toks[k][0] == '|' ==> toks[k] == "|"
  }

  lemma MarksLoseNothingExactlyWhen(toks: seq<string>)
    ensures Trimmed(Marks(toks)) == Trimmed(toks) <==> BarsStandAlone(toks)
  {
    var marks := Marks(toks);
    if BarsStandAlone(toks) {
      assert marks == toks;
    } else {
      var k :| 0 <= k < |toks| && IsPipe(toks[k]) && toks[k] != BAR;
      assert marks[k] == BAR;
      var last := |toks| - 1;
      if k == last {
        assert |Trimmed(marks)| == last && |Trimmed(toks)| == last + 1;
      } else {
        assert Trimmed(marks)[k] == BAR && Trimmed(toks)[k] == toks[k];
      }
    }
  }

  /**
    The argument vectors with one bar between neighbours are the tokens without one
    trailing bar, exactly when every token that begins with a bar is the bar alone.
   */
  lemma RejoinGivesTokensBackExactlyWhen(toks: seq<string>)
    ensures Within(Starts(toks, |toks|), |toks|)
    ensures Rejoin(Slots(toks), Starts(toks, |toks|)) == Trimmed(toks) <==> BarsStandAlone(toks)
  {
    if toks != [] {
      RejoinGivesMarks(toks, |toks|);
      assert Slots(toks)[..|toks|] == Slots(toks) && Marks(toks)[..|toks|] == Marks(toks);
      MarksLoseNothingExactlyWhen(toks);
    }
  }

  /** Of a command and a bar glued to a word only the command is left, without a pipe. */
  lemma GluedBarLosesACommand(first: string, glued: string)
    requires IsWord(first) && !IsPipe(first) && IsWord(glued) && IsPipe(glued)
    ensures Tokens(first + " " + glued, 0) == [first, glued]
    ensures Starts([first, glued], 2) == [0]
    ensures Argv(Slots([first, glued]), 0) == [first]
  {
    var toks := [first, glued];
    assert Join(toks) == first + " " + glued by {
      assert Join([glued]) == glued && toks[1..] == [glued];
    }
    TokenizeJoin(toks);
    StartsOfTwo(toks);
    ArgvOfOne(Slots(toks));
  }

  lemma StartsOfTwo(toks: seq<string>)
    requires |toks| == 2 && !IsPipe(toks[0])
    ensures Starts(toks, 2) == [0]
  {
    assert Starts(toks, 1) == [0];
  }

  lemma ArgvOfOne(slots: seq<Option<string>>)
    requires |slots| == 2 && slots[0].Some? && slots[1].None?
    ensures Argv(slots, 0) == [slots[0].value]
  {
    assert Argv(slots, 1) == [];
  }

  /** The line `cat |sort` runs `cat` alone. */
  lemma CatSort()
    ensures Tokens("cat |sort", 0) == ["cat", "|sort"] && Argv(Slots(["cat", "|sort"]), 0) == ["cat"]
    ensures !BarsStandAlone(["cat", "|sort"])
  {
    assert "cat" + " " + "|sort" == "cat |sort";
    GluedBarLosesACommand("cat", "|sort");
    assert ["cat", "|sort"][1] == "|sort";
  }
}
