/**
  The invariant of the semaphore buffer, for any number of threads: every slot lock
  has at most one holder, a thread that is about to transfer has found a slot that
  suits it, and the semaphores account for the empty and the occupied slots together
  with the threads that hold a permit or have still to post one.
 */
module SemaphoreInvariant {
  import opened Options
  import opened Ring
  import opened Sums
  import opened SemaphoreBuffer

  const NOBODY := 0

  predicate HoldsSlot(pc: Pc) {
    pc.Probe? || pc.SkipSlot? || pc.SetCursor? || pc.Transfer? || pc.UnlockSlot?
  }

  /** Past the wait for a permit, and the transfer is still to come. */
  predicate HasPermit(pc: Pc) {
    pc.ReadCursor? || pc.LockSlot? || pc.Probe? || pc.SkipSlot? || pc.SetCursor? || pc.Transfer?
  }

  /** The transfer is made and not posted yet. */
  predicate OwesPost(pc: Pc) {
    pc.UnlockSlot? || pc.Post?
  }

  // ----- Slot locks

  predicate LocksOk(s: Shared, owners: seq<int>)
    requires Shaped(s)
  {
    |owners| == Size(s)
    && forall i :: 0 <= i < Size(s) ==> s.slotLocks[i] == if owners[i] == NOBODY then 1 else 0
  }

  predicate ThreadOk(s: Shared, owners: seq<int>, t: int, me: Thread)
    requires |owners| == Size(s)
  {
    && 0 < t && me.pos < Size(s)
    && (forall i :: 0 <= i < Size(s) ==> (owners[i] == t <==> HoldsSlot(me.pc) && me.pos == i))
    && (me.pc.SetCursor? || me.pc.Transfer? ==> Suits(s.buffer[me.pos], me.role))
  }

  function NextOwners(s: Shared, owners: seq<int>, t: int, me: Thread): seq<int>
    requires Shaped(s) && me.pos < Size(s) == |owners|
  {
    var me' := Move(s, me).1;
    if HoldsSlot(me'.pc) then owners[me.pos := t]
    else if HoldsSlot(me.pc) then owners[me.pos := NOBODY]
    else owners
  }

  lemma MoveKeepsLocks(s: Shared, owners: seq<int>, t: int, me: Thread)
    requires Shaped(s) && LocksOk(s, owners) && ThreadOk(s, owners, t, me)
    ensures LocksOk(Move(s, me).0, NextOwners(s, owners, t, me))
  {
  }

  lemma MoveKeepsSelf(s: Shared, owners: seq<int>, t: int, me: Thread)
    requires Shaped(s) && LocksOk(s, owners) && ThreadOk(s, owners, t, me)
    ensures var (s', me') := Move(s, me);
            ThreadOk(s', NextOwners(s, owners, t, me), t, me')
  {
  }

  lemma MoveKeepsOther(s: Shared, owners: seq<int>, t: int, me: Thread, u: int, other: Thread)
    requires Shaped(s) && LocksOk(s, owners) && ThreadOk(s, owners, t, me)
    requires t != u && ThreadOk(s, owners, u, other)
    ensures ThreadOk(Move(s, me).0, NextOwners(s, owners, t, me), u, other)
  {
    assert me.pc.LockSlot? && s.slotLocks[me.pos] > 0 ==> owners[me.pos] == NOBODY;
    assert HoldsSlot(me.pc) ==> owners[me.pos] == t;
    assert HoldsSlot(other.pc) ==> owners[other.pos] == u;
  }

  // ----- Counting

  function EmptySlots(buffer: seq<Option<Line>>): nat {
    if buffer == [] then 0 else EmptySlots(buffer[..|buffer| - 1]) + One(buffer[|buffer| - 1].None?)
  }

  lemma {:induction false} EmptySlotsUpdate(buffer: seq<Option<Line>>, i: nat, slot: Option<Line>)
    requires i < |buffer|
    ensures EmptySlots(buffer[i := slot]) == EmptySlots(buffer) - One(buffer[i].None?) + One(slot.None?)
  {
    var n := |buffer| - 1;
    if i == n {
      assert buffer[i := slot][..n] == buffer[..n];
    } else {
      EmptySlotsUpdate(buffer[..n], i, slot);
      assert buffer[i := slot][..n] == buffer[..n][i := slot];
    }
  }

  /** A slot is empty iff the count is positive, occupied iff it is below the size. */
  lemma {:induction false} EmptySlotsBounds(buffer: seq<Option<Line>>)
    ensures EmptySlots(buffer) <= |buffer|
    ensures EmptySlots(buffer) > 0 <==> exists i :: 0 <= i < |buffer| && buffer[i].None?
    ensures EmptySlots(buffer) < |buffer| <==> exists i :: 0 <= i < |buffer| && buffer[i].Some?
  {
    if buffer != [] {
      var n := |buffer| - 1;
      EmptySlotsBounds(buffer[..n]);
      assert forall i :: 0 <= i < n ==> buffer[..n][i] == buffer[i];
    }
  }

  /** Free slots that `me` accounts for: a producer's unused permit, or a post that a consumer owes. */
  function FreeShare(me: Thread): int {
    One(if me.role.Producer? then HasPermit(me.pc) else OwesPost(me.pc))
  }

  /** Filled slots that `me` accounts for: a consumer's unused permit, or a post that a producer owes. */
  function FilledShare(me: Thread): int {
    One(if me.role.Consumer? then HasPermit(me.pc) else OwesPost(me.pc))
  }

  function FreeShares(threads: map<int, Thread>): map<int, int> {
    map t <- threads :: FreeShare(threads[t])
  }

  function FilledShares(threads: map<int, Thread>): map<int, int> {
    map t <- threads :: FilledShare(threads[t])
  }

  ghost predicate CountsOk(y: System) {
    var empty := EmptySlots(y.shared.buffer);
    && empty == y.shared.freeSlots + Total(FreeShares(y.threads))
    && Size(y.shared) - empty == y.shared.filledSlots + Total(FilledShares(y.threads))
  }

  /** A move changes the semaphore, the slots and the thread's own share in step. */
  lemma MoveBalances(s: Shared, me: Thread)
    requires Shaped(s) && me.pos < Size(s)
    requires me.pc.Transfer? ==> Suits(s.buffer[me.pos], me.role)
    ensures var (s', me') := Move(s, me);
            && EmptySlots(s'.buffer) - s'.freeSlots - FreeShare(me')
                 == EmptySlots(s.buffer) - s.freeSlots - FreeShare(me)
            && EmptySlots(s'.buffer) + s'.filledSlots + FilledShare(me')
                 == EmptySlots(s.buffer) + s.filledSlots + FilledShare(me)
  {
    if me.pc.Transfer? {
      EmptySlotsUpdate(s.buffer, me.pos, if me.role.Producer? then Some(me.line) else None);
    }
  }

  lemma SharesUpdate(threads: map<int, Thread>, t: int, me: Thread)
    requires t in threads
    ensures Total(FreeShares(threads[t := me]))
              == Total(FreeShares(threads)) - FreeShare(threads[t]) + FreeShare(me)
    ensures Total(FilledShares(threads[t := me]))
              == Total(FilledShares(threads)) - FilledShare(threads[t]) + FilledShare(me)
  {
    TotalUpdate(FreeShares(threads), t, FreeShare(me));
    TotalUpdate(FilledShares(threads), t, FilledShare(me));
    assert FreeShares(threads[t := me]) == FreeShares(threads)[t := FreeShare(me)];
    assert FilledShares(threads[t := me]) == FilledShares(threads)[t := FilledShare(me)];
  }

  // ----- The invariant

  ghost predicate Inv(y: System, owners: seq<int>) {
    && Shaped(y.shared) && LocksOk(y.shared, owners) && CountsOk(y)
    && (forall i :: 0 <= i < |owners| ==> owners[i] == NOBODY || owners[i] in y.threads)
    && (forall t <- y.threads :: ThreadOk(y.shared, owners, t, y.threads[t]))
  }

  function OwnersAfterStep(y: System, owners: seq<int>, turn: Turn): (r: seq<int>)
    requires ShapedSystem(y) && |owners| == Size(y.shared)
    ensures |r| == |owners|
  {
    if turn.Go? && turn.tid in y.threads then NextOwners(y.shared, owners, turn.tid, y.threads[turn.tid]) else owners
  }

  lemma ThreadKeepsCounts(y: System, t: int, shared: Shared, me: Thread)
    requires CountsOk(y) && t in y.threads && Size(shared) == Size(y.shared)
    requires EmptySlots(shared.buffer) - shared.freeSlots - FreeShare(me)
               == EmptySlots(y.shared.buffer) - y.shared.freeSlots - FreeShare(y.threads[t])
    requires EmptySlots(shared.buffer) + shared.filledSlots + FilledShare(me)
               == EmptySlots(y.shared.buffer) + y.shared.filledSlots + FilledShare(y.threads[t])
    ensures CountsOk(System(shared, y.threads[t := me]))
  {
    SharesUpdate(y.threads, t, me);
  }

  lemma GoKeepsThreads(y: System, owners: seq<int>, t: int)
    requires Inv(y, owners) && ShapedSystem(y) && t in y.threads
    ensures var (s', me') := Move(y.shared, y.threads[t]);
            var owners' := NextOwners(y.shared, owners, t, y.threads[t]);
            && LocksOk(s', owners')
            && (forall i :: 0 <= i < |owners'| ==> owners'[i] == NOBODY || owners'[i] in y.threads)
            && (forall u <- y.threads :: ThreadOk(s', owners', u, if u == t then me' else y.threads[u]))
  {
    var s, me := y.shared, y.threads[t];
    assert ThreadOk(s, owners, t, me);
    MoveKeepsLocks(s, owners, t, me);
    MoveKeepsSelf(s, owners, t, me);
    forall u <- y.threads | u != t ensures ThreadOk(Move(s, me).0, NextOwners(s, owners, t, me), u, y.threads[u]) {
      MoveKeepsOther(s, owners, t, me, u, y.threads[u]);
    }
  }

  lemma GoKeepsInv(y: System, owners: seq<int>, t: int)
    requires Inv(y, owners) && ShapedSystem(y) && t in y.threads
    ensures Inv(Step(y, Go(t)), OwnersAfterStep(y, owners, Go(t)))
  {
    var s, me := y.shared, y.threads[t];
    assert ThreadOk(s, owners, t, me);
    MoveBalances(s, me);
    ThreadKeepsCounts(y, t, Move(s, me).0, Move(s, me).1);
    GoKeepsThreads(y, owners, t);
  }

  lemma StepKeepsInv(y: System, owners: seq<int>, turn: Turn)
    requires Inv(y, owners) && ShapedSystem(y)
    ensures Inv(Step(y, turn), OwnersAfterStep(y, owners, turn))
  {
    if turn.tid in y.threads {
      var t, me := turn.tid, y.threads[turn.tid];
      assert ThreadOk(y.shared, owners, t, me);
      match turn
      case Go(_) =>
        GoKeepsInv(y, owners, t);
      case TimeOut(_) =>
        ThreadKeepsCounts(y, t, y.shared, TimedOut(me));
    }
  }

  lemma {:induction false} AllEmpty(buffer: seq<Option<Line>>)
    requires forall i :: 0 <= i < |buffer| ==> buffer[i].None?
    ensures EmptySlots(buffer) == |buffer|
  {
    if buffer != [] {
      AllEmpty(buffer[..|buffer| - 1]);
    }
  }

  lemma InitialInv(y: System)
    requires Initial(y)
    ensures ShapedSystem(y) && Inv(y, seq(Size(y.shared), _ => NOBODY))
  {
    AllEmpty(y.shared.buffer);
    TotalNonNegative(FreeShares(y.threads));
    TotalNonNegative(FilledShares(y.threads));
  }
}
