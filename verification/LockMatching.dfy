/** Which unlock closes which lock, for locks of one address nested in any way. */
module LockMatching {
  import opened Events
  import opened Graphs

  predicate IsLockRead(lab: Label) { lab.kind == Read(LockCasRead) || lab.kind == Read(TrylockCasRead) }

  predicate IsLockWrite(lab: Label, addr: int) {
    (lab.kind == Write(LockCasWrite) || lab.kind == Write(TrylockCasWrite)) && lab.addr == addr
  }

  predicate IsUnlock(lab: Label, addr: int) { lab.kind == Write(UnlockWrite) && lab.addr == addr }

  /** Locks minus unlocks of an address at positions i up to j. */
  function Balance(s: seq<Label>, addr: int, i: nat, j: nat): int
    requires j <= |s|
    decreases j
  {
    if i >= j then 0
    else Balance(s, addr, i, j - 1) + (if IsLockWrite(s[j - 1], addr) then 1 else if IsUnlock(s[j - 1], addr) then -1
        else 0)
  }

  lemma {:induction false} BalanceSplit(s: seq<Label>, addr: int, i: nat, k: nat, j: nat)
    requires i <= k <= j <= |s|
    ensures Balance(s, addr, i, j) == Balance(s, addr, i, k) + Balance(s, addr, k, j)
    decreases j
  {
    if k < j { BalanceSplit(s, addr, i, k, j - 1); }
  }

  ghost predicate NeverBelow(s: seq<Label>, addr: int, from: nat, to: nat)
    requires to <= |s|
  {
    forall k: nat :: from <= k <= to ==> Balance(s, addr, from, k) >= 0
  }

  /** Between l and the unlock at u everything locked is unlocked again, in order. */
  ghost predicate Unlocks(s: seq<Label>, addr: int, l: nat, u: nat) {
    && l < u < |s| && IsUnlock(s[u], addr)
    && Balance(s, addr, l + 1, u) == 0 && NeverBelow(s, addr, l + 1, u)
  }

  /** And there is a lock at l. */
  ghost predicate Matched(s: seq<Label>, addr: int, l: nat, u: nat) {
    Unlocks(s, addr, l, u) && IsLockWrite(s[l], addr)
  }

  lemma NoLaterUnlock(s: seq<Label>, addr: int, l: nat, u1: nat, u2: nat)
    requires Unlocks(s, addr, l, u1) && u1 < u2
    ensures !Unlocks(s, addr, l, u2)
  {
    assert Balance(s, addr, l + 1, u1 + 1) == -1;
  }

  lemma UnlockUnique(s: seq<Label>, addr: int, l: nat, u1: nat, u2: nat)
    requires Unlocks(s, addr, l, u1) && Unlocks(s, addr, l, u2)
    ensures u1 == u2
  {
    if u1 < u2 { NoLaterUnlock(s, addr, l, u1, u2); }
    if u2 < u1 { NoLaterUnlock(s, addr, l, u2, u1); }
  }

  lemma NoEarlierLock(s: seq<Label>, addr: int, l1: nat, l2: nat, u: nat)
    requires Matched(s, addr, l2, u) && l1 < l2
    ensures !Matched(s, addr, l1, u)
  {
    BalanceSplit(s, addr, l1 + 1, l2, u);
    BalanceSplit(s, addr, l2, l2 + 1, u);
    assert Balance(s, addr, l2, u) == 1;
  }

  lemma LockUnique(s: seq<Label>, addr: int, l1: nat, l2: nat, u: nat)
    requires Matched(s, addr, l1, u) && Matched(s, addr, l2, u)
    ensures l1 == l2
  {
    if l1 < l2 { NoEarlierLock(s, addr, l1, l2, u); }
    if l2 < l1 { NoEarlierLock(s, addr, l2, l1, u); }
  }

  /** If no suffix has more locks than unlocks, no prefix has more unlocks than locks. */
  lemma SuffixToPrefix(s: seq<Label>, addr: int, from: nat, u: nat)
    requires from <= u <= |s| && Balance(s, addr, from, u) == 0
    requires forall k: nat :: from <= k <= u ==> Balance(s, addr, k, u) <= 0
    ensures NeverBelow(s, addr, from, u)
  {
    forall k: nat | from <= k <= u ensures Balance(s, addr, from, k) >= 0 { BalanceSplit(s, addr, from, k, u); }
  }

  // ----- the two searches, and what each returns -----

  /** A lock write directly follows a lock read of the same address. */
  ghost predicate LocksPaired(g: Graph) {
    forall e :: In(g, e) && (exists a :: IsLockWrite(L(g, e), a)) ==>
                  In(g, e.Prev()) && IsLockRead(L(g, e.Prev())) && L(g, e.Prev()).addr == L(g, e).addr && e.index >= 2
  }

  /** e is the read half of the lock that the unlock u closes, or the initialiser if there is none. */
  ghost predicate IsLockOf(g: Graph, u: Event, e: Event)
    requires In(g, u)
  {
    var s, addr := g[u.thread], L(g, u).addr;
    if exists l: nat :: 0 < l && Matched(s, addr, l, u.index)
    then e.thread == u.thread && e.index >= 0 && Matched(s, addr, e.index + 1, u.index)
    else e == Initializer
  }

  ghost predicate Closed(s: seq<Label>, addr: int, l: nat) { exists u :: Unlocks(s, addr, l, u) }

  /** e is the unlock that closes the lock with read half l, or the initialiser if there is none; whether the lock was
      taken, so that its write half is there, does not matter. */
  ghost predicate IsUnlockOf(g: Graph, l: Event, e: Event)
    requires In(g, l)
  {
    var s, addr := g[l.thread], L(g, l).addr;
    if Closed(s, addr, l.index + 1)
    then e.thread == l.thread && e.index >= 0 && Unlocks(s, addr, l.index + 1, e.index)
    else e == Initializer
  }

  /** getMatchingUnlock(getMatchingLock(u)) is u, if u closes anything. */
  lemma LockThenUnlock(g: Graph, u: Event, l: Event, u': Event)
    requires LocksPaired(g) && In(g, u) && IsLockOf(g, u, l) && l != Initializer && In(g, l) && IsUnlockOf(g, l, u')
    ensures u' == u
  {
    var s, addr := g[u.thread], L(g, u).addr;
    assert Matched(s, addr, l.index + 1, u.index);
    assert IsLockWrite(L(g, l.Next()), addr) && l.Next().Prev() == l;
    assert L(g, l).addr == addr;
    UnlockUnique(s, addr, l.index + 1, u.index, u'.index);
  }

  /** getMatchingLock(getMatchingUnlock(l)) is l, if l is ever closed, exactly if its write half is there. */
  lemma UnlockThenLock(g: Graph, l: Event, u: Event, l': Event)
    requires LocksPaired(g) && In(g, l) && l != Initializer && IsUnlockOf(g, l, u) && u != Initializer && In(g, u)
    requires IsLockOf(g, u, l')
    ensures l' == l <==> In(g, l.Next()) && IsLockWrite(L(g, l.Next()), L(g, l).addr)
  {
    var s, addr := g[l.thread], L(g, l).addr;
    assert Unlocks(s, addr, l.index + 1, u.index);
    assert L(g, u).addr == addr;
    if In(g, l.Next()) && IsLockWrite(L(g, l.Next()), addr) {
      assert Matched(s, addr, l.index + 1, u.index);
      LockUnique(s, addr, l.index + 1, l'.index + 1, u.index);
    }
  }

  /** Scans backwards from an unlock; unlocks met on the way are to be closed first. */
  method GetMatchingLock(g: Graph, unlock: Event) returns (e: Event)
    requires In(g, unlock) && L(g, unlock).kind == Write(UnlockWrite) && Positioned(g)
    ensures IsLockOf(g, unlock, e)
  {
    ghost var s, addr, u := g[unlock.thread], L(g, unlock).addr, unlock.index;
    var locUnlocks: seq<Event> := [];
    var j := unlock.index - 1;
    while j > 0
      invariant -1 <= j < u
      invariant |locUnlocks| == -Balance(s, addr, j + 1, u)
      invariant forall k: nat :: j < k <= u ==> Balance(s, addr, k, u) <= 0
      invariant forall l: nat :: j < l ==> !Matched(s, addr, l, u)
    {
      var lab := g[unlock.thread][j];
      BalanceSplit(s, addr, j, j + 1, u);
      if lab.kind == Write(UnlockWrite) && lab.addr == L(g, unlock).addr {
        locUnlocks := locUnlocks + [Event(unlock.thread, j)];
      }
      if IsLockWrite(lab, L(g, unlock).addr) {
        if locUnlocks == [] {
          SuffixToPrefix(s, addr, j + 1, u);
          assert Matched(s, addr, j, u);
          return Event(unlock.thread, j).Prev();
        }
        locUnlocks := locUnlocks[..|locUnlocks| - 1];
      }
      j := j - 1;
    }
    return Initializer;
  }

  /** Scans forwards from a lock; locks met on the way have to be closed first. */
  method GetMatchingUnlock(g: Graph, lock: Event) returns (e: Event)
    requires In(g, lock) && IsLockRead(L(g, lock)) && Positioned(g)
    ensures IsUnlockOf(g, lock, e)
  {
    ghost var s, addr, l := g[lock.thread], L(g, lock).addr, lock.index + 1;
    var locLocks: seq<Event> := [];
    var j := lock.index + 2;
    while j < |g[lock.thread]|
      invariant l < j && (j <= |s| || j == l + 1)
      invariant j <= |s| ==> |locLocks| == Balance(s, addr, l + 1, j) && NeverBelow(s, addr, l + 1, j)
      invariant forall u: nat :: u < j ==> !Unlocks(s, addr, l, u)
    {
      var lab := g[lock.thread][j];
      if IsLockWrite(lab, L(g, lock).addr) {
        locLocks := locLocks + [Event(lock.thread, j).Prev()];
      }
      if lab.kind == Write(UnlockWrite) && lab.addr == L(g, lock).addr {
        if locLocks == [] {
          assert Unlocks(s, addr, l, j);
          return Event(lock.thread, j);
        }
        locLocks := locLocks[..|locLocks| - 1];
      }
      j := j + 1;
    }
    return Initializer;
  }
}
