/** What any sequence of waits and posts on one semaphore or mutex keeps. */
module SyncProtocol {
  import opened Sequences
  import opened Sync

  datatype Call = Wait(pid: int) | Post(pid: int)

  /** A semaphore with its history: tokens it began with, successful posts, completed waits; processes in the
      order they began to wait, and in the order they were handed a token or the mutex. */
  datatype Run = Run(
    sem: Sem, initial: int, posts: nat, completed: nat, waited: seq<int>, handed: seq<int>)

  ghost function Start(initial: int, mutex: bool): Run {
    Run(NewSem(initial, mutex), initial, 0, 0, [], [])
  }

  ghost function Step(r: Run, c: Call): Run {
    match c
    case Wait(pid) =>
      var (s, res) := WaitOn(r.sem, pid);
      r.(sem := s,
         completed := if res == Ok then r.completed + 1 else r.completed,
         waited := if |s.waiters| > |r.sem.waiters| then r.waited + [pid] else r.waited)
    case Post(pid) =>
      var (s, res, woken) := PostTo(r.sem, pid);
      r.(sem := s,
         posts := if res == Ok then r.posts + 1 else r.posts,
         handed := if woken != -1 then r.handed + [woken] else r.handed)
  }

  ghost function After(r: Run, calls: seq<Call>): Run {
    if calls == [] then r else Step(After(r, calls[..|calls| - 1]), calls[|calls| - 1])
  }

  /** All callers come from the process ids in pids. */
  ghost predicate From(calls: seq<Call>, pids: set<int>) {
    forall i :: 0 <= i < |calls| ==> calls[i].pid in pids
  }

  ghost predicate Pids(pids: set<int>) {
    |pids| <= MAX_WAITERS && forall p :: p in pids ==> 0 <= p
  }

  ghost predicate Within(s: seq<int>, pids: set<int>) {
    NoDuplicates(s) && forall i :: 0 <= i < |s| ==> s[i] in pids
  }

  /** Waiters in order of arrival, each once; those handed something, then those still waiting, are those that
      ever waited. */
  ghost predicate Orderly(r: Run, pids: set<int>) {
    && Within(r.sem.waiters, pids)
    && r.handed + r.sem.waiters == r.waited
    && (r.sem.waiters != [] ==> r.sem.count <= 0)
  }

  /** Tokens are neither made nor lost, and a grant is held for a process that does not wait as well. */
  ghost predicate SemInv(r: Run, pids: set<int>) {
    && !r.sem.mutex
    && Orderly(r, pids)
    && Within(r.sem.grants, pids)
    && (forall p :: p in r.sem.waiters ==> p !in r.sem.grants)
    && r.completed + r.sem.count + |r.sem.grants| == r.initial + r.posts
  }

  /** The mutex is taken exactly when it has an owner, and the owner does not wait for it. */
  ghost predicate MutexInv(r: Run, pids: set<int>) {
    && r.sem.mutex
    && Orderly(r, pids)
    && r.sem.grants == []
    && (r.sem.owner == -1 || r.sem.owner in pids)
    && r.sem.count == (if r.sem.owner == -1 then 1 else 0)
    && r.sem.owner !in r.sem.waiters
  }

  lemma RoomToWait(s: seq<int>, pids: set<int>, pid: int)
    requires Within(s, pids) && Pids(pids) && pid in pids && pid !in s
    ensures |s| < MAX_WAITERS && Within(s + [pid], pids)
  {
    forall i | 0 <= i < |s|
      ensures s[i] in pids - {pid}
    {
      var x := s[i];
      assert x in s;
    }
    DistinctBound(s, pids - {pid});
  }

  lemma WithinWithout(s: seq<int>, pids: set<int>, i: nat)
    requires Within(s, pids) && i < |s|
    ensures Within(Without(s, i), pids) && s[i] !in Without(s, i)
    ensures forall x :: x in Without(s, i) ==> x in s
  {
    WithoutMembers(s, i);
  }

  lemma SemWait(r: Run, pids: set<int>, pid: int)
    requires SemInv(r, pids) && Pids(pids) && pid in pids
    ensures SemInv(Step(r, Wait(pid)), pids)
  {
    var s := r.sem;
    if pid in s.grants {
      WithinWithout(s.grants, pids, Index(s.grants, pid));
    } else if s.count <= 0 && pid !in s.waiters {
      RoomToWait(s.waiters, pids, pid);
      assert r.handed + (s.waiters + [pid]) == r.waited + [pid];
    }
  }

  lemma SemPost(r: Run, pids: set<int>, pid: int)
    requires SemInv(r, pids) && Pids(pids)
    ensures SemInv(Step(r, Post(pid)), pids)
  {
    var s := r.sem;
    if s.waiters != [] {
      var w := s.waiters[0];
      assert w in s.waiters;
      assert s.waiters[1..] == Without(s.waiters, 0);
      WithinWithout(s.waiters, pids, 0);
      RoomToWait(s.grants, pids, w);
      assert (r.handed + [w]) + s.waiters[1..] == r.handed + s.waiters;
    }
  }

  /** Over any calls by at most 128 processes: completed waits, tokens left and outstanding grants add up to the
      initial tokens and the posts; waiters and grants are disjoint; somebody waits only when no token is left. */
  lemma {:induction false} TokensConserved(initial: int, calls: seq<Call>, pids: set<int>)
    requires Pids(pids) && From(calls, pids)
    ensures SemInv(After(Start(initial, false), calls), pids)
  {
    if calls != [] {
      var k := |calls| - 1;
      assert From(calls[..k], pids);
      TokensConserved(initial, calls[..k], pids);
      var r := After(Start(initial, false), calls[..k]);
      match calls[k] {
        case Wait(pid) => SemWait(r, pids, pid);
        case Post(pid) => SemPost(r, pids, pid);
      }
    }
  }

  lemma MutexWait(r: Run, pids: set<int>, pid: int)
    requires MutexInv(r, pids) && Pids(pids) && pid in pids
    ensures MutexInv(Step(r, Wait(pid)), pids)
  {
    var s := r.sem;
    if s.owner != pid && s.count <= 0 && pid !in s.waiters {
      RoomToWait(s.waiters, pids, pid);
      assert r.handed + (s.waiters + [pid]) == r.waited + [pid];
    }
  }

  lemma MutexPost(r: Run, pids: set<int>, pid: int)
    requires MutexInv(r, pids) && Pids(pids) && pid in pids
    ensures MutexInv(Step(r, Post(pid)), pids)
  {
    var s := r.sem;
    if s.owner == pid && s.waiters != [] {
      var w := s.waiters[0];
      assert w in s.waiters;
      assert s.waiters[1..] == Without(s.waiters, 0);
      WithinWithout(s.waiters, pids, 0);
      assert (r.handed + [w]) + s.waiters[1..] == r.handed + s.waiters;
    }
  }

  /** Over any calls by at most 128 processes a mutex has one owner at most, who does not wait, and ownership
      passes in the order of waiting. */
  lemma {:induction false} MutexSafe(calls: seq<Call>, pids: set<int>)
    requires Pids(pids) && From(calls, pids)
    ensures MutexInv(After(Start(1, true), calls), pids)
  {
    if calls != [] {
      var k := |calls| - 1;
      assert From(calls[..k], pids);
      MutexSafe(calls[..k], pids);
      var r := After(Start(1, true), calls[..k]);
      match calls[k] {
        case Wait(pid) => MutexWait(r, pids, pid);
        case Post(pid) => MutexPost(r, pids, pid);
      }
    }
  }

  /** No barging: while somebody waits, a wait completes only for a process that was granted a token. */
  lemma NoBarging(r: Run, pids: set<int>, pid: int)
    requires SemInv(r, pids) && r.sem.waiters != []
    ensures WaitOn(r.sem, pid).1 == Ok <==> pid in r.sem.grants
    ensures WaitOn(r.sem, pid).1 == Ok ==> multiset(r.sem.grants) == multiset(WaitOn(r.sem, pid).0.grants) + multiset{pid}
  {
    if pid in r.sem.grants {
      var i := Index(r.sem.grants, pid);
      assert r.sem.grants == r.sem.grants[..i] + [pid] + r.sem.grants[i + 1..];
    }
  }

  /** A wait goes through exactly for a process that holds a grant or if a token is left, and uses up the one or the other;
      otherwise the process is among the waiters. It never fails. */
  lemma WaitOutcome(r: Run, pids: set<int>, pid: int)
    requires SemInv(r, pids) && Pids(pids) && pid in pids
    ensures var (s, res) := WaitOn(r.sem, pid);
            && res != Error
            && (res == Ok <==> pid in r.sem.grants || 0 < r.sem.count)
            && (res == WouldBlock ==> pid in s.waiters && s.count == r.sem.count)
            && (res == Ok ==> s.waiters == r.sem.waiters)
            && (res == Ok && pid in r.sem.grants ==> s.count == r.sem.count && |s.grants| == |r.sem.grants| - 1 && pid !in s.grants)
            && (res == Ok && pid !in r.sem.grants ==> s.count == r.sem.count - 1 && s.grants == r.sem.grants)
  {
    if pid in r.sem.grants {
      WithinWithout(r.sem.grants, pids, Index(r.sem.grants, pid));
    } else if pid !in r.sem.waiters {
      RoomToWait(r.sem.waiters, pids, pid);
    }
  }

  /** A post never fails. With somebody waiting the first waiter gets the token as a grant, and its retried wait goes through;
      otherwise there is one token more, and the next wait, whoever makes it, goes through. */
  lemma PostOutcome(r: Run, pids: set<int>, pid: int, next: int)
    requires SemInv(r, pids) && Pids(pids) && next in pids
    ensures var (s, res, woken) := PostTo(r.sem, pid);
            && res == Ok
            && (r.sem.waiters != [] ==>
                  && woken == r.sem.waiters[0] && s.waiters == r.sem.waiters[1..] && s.count == r.sem.count
                  && s.grants == r.sem.grants + [woken] && WaitOn(s, woken).1 == Ok)
            && (r.sem.waiters == [] ==>
                  && woken == -1 && s == r.sem.(count := r.sem.count + 1) && (0 <= r.sem.count ==> WaitOn(s, next).1 == Ok))
  {
    if r.sem.waiters != [] {
      assert r.sem.waiters[0] in r.sem.waiters;
      RoomToWait(r.sem.grants, pids, r.sem.waiters[0]);
    }
  }

  /** Only the owner unlocks. With nobody waiting the mutex is free, and the next lock, whoever takes it, is obtained; else the
      first waiter owns it. */
  lemma UnlockOutcome(r: Run, pids: set<int>, pid: int, next: int)
    requires MutexInv(r, pids) && Pids(pids) && pid in pids && next in pids
    ensures var (s, res, woken) := PostTo(r.sem, pid);
            && res == (if r.sem.owner == pid then Ok else Error)
            && (res == Error ==> s == r.sem && woken == -1)
            && (res == Ok && r.sem.waiters == [] ==>
                  && woken == -1 && s.owner == -1 && s.waiters == []
                  && WaitOn(s, next).1 == Ok && WaitOn(s, next).0.owner == next)
            && (res == Ok && r.sem.waiters != [] ==> woken == s.owner == r.sem.waiters[0] && s.waiters == r.sem.waiters[1..])
  {
    if r.sem.waiters != [] {
      assert r.sem.waiters[0] in r.sem.waiters;
    }
  }

  /** A lock is obtained exactly when the mutex is free, waits exactly when another process owns it, and fails
      exactly for the owner. */
  lemma LockOutcome(r: Run, pids: set<int>, pid: int)
    requires MutexInv(r, pids) && Pids(pids) && pid in pids
    ensures WaitOn(r.sem, pid).1 == Ok <==> r.sem.owner == -1
    ensures WaitOn(r.sem, pid).1 == Error <==> r.sem.owner == pid
    ensures WaitOn(r.sem, pid).1 == Ok ==> WaitOn(r.sem, pid).0.owner == pid
    ensures WaitOn(r.sem, pid).1 == WouldBlock ==> pid in WaitOn(r.sem, pid).0.waiters
  {
    if pid !in r.sem.waiters {
      RoomToWait(r.sem.waiters, pids, pid);
    }
  }

  /** Hand-over is meant to let the woken process proceed. It makes the process the owner, but a woken process
      executes LOCK again, and that always fails: the owner may not lock twice. */
  lemma HandedOverLockFails(r: Run, pids: set<int>, pid: int)
    requires MutexInv(r, pids) && Pids(pids) && pid in pids && r.sem.owner == pid && r.sem.waiters != []
    ensures var (s, res, w) := PostTo(r.sem, pid);
            res == Ok && w == r.sem.waiters[0] && s.owner == w && WaitOn(s, w) == (s, Error)
  {
    var w := r.sem.waiters[0];
    assert w in r.sem.waiters;
  }

  /** It happens: process 1 locks, 2 waits, 1 unlocks, and 2, now the owner, locks in vain. */
  lemma HandOverHappens()
    ensures var r := After(Start(1, true), [Wait(1), Wait(2), Post(1)]);
            r.sem.owner == 2 && r.handed == [2] && WaitOn(r.sem, 2) == (r.sem, Error)
  {
    var calls := [Wait(1), Wait(2), Post(1)];
    assert calls[..2] == [Wait(1), Wait(2)] && calls[..2][..1] == [Wait(1)] && calls[..2][..1][..0] == [];
    var r := Start(1, true);
    assert After(r, [Wait(1)]) == Step(r, Wait(1)) by {
      assert [Wait(1)][..0] == [];
    }
    assert After(r, [Wait(1), Wait(2)]) == Step(Step(r, Wait(1)), Wait(2)) by {
      assert [Wait(1), Wait(2)][..1] == [Wait(1)];
    }
  }
}
