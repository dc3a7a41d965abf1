/** Counting semaphores and mutexes (sync.c): tokens, waiters in arrival order, grants to woken waiters, and
    hand-over of mutex ownership. */
module Sync {
  import opened Sequences

  const MAX_WAITERS: nat := 128
  const MAX_SEMAPHORES: nat := 32

  datatype Result = Ok | WouldBlock | Error

  /** owner is -1 when nobody owns the mutex. */
  datatype Sem = Sem(count: int, owner: int, waiters: seq<int>, grants: seq<int>, mutex: bool)

  function NewSem(initial: int, mutex: bool): Sem {
    Sem(initial, -1, [], [], mutex)
  }

  ghost function Index(s: seq<int>, pid: int): (i: nat)
    ensures i <= |s| && pid !in s[..i]
    ensures i < |s| <==> pid in s
    ensures i < |s| ==> s[i] == pid
  {
    if s == [] || s[0] == pid then 0
    else
      var r := Index(s[1..], pid);
      assert s[..r + 1] == [s[0]] + s[1..][..r];
      assert s == [s[0]] + s[1..];
      r + 1
  }

  // ----- what wait and post do -----

  ghost function WaitOn(s: Sem, pid: int): (Sem, Result) {
    if pid in s.grants then (s.(grants := Without(s.grants, Index(s.grants, pid))), Ok)
    else if s.mutex && s.owner == pid then (s, Error)
    else if s.count <= 0 then
      if pid in s.waiters then (s, WouldBlock)
      else if |s.waiters| < MAX_WAITERS then (s.(waiters := s.waiters + [pid]), WouldBlock)
      else (s, Error)
    else (s.(count := s.count - 1, owner := if s.mutex then pid else s.owner), Ok)
  }

  /** The third component is the process to wake, -1 if none. */
  ghost function PostTo(s: Sem, pid: int): (Sem, Result, int) {
    if s.mutex && s.owner != pid then (s, Error, -1)
    else
      var w := if s.waiters == [] then -1 else s.waiters[0];
      var s1 := s.(waiters := if s.waiters == [] then [] else s.waiters[1..]);
      if 0 <= w then
        if s.mutex then (s1.(owner := w, count := 0), Ok, w)
        else if w in s.grants || MAX_WAITERS <= |s.grants| then (s1, Ok, w)
        else (s1.(grants := s.grants + [w]), Ok, w)
      else if s.mutex then (s1.(count := if s.count + 1 > 1 then 1 else s.count + 1, owner := -1), Ok, -1)
      else (s1.(count := s.count + 1), Ok, -1)
  }

  class Table {
    var sems: map<int, Sem>

    ghost predicate Valid()
      reads this
    {
      |sems| <= MAX_SEMAPHORES
    }

    constructor ()
      ensures Valid() && sems == map[]
    {
      sems := map[];
    }

    /** Creates a semaphore or mutex, or resets an existing one; false when the table is full. */
    method Create(id: int, initial: int, mutex: bool) returns (ok: bool)
      requires Valid()
      modifies this
      ensures Valid() && (ok <==> id in old(sems) || |old(sems)| < MAX_SEMAPHORES)
      ensures sems == if ok then old(sems)[id := NewSem(initial, mutex)] else old(sems)
    {
      if id !in sems && MAX_SEMAPHORES <= |sems| {
        return false;
      }
      sems := sems[id := NewSem(initial, mutex)];
      assert id in old(sems) ==> sems.Keys == old(sems).Keys;
      ok := true;
    }

    /** The semaphore a wait finds: one with a single token is made on first use. */
    ghost function Found(id: int): Sem
      reads this
    {
      if id in sems then sems[id] else NewSem(1, false)
    }

    method Wait(id: int, pid: int) returns (r: Result)
      requires Valid()
      modifies this
      ensures Valid()
      ensures id !in old(sems) && MAX_SEMAPHORES <= |old(sems)| ==> r == Error && sems == old(sems)
      ensures id in old(sems) || |old(sems)| < MAX_SEMAPHORES ==>
                && r == WaitOn(old(Found(id)), pid).1
                && sems == old(sems)[id := WaitOn(old(Found(id)), pid).0]
    {
      if id !in sems {
        var ok := Create(id, 1, false);
        if !ok {
          return Error;
        }
      }
      var s := sems[id];
      var s';
      s', r := WaitSem(s, pid);
      sems := sems[id := s'];
      assert old(sems)[id := s'] == sems;
    }

    static method WaitSem(s: Sem, pid: int) returns (s': Sem, r: Result)
      ensures (s', r) == WaitOn(s, pid)
    {
      var i := Find(s.grants, pid);
      if i < |s.grants| {
        return s.(grants := Without(s.grants, i)), Ok;
      }
      if s.mutex && s.owner == pid {
        return s, Error;
      }
      if s.count <= 0 {
        var j := Find(s.waiters, pid);
        if j < |s.waiters| {
          return s, WouldBlock;
        }
        if |s.waiters| < MAX_WAITERS {
          return s.(waiters := s.waiters + [pid]), WouldBlock;
        }
        return s, Error;
      }
      return s.(count := s.count - 1, owner := if s.mutex then pid else s.owner), Ok;
    }

    static method Find(s: seq<int>, pid: int) returns (i: nat)
      ensures i == Index(s, pid)
    {
      i := 0;
      while i < |s|
        invariant i <= Index(s, pid)
      {
        if s[i] == pid {
          return;
        }
        i := i + 1;
      }
    }

    /** Locking creates a mutex on first use and refuses an id that names a semaphore. */
    method Lock(id: int, pid: int) returns (r: Result)
      requires Valid()
      modifies this
      ensures Valid()
      ensures id in old(sems) && !old(sems)[id].mutex ==> r == Error && sems == old(sems)
      ensures id !in old(sems) && MAX_SEMAPHORES <= |old(sems)| ==> r == Error && sems == old(sems)
      ensures (id in old(sems) && old(sems)[id].mutex) || (id !in old(sems) && |old(sems)| < MAX_SEMAPHORES) ==>
                var s := if id in old(sems) then old(sems)[id] else NewSem(1, true);
                r == WaitOn(s, pid).1 && sems == old(sems)[id := WaitOn(s, pid).0]
    {
      if id in sems {
        if !sems[id].mutex {
          return Error;
        }
      } else {
        var ok := Create(id, 1, true);
        if !ok {
          return Error;
        }
      }
      r := Wait(id, pid);
    }

    /** sync_post, which is also sync_mutex_unlock. */
    method Post(id: int, pid: int) returns (r: Result, woken: int)
      requires Valid()
      modifies this
      ensures Valid()
      ensures id !in old(sems) ==> r == Error && woken == -1 && sems == old(sems)
      ensures id in old(sems) ==>
                && (r, woken) == (PostTo(old(sems)[id], pid).1, PostTo(old(sems)[id], pid).2)
                && sems == old(sems)[id := PostTo(old(sems)[id], pid).0]
    {
      woken := -1;
      if id !in sems {
        return Error, woken;
      }
      var s := sems[id];
      assert sems == sems[id := s] && sems[id := s].Keys == sems.Keys;
      if s.mutex && s.owner != pid {
        return Error, woken;
      }
      var wake := -1;
      if s.waiters != [] {
        wake := s.waiters[0];
        s := s.(waiters := s.waiters[1..]);
      }
      if 0 <= wake {
        woken := wake;
        if s.mutex {
          s := s.(owner := wake, count := 0);
        } else {
          var j := Find(s.grants, wake);
          if j == |s.grants| && |s.grants| < MAX_WAITERS {
            s := s.(grants := s.grants + [wake]);
          }
        }
      } else {
        s := s.(count := s.count + 1);
        if s.mutex {
          s := s.(owner := -1, count := if 1 < s.count then 1 else s.count);
        }
      }
      sems := sems[id := s];
      assert sems.Keys == old(sems).Keys;
      r := Ok;
    }
  }
}
