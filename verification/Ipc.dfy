/** Message queues (ipc.c): a bounded ring per queue, lists of waiting senders and receivers, and messages
    granted directly to a receiver. */
module Ipc {
  import opened Sequences
  import opened Rings

  const MSG_CAPACITY: nat := 16
  const WAITQ_CAPACITY: nat := 128
  const MAX_QUEUES: nat := 16

  datatype Message = Message(sender: int, value: int)
  datatype Grant = Grant(pid: int, msg: Message)
  datatype Result = Ok | WouldBlock | Error

  datatype Queue = Queue(
    items: Ring<Message>, grants: seq<Grant>, sendWaiters: seq<int>, recvWaiters: seq<int>)

  /** A queue without its ring arithmetic. */
  datatype View = View(ring: seq<Message>, grants: seq<Grant>, sendWaiters: seq<int>, recvWaiters: seq<int>)

  ghost predicate QueueOk(q: Queue) {
    && RingOk(q.items, MSG_CAPACITY)
    && |q.grants| <= WAITQ_CAPACITY && |q.sendWaiters| <= WAITQ_CAPACITY && |q.recvWaiters| <= WAITQ_CAPACITY
  }

  const EMPTY: Queue := Queue(Ring(seq(MSG_CAPACITY, i => Message(0, 0)), 0, 0), [], [], [])

  ghost function ViewOf(q: Queue): View
    requires RingOk(q.items, MSG_CAPACITY)
  {
    View(Contents(q.items), q.grants, q.sendWaiters, q.recvWaiters)
  }

  // ----- what each call does to a queue -----

  ghost function SendTo(v: View, m: Message): (View, Result) {
    if v.recvWaiters != [] then
      if |v.grants| < WAITQ_CAPACITY then (v.(grants := v.grants + [Grant(v.recvWaiters[0], m)]), Ok) else (v, Error)
    else if MSG_CAPACITY <= |v.ring| then (v, WouldBlock)
    else (v.(ring := v.ring + [m]), Ok)
  }

  /** Position of the first grant to pid; |gs| when there is none. */
  ghost function GrantIndex(gs: seq<Grant>, pid: int): (i: nat)
    ensures i <= |gs|
    ensures forall j :: 0 <= j < i ==> gs[j].pid != pid
    ensures i < |gs| ==> gs[i].pid == pid
  {
    if gs == [] || gs[0].pid == pid then 0
    else
      var r := GrantIndex(gs[1..], pid);
      assert forall j :: 1 <= j < r + 1 ==> gs[j] == gs[1..][j - 1];
      r + 1
  }

  /** Position of pid in a waiter list; |ws| when it is not there. */
  ghost function WaiterIndex(ws: seq<int>, pid: int): (i: nat)
    ensures i <= |ws| && pid !in ws[..i]
    ensures i < |ws| ==> ws[i] == pid
  {
    if ws == [] || ws[0] == pid then 0
    else
      var r := WaiterIndex(ws[1..], pid);
      assert ws[..r + 1] == [ws[0]] + ws[1..][..r];
      r + 1
  }

  ghost function Leave(ws: seq<int>, pid: int): seq<int> {
    if WaiterIndex(ws, pid) < |ws| then Without(ws, WaiterIndex(ws, pid)) else ws
  }

  ghost function Join(ws: seq<int>, pid: int): seq<int> {
    if pid in ws || WAITQ_CAPACITY <= |ws| then ws else ws + [pid]
  }

  ghost function Tail<T>(s: seq<T>): seq<T> {
    if s == [] then s else s[1..]
  }

  /** The message, if any, that pid receives, and what is left. */
  ghost function RecvFrom(v: View, pid: int): (View, Result, Message) {
    var i := GrantIndex(v.grants, pid);
    if i < |v.grants| then
      (v.(grants := Without(v.grants, i), recvWaiters := Leave(v.recvWaiters, pid)), Ok, v.grants[i].msg)
    else if v.recvWaiters != [] && v.recvWaiters[0] != pid then (v, WouldBlock, Message(0, 0))
    else if v.ring == [] then (v, WouldBlock, Message(0, 0))
    else (v.(ring := v.ring[1..]), Ok, v.ring[0])
  }

  class Ipc {
    var queues: map<int, Queue>

    ghost predicate Valid()
      reads this
    {
      |queues| <= MAX_QUEUES && forall id :: id in queues ==> QueueOk(queues[id])
    }

    /** A queue as callers see it; one never used is empty. */
    ghost function Get(id: int): View
      requires Valid()
      reads this
    {
      if id in queues then ViewOf(queues[id]) else View([], [], [], [])
    }

    constructor ()
      ensures Valid() && queues == map[]
    {
      queues := map[];
    }

    /** Finds the queue, creating it empty on first use; false when all queues are in use. */
    method Open(id: int) returns (ok: bool)
      requires Valid()
      modifies this
      ensures Valid()
      ensures ok <==> id in old(queues) || |old(queues)| < MAX_QUEUES
      ensures queues == if ok && id !in old(queues) then old(queues)[id := EMPTY] else old(queues)
    {
      ok := id in queues;
      if !ok && |queues| < MAX_QUEUES {
        queues := queues[id := EMPTY];
        ok := true;
      }
    }

    method Send(id: int, sender: int, value: int) returns (r: Result)
      requires Valid()
      modifies this
      ensures Valid()
      ensures id !in old(queues) && MAX_QUEUES <= |old(queues)| ==> r == Error && queues == old(queues)
      ensures id in old(queues) || |old(queues)| < MAX_QUEUES ==>
                && (forall x :: x != id ==> Get(x) == old(Get(x))) && queues.Keys == old(queues).Keys + {id}
                && (Get(id), r) == SendTo(old(Get(id)), Message(sender, value))
    {
      var ok := Open(id);
      if !ok {
        return Error;
      }
      var q := queues[id];
      assert Contents(EMPTY.items) == [];
      if q.recvWaiters != [] {
        if WAITQ_CAPACITY <= |q.grants| {
          return Error;
        }
        queues := queues[id := q.(grants := q.grants + [Grant(q.recvWaiters[0], Message(sender, value))])];
        return Ok;
      }
      if MSG_CAPACITY <= q.items.len {
        return WouldBlock;
      }
      PushContents(q.items, Message(sender, value));
      queues := queues[id := q.(items := Push(q.items, Message(sender, value)))];
      r := Ok;
    }

    method Recv(id: int, pid: int) returns (r: Result, msg: Message)
      requires Valid()
      modifies this
      ensures Valid()
      ensures id !in old(queues) && MAX_QUEUES <= |old(queues)| ==> r == Error && queues == old(queues)
      ensures id in old(queues) || |old(queues)| < MAX_QUEUES ==>
                && (forall x :: x != id ==> Get(x) == old(Get(x)))
                && queues.Keys == old(queues).Keys + {id} && (Get(id), r) == (RecvFrom(old(Get(id)), pid).0, RecvFrom(old(Get(id)), pid).1)
                && (r == Ok ==> msg == RecvFrom(old(Get(id)), pid).2)
    {
      msg := Message(0, 0);
      var ok := Open(id);
      if !ok {
        return Error, msg;
      }
      var q := queues[id];
      assert Contents(EMPTY.items) == [];
      var i := 0;
      while i < |q.grants|
        invariant i <= GrantIndex(q.grants, pid)
      {
        if q.grants[i].pid == pid {
          var ws := Remove(q.recvWaiters, pid);
          queues := queues[id := q.(grants := Without(q.grants, i), recvWaiters := ws)];
          return Ok, q.grants[i].msg;
        }
        i := i + 1;
      }
      if q.recvWaiters != [] && q.recvWaiters[0] != pid {
        return WouldBlock, msg;
      }
      if q.items.len == 0 {
        return WouldBlock, msg;
      }
      PopContents(q.items);
      msg := q.items.buf[q.items.head];
      queues := queues[id := q.(items := Pop(q.items))];
      r := Ok;
    }

    static method Remove(ws: seq<int>, pid: int) returns (r: seq<int>)
      ensures r == Leave(ws, pid)
    {
      var i := 0;
      while i < |ws|
        invariant i <= WaiterIndex(ws, pid)
      {
        if ws[i] == pid {
          return Without(ws, i);
        }
        i := i + 1;
      }
      r := ws;
    }

    static method Add(ws: seq<int>, pid: int) returns (r: seq<int>)
      ensures r == Join(ws, pid)
    {
      var i := 0;
      while i < |ws|
        invariant i <= |ws| && pid !in ws[..i]
      {
        if ws[i] == pid {
          return ws;
        }
        i := i + 1;
      }
      assert ws[..i] == ws;
      r := if |ws| < WAITQ_CAPACITY then ws + [pid] else ws;
    }

    method WaitSender(id: int, pid: int)
      requires Valid()
      modifies this
      ensures Valid()
      ensures id !in old(queues) && MAX_QUEUES <= |old(queues)| ==> queues == old(queues)
      ensures id in old(queues) || |old(queues)| < MAX_QUEUES ==>
                && (forall x :: x != id ==> Get(x) == old(Get(x)))
                && queues.Keys == old(queues).Keys + {id} && Get(id) == old(Get(id)).(sendWaiters := Join(old(Get(id)).sendWaiters, pid))
    {
      var ok := Open(id);
      if !ok {
        return;
      }
      assert Contents(EMPTY.items) == [];
      var q := queues[id];
      var ws := Add(q.sendWaiters, pid);
      queues := queues[id := q.(sendWaiters := ws)];
    }

    method WaitReceiver(id: int, pid: int)
      requires Valid()
      modifies this
      ensures Valid()
      ensures id !in old(queues) && MAX_QUEUES <= |old(queues)| ==> queues == old(queues)
      ensures id in old(queues) || |old(queues)| < MAX_QUEUES ==>
                && (forall x :: x != id ==> Get(x) == old(Get(x)))
                && queues.Keys == old(queues).Keys + {id} && Get(id) == old(Get(id)).(recvWaiters := Join(old(Get(id)).recvWaiters, pid))
    {
      var ok := Open(id);
      if !ok {
        return;
      }
      assert Contents(EMPTY.items) == [];
      var q := queues[id];
      var ws := Add(q.recvWaiters, pid);
      queues := queues[id := q.(recvWaiters := ws)];
    }

    method PopSender(id: int) returns (pid: int)
      requires Valid()
      modifies this
      ensures Valid() && (id !in old(queues) ==> queues == old(queues) && pid == -1)
      ensures id in old(queues) ==>
                && (forall x :: x != id ==> Get(x) == old(Get(x)))
                && queues.Keys == old(queues).Keys && Get(id) == old(Get(id)).(sendWaiters := Tail(old(Get(id)).sendWaiters))
      ensures pid == if old(Get(id)).sendWaiters == [] then -1 else old(Get(id)).sendWaiters[0]
    {
      if id !in queues {
        return -1;
      }
      var q := queues[id];
      if q.sendWaiters == [] {
        return -1;
      }
      pid := q.sendWaiters[0];
      queues := queues[id := q.(sendWaiters := q.sendWaiters[1..])];
    }

    method PopReceiver(id: int) returns (pid: int)
      requires Valid()
      modifies this
      ensures Valid() && (id !in old(queues) ==> queues == old(queues) && pid == -1)
      ensures id in old(queues) ==>
                && (forall x :: x != id ==> Get(x) == old(Get(x)))
                && queues.Keys == old(queues).Keys && Get(id) == old(Get(id)).(recvWaiters := Tail(old(Get(id)).recvWaiters))
      ensures pid == if old(Get(id)).recvWaiters == [] then -1 else old(Get(id)).recvWaiters[0]
    {
      if id !in queues {
        return -1;
      }
      var q := queues[id];
      if q.recvWaiters == [] {
        return -1;
      }
      pid := q.recvWaiters[0];
      queues := queues[id := q.(recvWaiters := q.recvWaiters[1..])];
    }
  }
}
