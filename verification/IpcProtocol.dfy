/** Blocking SEND and RECV on top of the queues (the two instruction cases of runtime.c): who waits, who has been
    woken, and what every step keeps. */
module IpcProtocol {
  import opened Sequences
  import opened Ipc

  /** Where a process stands: blocked on a queue, woken but not yet retried, or neither. A blocked or woken sender
      keeps its value: the instruction is executed again after wake-up. */
  datatype Status =
    | Idle
    | SendBlocked(q: int, value: int)
    | SendWoken(q: int, value: int)
    | RecvBlocked(q: int)
    | RecvWoken(q: int)

  type Statuses = map<int, Status>

  /** History of one queue: messages sent, messages assigned to a receiver, messages handed over. */
  datatype Log = Log(sent: seq<Message>, allotted: seq<Grant>, delivered: seq<Grant>)

  ghost function Messages(gs: seq<Grant>): (ms: seq<Message>)
    ensures |ms| == |gs|
  {
    seq(|gs|, i requires 0 <= i < |gs| => gs[i].msg)
  }

  ghost function Pids(gs: seq<Grant>): (ps: seq<int>)
    ensures |ps| == |gs| && forall i :: 0 <= i < |gs| ==> ps[i] == gs[i].pid
  {
    seq(|gs|, i requires 0 <= i < |gs| => gs[i].pid)
  }

  /** Senders woken for queue q that have not tried again yet. */
  ghost function Woken(st: Statuses, q: int): (w: set<int>)
    ensures forall p :: p in w <==> p in st && st[p].SendWoken? && st[p].q == q
  {
    set p | p in st && st[p].SendWoken? && st[p].q == q
  }

  /** First in, first out: what was assigned, followed by what is in the ring, is what was sent; and every
      assigned message is either handed over or still held for its receiver. */
  ghost predicate Fifo(v: View, log: Log) {
    && Messages(log.allotted) + v.ring == log.sent
    && multiset(log.allotted) == multiset(log.delivered) + multiset(v.grants)
    && |v.ring| <= MSG_CAPACITY
    && (v.recvWaiters != [] ==> v.ring == [])
  }

  /** The lists hold exactly the processes whose status says so, each once. */
  ghost predicate Registered(v: View, st: Statuses, q: int) {
    && NoDuplicates(v.sendWaiters) && NoDuplicates(v.recvWaiters) && NoDuplicates(Pids(v.grants))
    && (forall p :: p in v.sendWaiters <==> p in st && st[p].SendBlocked? && st[p].q == q)
    && (forall p :: p in v.recvWaiters <==> p in st && st[p] == RecvBlocked(q))
    && (forall p :: p in Pids(v.grants) <==> p in st && st[p] == RecvWoken(q))
  }

  /** While a sender waits, free places in the ring are covered by senders already woken and by messages still
      to be collected, each collection waking another sender. */
  ghost predicate Covered(v: View, st: Statuses, q: int) {
    v.sendWaiters != [] ==> MSG_CAPACITY - |v.ring| <= |Woken(st, q)| + |v.grants|
  }

  ghost predicate QueueInv(v: View, log: Log, st: Statuses, q: int) {
    Fifo(v, log) && Registered(v, st, q) && Covered(v, st, q)
  }

  /** No sender stays blocked beside free space with nothing pending. */
  lemma NoLostWakeup(v: View, log: Log, st: Statuses, q: int, p: int)
    requires QueueInv(v, log, st, q) && p in st && st[p].SendBlocked? && st[p].q == q
    requires Woken(st, q) == {} && v.grants == []
    ensures |v.ring| == MSG_CAPACITY
  {
    assert p in v.sendWaiters;
  }

  /** Whoever waits to receive finds the ring empty: no message is kept from a waiting receiver. */
  lemma NoLostMessage(v: View, log: Log, st: Statuses, q: int, p: int)
    requires QueueInv(v, log, st, q) && p in st && st[p] == RecvBlocked(q)
    ensures v.ring == [] && Messages(log.allotted) == log.sent
  {
    assert p in v.recvWaiters;
  }

  /** The messages handed over to anyone, in whatever order, are among those sent, each at most as often. */
  lemma DeliveredWereSent(v: View, log: Log)
    requires Fifo(v, log)
    ensures multiset(log.delivered) <= multiset(log.allotted)
    ensures Messages(log.allotted) <= log.sent
  {
  }

  /** wake_pid on one process: only a blocked one changes. */
  ghost function Wakened(s: Status): Status {
    match s
    case SendBlocked(q, value) => SendWoken(q, value)
    case RecvBlocked(q) => RecvWoken(q)
    case _ => s
  }

  /** The first process of a waiter list, if any, is woken. */
  ghost function WakeFirst(st: Statuses, ws: seq<int>): Statuses {
    if ws != [] && ws[0] in st then st[ws[0] := Wakened(st[ws[0]])] else st
  }

  // ----- frame -----

  ghost predicate Concerns(s: Status, q: int) {
    !s.Idle? && s.q == q
  }

  /** Status changes that do not concern q leave its invariant alone. */
  lemma OtherQueue(v: View, log: Log, st: Statuses, st': Statuses, q: int)
    requires QueueInv(v, log, st, q)
    requires forall p :: p in st && Concerns(st[p], q) ==> p in st' && st'[p] == st[p]
    requires forall p :: p in st' && Concerns(st'[p], q) ==> p in st && st'[p] == st[p]
    ensures QueueInv(v, log, st', q)
  {
    forall p
      ensures p in st && Concerns(st[p], q) <==> p in st' && Concerns(st'[p], q)
      ensures p in st && Concerns(st[p], q) ==> st'[p] == st[p]
    {
    }
    forall p
      ensures p in Woken(st, q) <==> p in Woken(st', q)
    {
    }
    assert Woken(st', q) == Woken(st, q);
  }

  // ----- SEND -----

  ghost predicate MaySend(st: Statuses, pid: int, q: int, value: int) {
    pid in st && (st[pid] == Idle || st[pid] == SendWoken(q, value))
  }

  /** Statuses after a send that went through: the sender goes on, a waiting receiver is woken. */
  ghost function SentStatus(st: Statuses, v: View, pid: int): Statuses {
    WakeFirst(st, v.recvWaiters)[pid := Idle]
  }

  ghost function SentLog(log: Log, v: View, m: Message): Log {
    log.(sent := log.sent + [m],
         allotted := if v.recvWaiters != [] then log.allotted + [Grant(v.recvWaiters[0], m)] else log.allotted)
  }

  ghost function SentView(v: View, m: Message): View {
    var w := SendTo(v, m).0;
    w.(recvWaiters := Tail(w.recvWaiters))
  }

  /** With at most 128 processes the grant list has room for one more waiting receiver. */
  lemma RoomForGrant(v: View, st: Statuses, q: int, pid: int)
    requires Registered(v, st, q) && |st| <= WAITQ_CAPACITY && pid in st && st[pid] != RecvWoken(q)
    ensures |v.grants| < WAITQ_CAPACITY
  {
    DistinctBound(Pids(v.grants), st.Keys - {pid});
  }

  lemma RoomToWait(ws: seq<int>, st: Statuses, pid: int)
    requires NoDuplicates(ws) && |st| <= WAITQ_CAPACITY && pid in st && pid !in ws
    requires forall p :: p in ws ==> p in st
    ensures Join(ws, pid) == ws + [pid]
  {
    forall i | 0 <= i < |ws|
      ensures ws[i] in st.Keys - {pid}
    {
      var x := ws[i];
      assert x in ws && x in st && x != pid;
    }
    DistinctBound(ws, st.Keys - {pid});
  }

  lemma SendFifo(v: View, log: Log, m: Message)
    requires Fifo(v, log) && SendTo(v, m).1 == Ok
    ensures Fifo(SentView(v, m), SentLog(log, v, m))
  {
    var log' := SentLog(log, v, m);
    if v.recvWaiters != [] {
      assert Messages(log'.allotted) == Messages(log.allotted) + [m];
    } else {
      assert Messages(log.allotted) + (v.ring + [m]) == Messages(log.allotted) + v.ring + [m];
    }
  }

  lemma SendRegistered(v: View, st: Statuses, pid: int, q: int, value: int)
    requires Registered(v, st, q) && MaySend(st, pid, q, value) && SendTo(v, Message(pid, value)).1 == Ok
    ensures Registered(SentView(v, Message(pid, value)), SentStatus(st, v, pid), q)
  {
    var m := Message(pid, value);
    var v' := SentView(v, m);
    if v.recvWaiters != [] {
      var r := v.recvWaiters[0];
      assert r in v.recvWaiters;
      assert r !in Pids(v.grants);
      assert Pids(v'.grants) == Pids(v.grants) + [r];
      WithoutMembers(v.recvWaiters, 0);
      assert Without(v.recvWaiters, 0) == v.recvWaiters[1..];
    }
  }

  /** A send that goes through keeps the queue's invariant. */
  lemma SendOk(v: View, log: Log, st: Statuses, pid: int, q: int, value: int)
    requires QueueInv(v, log, st, q) && MaySend(st, pid, q, value)
    requires SendTo(v, Message(pid, value)).1 == Ok
    ensures var m := Message(pid, value);
            QueueInv(SentView(v, m), SentLog(log, v, m), SentStatus(st, v, pid), q)
  {
    var m := Message(pid, value);
    SendFifo(v, log, m);
    SendRegistered(v, st, pid, q, value);
    assert v.recvWaiters != [] ==> v.recvWaiters[0] in v.recvWaiters;
    assert Woken(SentStatus(st, v, pid), q) == Woken(st, q) - {pid};
  }

  /** A send that blocks: the ring is full, and the sender is registered. */
  lemma SendBlocks(v: View, log: Log, st: Statuses, pid: int, q: int, value: int)
    requires QueueInv(v, log, st, q) && MaySend(st, pid, q, value) && |st| <= WAITQ_CAPACITY
    requires SendTo(v, Message(pid, value)).1 == WouldBlock
    ensures QueueInv(v.(sendWaiters := Join(v.sendWaiters, pid)), log, st[pid := SendBlocked(q, value)], q)
  {
    assert pid !in v.sendWaiters;
    RoomToWait(v.sendWaiters, st, pid);
  }

  // ----- RECV -----

  ghost predicate MayRecv(st: Statuses, pid: int, q: int) {
    pid in st && (st[pid] == Idle || st[pid] == RecvWoken(q))
  }

  /** Statuses after a receive that went through: the receiver goes on, a waiting sender is woken. */
  ghost function ReceivedStatus(st: Statuses, v: View, pid: int): Statuses {
    WakeFirst(st, v.sendWaiters)[pid := Idle]
  }

  ghost function ReceivedLog(log: Log, v: View, pid: int): Log {
    var g := Grant(pid, RecvFrom(v, pid).2);
    log.(delivered := log.delivered + [g],
         allotted := if GrantIndex(v.grants, pid) < |v.grants| then log.allotted else log.allotted + [g])
  }

  ghost function ReceivedView(v: View, pid: int): View {
    var w := RecvFrom(v, pid).0;
    w.(sendWaiters := Tail(w.sendWaiters))
  }

  lemma HasGrant(v: View, st: Statuses, q: int, pid: int)
    requires Registered(v, st, q)
    ensures GrantIndex(v.grants, pid) < |v.grants| <==> pid in st && st[pid] == RecvWoken(q)
  {
    var i := GrantIndex(v.grants, pid);
    if i < |v.grants| {
      assert Pids(v.grants)[i] == pid;
    }
  }

  lemma MultisetWithout<T>(s: seq<T>, i: nat)
    requires i < |s|
    ensures multiset(s) == multiset(Without(s, i)) + multiset{s[i]}
  {
    assert s == s[..i] + [s[i]] + s[i + 1..];
  }

  lemma RecvFifo(v: View, log: Log, st: Statuses, q: int, pid: int)
    requires Fifo(v, log) && Registered(v, st, q) && MayRecv(st, pid, q) && RecvFrom(v, pid).1 == Ok
    ensures Fifo(ReceivedView(v, pid), ReceivedLog(log, v, pid))
  {
    var i := GrantIndex(v.grants, pid);
    var v', log' := ReceivedView(v, pid), ReceivedLog(log, v, pid);
    HasGrant(v, st, q, pid);
    if i < |v.grants| {
      MultisetWithout(v.grants, i);
      assert v.grants[i] == Grant(pid, v.grants[i].msg);
      if v'.recvWaiters != [] {
        assert v.recvWaiters != [];
      }
    } else {
      assert Messages(log'.allotted) == Messages(log.allotted) + [v.ring[0]];
      assert v.ring == [v.ring[0]] + v.ring[1..];
    }
  }

  lemma RecvLists(v: View, st: Statuses, q: int, pid: int)
    requires Registered(v, st, q) && MayRecv(st, pid, q) && RecvFrom(v, pid).1 == Ok
    ensures var i, v' := GrantIndex(v.grants, pid), ReceivedView(v, pid);
            && v'.recvWaiters == v.recvWaiters && v'.sendWaiters == Tail(v.sendWaiters)
            && Pids(v'.grants) == if i < |v.grants| then Without(Pids(v.grants), i) else Pids(v.grants)
  {
    assert pid !in v.recvWaiters && WaiterIndex(v.recvWaiters, pid) == |v.recvWaiters|;
  }

  lemma RecvSenders(v: View, st: Statuses, q: int, pid: int)
    requires Registered(v, st, q) && MayRecv(st, pid, q)
    ensures var st' := ReceivedStatus(st, v, pid);
            && NoDuplicates(Tail(v.sendWaiters))
            && (forall p :: p in Tail(v.sendWaiters) <==> p in st' && st'[p].SendBlocked? && st'[p].q == q)
            && (forall p :: p in v.recvWaiters <==> p in st' && st'[p] == RecvBlocked(q))
  {
    if v.sendWaiters != [] {
      assert v.sendWaiters[0] in v.sendWaiters;
      WithoutMembers(v.sendWaiters, 0);
      assert Without(v.sendWaiters, 0) == v.sendWaiters[1..];
    }
  }

  lemma RecvGrants(v: View, st: Statuses, q: int, pid: int)
    requires Registered(v, st, q) && MayRecv(st, pid, q)
    ensures var i, st' := GrantIndex(v.grants, pid), ReceivedStatus(st, v, pid);
            var ps := if i < |v.grants| then Without(Pids(v.grants), i) else Pids(v.grants);
            NoDuplicates(ps) && (forall p :: p in ps <==> p in st' && st'[p] == RecvWoken(q))
  {
    var i := GrantIndex(v.grants, pid);
    HasGrant(v, st, q, pid);
    if i < |v.grants| {
      WithoutMembers(Pids(v.grants), i);
    }
    if v.sendWaiters != [] {
      assert v.sendWaiters[0] in v.sendWaiters;
    }
  }

  lemma RecvRegistered(v: View, st: Statuses, q: int, pid: int)
    requires Registered(v, st, q) && MayRecv(st, pid, q) && RecvFrom(v, pid).1 == Ok
    ensures Registered(ReceivedView(v, pid), ReceivedStatus(st, v, pid), q)
  {
    hide ReceivedView, ReceivedStatus, RecvFrom, Without, Pids, GrantIndex, Tail, NoDuplicates;
    RecvLists(v, st, q, pid);
    RecvSenders(v, st, q, pid);
    RecvGrants(v, st, q, pid);
  }

  lemma RecvCovered(v: View, st: Statuses, q: int, pid: int)
    requires Registered(v, st, q) && Covered(v, st, q) && MayRecv(st, pid, q) && RecvFrom(v, pid).1 == Ok
    ensures Covered(ReceivedView(v, pid), ReceivedStatus(st, v, pid), q)
  {
    if v.sendWaiters != [] {
      var w := v.sendWaiters[0];
      assert w in v.sendWaiters;
      assert Woken(ReceivedStatus(st, v, pid), q) == Woken(st, q) + {w};
    }
  }

  /** A receive that goes through keeps the queue's invariant. */
  lemma RecvOk(v: View, log: Log, st: Statuses, q: int, pid: int)
    requires QueueInv(v, log, st, q) && MayRecv(st, pid, q) && RecvFrom(v, pid).1 == Ok
    ensures QueueInv(ReceivedView(v, pid), ReceivedLog(log, v, pid), ReceivedStatus(st, v, pid), q)
  {
    RecvFifo(v, log, st, q, pid);
    RecvRegistered(v, st, q, pid);
    RecvCovered(v, st, q, pid);
  }

  /** A receive that blocks: the ring is empty, and a woken receiver never blocks again. */
  lemma RecvBlocks(v: View, log: Log, st: Statuses, q: int, pid: int)
    requires QueueInv(v, log, st, q) && MayRecv(st, pid, q) && |st| <= WAITQ_CAPACITY
    requires RecvFrom(v, pid).1 == WouldBlock
    ensures st[pid] == Idle && v.ring == []
    ensures QueueInv(v.(recvWaiters := Join(v.recvWaiters, pid)), log, st[pid := RecvBlocked(q)], q)
  {
    HasGrant(v, st, q, pid);
    assert pid !in v.recvWaiters;
    RoomToWait(v.recvWaiters, st, pid);
    assert Woken(st[pid := RecvBlocked(q)], q) == Woken(st, q);
  }

  // ----- the same, seen from any queue x -----

  /** A SEND never meets a full grant list. */
  lemma SendNeverFails(v: View, log: Log, st: Statuses, pid: int, q: int, value: int)
    requires QueueInv(v, log, st, q) && MaySend(st, pid, q, value) && |st| <= WAITQ_CAPACITY
    ensures SendTo(v, Message(pid, value)).1 != Error
    ensures SendTo(v, Message(pid, value)).1 == WouldBlock ==> SendTo(v, Message(pid, value)).0 == v
  {
    RoomForGrant(v, st, q, pid);
  }

  lemma SendLeaves(v: View, log: Log, st: Statuses, pid: int, q: int, value: int, x: int)
    requires QueueInv(v, log, st, x) && MaySend(st, pid, q, value)
    requires x == q ==> v.sendWaiters == []
    ensures QueueInv(v, log, st - {pid}, x)
  {
    if x != q {
      OtherQueue(v, log, st, st - {pid}, x);
    }
  }

  lemma SendBlocksAt(v: View, log: Log, st: Statuses, pid: int, q: int, value: int, x: int)
    requires QueueInv(v, log, st, x) && MaySend(st, pid, q, value) && |st| <= WAITQ_CAPACITY
    requires x == q ==> SendTo(v, Message(pid, value)).1 == WouldBlock
    ensures QueueInv(if x == q then v.(sendWaiters := Join(v.sendWaiters, pid)) else v, log,
                     st[pid := SendBlocked(q, value)], x)
  {
    if x == q {
      SendBlocks(v, log, st, pid, q, value);
    } else {
      OtherQueue(v, log, st, st[pid := SendBlocked(q, value)], x);
    }
  }

  lemma FirstReceiver(v: View, log: Log, st: Statuses, q: int)
    requires QueueInv(v, log, st, q)
    ensures v.recvWaiters != [] ==> v.recvWaiters[0] in st && st[v.recvWaiters[0]] == RecvBlocked(q)
  {
    if v.recvWaiters != [] {
      var w := v.recvWaiters[0];
      assert w in v.recvWaiters;
    }
  }

  lemma FirstSender(v: View, log: Log, st: Statuses, q: int)
    requires QueueInv(v, log, st, q)
    ensures v.sendWaiters != [] ==>
              v.sendWaiters[0] in st && st[v.sendWaiters[0]].SendBlocked? && st[v.sendWaiters[0]].q == q
  {
    if v.sendWaiters != [] {
      var w := v.sendWaiters[0];
      assert w in v.sendWaiters;
    }
  }

  lemma RecvNeverFails(v: View, pid: int)
    ensures RecvFrom(v, pid).1 != Error
    ensures RecvFrom(v, pid).1 == WouldBlock ==> RecvFrom(v, pid).0 == v
    ensures RecvFrom(v, pid).0.sendWaiters == v.sendWaiters
  {
  }

  /** A woken receiver finds the message granted to it. */
  lemma CollectsGrant(v: View, log: Log, st: Statuses, q: int, pid: int)
    requires QueueInv(v, log, st, q) && pid in st && st[pid] == RecvWoken(q)
    ensures RecvFrom(v, pid).1 == Ok && Grant(pid, RecvFrom(v, pid).2) in v.grants
  {
    HasGrant(v, st, q, pid);
    var i := GrantIndex(v.grants, pid);
    assert v.grants[i] == Grant(pid, v.grants[i].msg);
  }

  lemma RecvLeaves(v: View, log: Log, st: Statuses, pid: int, q: int, x: int)
    requires QueueInv(v, log, st, x) && MayRecv(st, pid, q)
    requires x == q ==> v.grants == []
    ensures QueueInv(v, log, st - {pid}, x)
  {
    assert x == q ==> Pids(v.grants) == [];
    OtherQueue(v, log, st, st - {pid}, x);
  }

  lemma RecvBlocksAt(v: View, log: Log, st: Statuses, pid: int, q: int, x: int)
    requires QueueInv(v, log, st, x) && MayRecv(st, pid, q) && |st| <= WAITQ_CAPACITY
    requires x == q ==> RecvFrom(v, pid).1 == WouldBlock
    requires st[pid] == Idle
    ensures QueueInv(if x == q then v.(recvWaiters := Join(v.recvWaiters, pid)) else v, log,
                     st[pid := RecvBlocked(q)], x)
  {
    if x == q {
      RecvBlocks(v, log, st, q, pid);
    } else {
      OtherQueue(v, log, st, st[pid := RecvBlocked(q)], x);
    }
  }

  lemma ReceivedIs(v: View, log: Log, st: Statuses, pid: int, q: int, st': Statuses)
    requires QueueInv(v, log, st, q) && MayRecv(st, pid, q) && forall p :: p in st ==> 0 <= p
    requires var w := if v.sendWaiters == [] then -1 else v.sendWaiters[0];
             var st1 := if 0 <= w && w in st then st[w := Wakened(st[w])] else st;
             st' == st1[pid := Idle]
    ensures st' == ReceivedStatus(st, v, pid) && st'.Keys == st.Keys
  {
    FirstSender(v, log, st, q);
  }

  lemma RecvOkAt(v: View, log: Log, st: Statuses, pid: int, q: int, vq: View, x: int)
    requires QueueInv(v, log, st, x) && MayRecv(st, pid, q)
    requires x == q ==> v == vq && RecvFrom(v, pid).1 == Ok
    requires vq.sendWaiters != [] ==>
               vq.sendWaiters[0] in st && st[vq.sendWaiters[0]].SendBlocked? && st[vq.sendWaiters[0]].q == q
    ensures QueueInv(if x == q then ReceivedView(v, pid) else v, if x == q then ReceivedLog(log, v, pid) else log,
                     ReceivedStatus(st, vq, pid), x)
  {
    if x == q {
      RecvOk(v, log, st, q, pid);
    } else {
      OtherQueue(v, log, st, ReceivedStatus(st, vq, pid), x);
    }
  }

  /** Waking the receiver popped from the list, if any, is waking the first of the list. */
  lemma SentIs(v: View, log: Log, st: Statuses, pid: int, q: int, value: int, st': Statuses)
    requires QueueInv(v, log, st, q) && MaySend(st, pid, q, value) && forall p :: p in st ==> 0 <= p
    requires var w := if v.recvWaiters == [] then -1 else v.recvWaiters[0];
             var st1 := if 0 <= w && w in st then st[w := Wakened(st[w])] else st;
             st' == st1[pid := Idle]
    ensures st' == SentStatus(st, v, pid) && st'.Keys == st.Keys
  {
    if v.recvWaiters != [] {
      assert v.recvWaiters[0] in v.recvWaiters;
    }
  }

  lemma SendOkAt(v: View, log: Log, st: Statuses, pid: int, q: int, value: int, vq: View, x: int)
    requires QueueInv(v, log, st, x) && MaySend(st, pid, q, value)
    requires x == q ==> v == vq && SendTo(v, Message(pid, value)).1 == Ok
    requires vq.recvWaiters != [] ==> vq.recvWaiters[0] in st && st[vq.recvWaiters[0]] == RecvBlocked(q)
    ensures var m := Message(pid, value);
            QueueInv(if x == q then SentView(v, m) else v, if x == q then SentLog(log, v, m) else log,
                     SentStatus(st, vq, pid), x)
  {
    if x == q {
      SendOk(v, log, st, pid, q, value);
    } else {
      OtherQueue(v, log, st, SentStatus(st, vq, pid), x);
    }
  }

  class System {
    const ipc: Ipc
    var status: Statuses
    ghost var logs: map<int, Log>

    ghost function LogOf(q: int): Log
      reads this
    {
      if q in logs then logs[q] else Log([], [], [])
    }

    ghost predicate Valid()
      reads this, ipc
    {
      && ipc.Valid()
      && |status| <= WAITQ_CAPACITY
      && (forall p :: p in status ==> 0 <= p)
      && (forall q :: QueueInv(ipc.Get(q), LogOf(q), status, q))
    }

    constructor ()
      ensures Valid() && status == map[] && logs == map[]
      ensures fresh(ipc)
    {
      ipc := new Ipc();
      status := map[];
      logs := map[];
      new;
      forall q
        ensures QueueInv(ipc.Get(q), LogOf(q), status, q)
      {
        assert Messages([]) == [];
        assert Woken(map[], q) == {};
      }
    }

    /** A process enters the system. */
    method Spawn(pid: int)
      requires Valid() && pid !in status && 0 <= pid && |status| < WAITQ_CAPACITY
      modifies `status
      ensures Valid() && status == old(status)[pid := Idle] && logs == old(logs)
    {
      status := status[pid := Idle];
      forall q
        ensures QueueInv(ipc.Get(q), LogOf(q), status, q)
      {
        OtherQueue(ipc.Get(q), LogOf(q), old(status), status, q);
      }
    }

    /** A process that waits for nothing leaves. */
    method Exit(pid: int)
      requires Valid() && pid in status && status[pid] == Idle
      modifies `status
      ensures Valid() && status == old(status) - {pid} && logs == old(logs)
    {
      status := status - {pid};
      assert status.Keys < old(status).Keys;
      forall q
        ensures QueueInv(ipc.Get(q), LogOf(q), status, q)
      {
        OtherQueue(ipc.Get(q), LogOf(q), old(status), status, q);
      }
    }

    /** wake_pid: a blocked process becomes ready, to execute its instruction again. */
    method Wake(pid: int)
      modifies `status
      ensures status == if pid in old(status) then old(status)[pid := Wakened(old(status)[pid])] else old(status)
    {
      if pid in status {
        match status[pid] {
          case SendBlocked(q, value) => status := status[pid := SendWoken(q, value)];
          case RecvBlocked(q) => status := status[pid := RecvWoken(q)];
          case _ =>
        }
      }
      assert pid in status ==> old(status)[pid := old(status)[pid]] == old(status);
    }

    /** Registers a sender that found the ring full. */
    method ParkSender(pid: int, q: int, value: int)
      requires Valid() && MaySend(status, pid, q, value) && q in ipc.queues
      requires SendTo(ipc.Get(q), Message(pid, value)).1 == WouldBlock
      modifies `status, ipc
      ensures Valid() && status == old(status)[pid := SendBlocked(q, value)]
    {
      hide QueueInv, SendTo, Ipc.Get, QueueOk;
      ghost var st := status;
      ipc.WaitSender(q, pid);
      status := status[pid := SendBlocked(q, value)];
      assert status.Keys == st.Keys;
      forall x
        ensures QueueInv(ipc.Get(x), LogOf(x), status, x)
      {
        SendBlocksAt(old(ipc.Get(x)), LogOf(x), st, pid, q, value, x);
      }
    }

    /** Every queue but q is in order, and q was when it looked like v. */
    ghost predicate AllBut(q: int, v: View)
      reads this, ipc
    {
      && ipc.Valid() && |status| <= WAITQ_CAPACITY && (forall p :: p in status ==> 0 <= p)
      && (forall x :: QueueInv(if x == q then v else ipc.Get(x), LogOf(x), status, x))
    }

    /** The message is placed; wakes a receiver that was waiting for it. */
    method FinishSend(pid: int, q: int, value: int, ghost v: View)
      requires AllBut(q, v) && MaySend(status, pid, q, value) && q in ipc.queues
      requires (ipc.Get(q), Ok) == SendTo(v, Message(pid, value))
      modifies this, ipc
      ensures Valid() && status == SentStatus(old(status), v, pid)
      ensures logs == old(logs)[q := SentLog(old(LogOf(q)), v, Message(pid, value))]
    {
      hide QueueInv, SentStatus, Ipc.Get, QueueOk, SentLog;
      ghost var log, st := LogOf(q), status;
      ghost var m := Message(pid, value);
      FirstReceiver(v, log, st, q);
      var wake := ipc.PopReceiver(q);
      if 0 <= wake {
        Wake(wake);
      }
      status := status[pid := Idle];
      SentIs(v, log, st, pid, q, value, status);
      logs := logs[q := SentLog(log, v, m)];
      forall x
        ensures QueueInv(ipc.Get(x), LogOf(x), status, x)
      {
        SendOkAt(if x == q then v else old(ipc.Get(x)), old(LogOf(x)), st, pid, q, value, v, x);
      }
    }

    /** The SEND instruction. It fails only when all queues are in use; then the process exits. */
    method Send(pid: int, q: int, value: int) returns (r: Result)
      requires Valid() && MaySend(status, pid, q, value)
      modifies this, ipc
      ensures Valid()
      ensures r == Error <==> q !in old(ipc.queues) && MAX_QUEUES <= |old(ipc.queues)|
      ensures r == Error ==> status == old(status) - {pid} && logs == old(logs)
      ensures r == WouldBlock ==> status == old(status)[pid := SendBlocked(q, value)] && logs == old(logs)
      ensures r == Ok ==> status == SentStatus(old(status), old(ipc.Get(q)), pid)
      ensures r == Ok ==> logs == old(logs)[q := SentLog(old(LogOf(q)), old(ipc.Get(q)), Message(pid, value))]
    {
      hide QueueInv, SendTo, SentStatus, QueueOk, SentLog;
      ghost var v, st := ipc.Get(q), status;
      SendNeverFails(v, LogOf(q), st, pid, q, value);
      r := ipc.Send(q, pid, value);
      if r == Error {
        status := status - {pid};
        assert status.Keys < st.Keys;
        forall x
          ensures QueueInv(ipc.Get(x), LogOf(x), status, x)
        {
          SendLeaves(old(ipc.Get(x)), LogOf(x), st, pid, q, value, x);
        }
      } else if r == WouldBlock {
        assert ipc.Get(q) == v;
        ParkSender(pid, q, value);
      } else {
        FinishSend(pid, q, value, v);
      }
    }

    /** Registers a receiver that found nothing. */
    method ParkReceiver(pid: int, q: int)
      requires Valid() && MayRecv(status, pid, q) && q in ipc.queues && RecvFrom(ipc.Get(q), pid).1 == WouldBlock
      modifies `status, ipc
      ensures Valid() && status == old(status)[pid := RecvBlocked(q)] && old(status)[pid] == Idle
    {
      hide QueueInv, RecvFrom, Ipc.Get, QueueOk;
      ghost var st := status;
      RecvBlocks(ipc.Get(q), LogOf(q), st, q, pid);
      ipc.WaitReceiver(q, pid);
      status := status[pid := RecvBlocked(q)];
      assert status.Keys == st.Keys;
      forall x
        ensures QueueInv(ipc.Get(x), LogOf(x), status, x)
      {
        RecvBlocksAt(old(ipc.Get(x)), LogOf(x), st, pid, q, x);
      }
    }

    /** The message is taken; wakes a sender that was waiting for space. */
    method FinishRecv(pid: int, q: int, ghost v: View)
      requires AllBut(q, v) && MayRecv(status, pid, q) && q in ipc.queues
      requires ipc.Get(q) == RecvFrom(v, pid).0 && RecvFrom(v, pid).1 == Ok
      modifies this, ipc
      ensures Valid() && status == ReceivedStatus(old(status), v, pid)
      ensures logs == old(logs)[q := ReceivedLog(old(LogOf(q)), v, pid)]
    {
      hide QueueInv, RecvFrom, ReceivedStatus, Ipc.Get, QueueOk, ReceivedLog;
      ghost var log, st := LogOf(q), status;
      FirstSender(v, log, st, q);
      RecvNeverFails(v, pid);
      var wake := ipc.PopSender(q);
      if 0 <= wake {
        Wake(wake);
      }
      status := status[pid := Idle];
      ReceivedIs(v, log, st, pid, q, status);
      logs := logs[q := ReceivedLog(log, v, pid)];
      forall x
        ensures QueueInv(ipc.Get(x), LogOf(x), status, x)
      {
        RecvOkAt(if x == q then v else old(ipc.Get(x)), old(LogOf(x)), st, pid, q, v, x);
      }
    }

    /** The RECV instruction. A message handed over was assigned to this receiver, now or before it was woken. */
    method Recv(pid: int, q: int) returns (r: Result, msg: Message)
      requires Valid() && MayRecv(status, pid, q)
      modifies this, ipc
      ensures Valid()
      ensures r == Error <==> q !in old(ipc.queues) && MAX_QUEUES <= |old(ipc.queues)|
      ensures r == Error ==> status == old(status) - {pid} && logs == old(logs)
      ensures r == WouldBlock ==> status == old(status)[pid := RecvBlocked(q)] && logs == old(logs)
      ensures r == Ok ==> status == ReceivedStatus(old(status), old(ipc.Get(q)), pid)
      ensures r == Ok ==> logs == old(logs)[q := ReceivedLog(old(LogOf(q)), old(ipc.Get(q)), pid)]
      ensures r == Ok ==> LogOf(q).delivered == old(LogOf(q)).delivered + [Grant(pid, msg)]
      ensures r == Ok && old(status)[pid] == RecvWoken(q) ==> Grant(pid, msg) in old(ipc.Get(q)).grants
      ensures old(status)[pid] == RecvWoken(q) && q in old(ipc.queues) ==> r == Ok
    {
      hide QueueInv, ReceivedStatus, QueueOk;
      ghost var v, st := ipc.Get(q), status;
      RecvNeverFails(v, pid);
      if st[pid] == RecvWoken(q) {
        CollectsGrant(v, LogOf(q), st, q, pid);
      }
      r, msg := ipc.Recv(q, pid);
      if r == Error {
        status := status - {pid};
        assert status.Keys < st.Keys;
        forall x
          ensures QueueInv(ipc.Get(x), LogOf(x), status, x)
        {
          RecvLeaves(old(ipc.Get(x)), LogOf(x), st, pid, q, x);
        }
      } else if r == WouldBlock {
        assert ipc.Get(q) == v;
        ParkReceiver(pid, q);
      } else {
        FinishRecv(pid, q, v);
      }
    }
  }
}
