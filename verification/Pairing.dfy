/** The runtime together with the message queues and semaphores that answer its calls. The runtime assumes that a call wakes
    only a process that waits for such a call and is not asleep until a set time; here that is proved of every run. */
module Pairing {
  import opened Sequences
  import opened Proc
  import opened Sched
  import opened TickSpec
  import opened TickFacts
  import opened TickWork
  import Q = Ipc
  import S = Sync

  // ----- calls -----

  datatype MemoryResult = Fine | Faults | Refused(code: int)

  /** The instructions that are answered from outside; those on memory are left to the memory. */
  datatype Op =
    | Send(q: int, value: int)
    | Recv(q: int)
    | SemWait(id: int)
    | SemPost(id: int)
    | Lock(id: int)
    | Unlock(id: int)
    | Memory(result: MemoryResult)

  datatype Kernel = Kernel(queues: map<int, Q.View>, sems: map<int, S.Sem>)

  ghost function QueueAt(k: Kernel, q: int): Q.View {
    if q in k.queues then k.queues[q] else Q.View([], [], [], [])
  }

  ghost function First(ws: seq<int>): int {
    if ws == [] then -1 else ws[0]
  }

  ghost function Sent(k: Kernel, pid: int, q: int, value: int): (Kernel, Outcome) {
    if q !in k.queues && Q.MAX_QUEUES <= |k.queues| then (k, Fails(3))
    else
      var (v, r) := Q.SendTo(QueueAt(k, q), Q.Message(pid, value));
      match r
      case Error => (k.(queues := k.queues[q := v]), Fails(3))
      case WouldBlock => (k.(queues := k.queues[q := v.(sendWaiters := Q.Join(v.sendWaiters, pid))]), Blocks)
      case Ok => (k.(queues := k.queues[q := v.(recvWaiters := Q.Tail(v.recvWaiters))]), Done(First(v.recvWaiters)))
  }

  ghost function Received(k: Kernel, pid: int, q: int): (Kernel, Outcome) {
    if q !in k.queues && Q.MAX_QUEUES <= |k.queues| then (k, Fails(3))
    else
      var (v, r, m) := Q.RecvFrom(QueueAt(k, q), pid);
      match r
      case Error => (k.(queues := k.queues[q := v]), Fails(3))
      case WouldBlock => (k.(queues := k.queues[q := v.(recvWaiters := Q.Join(v.recvWaiters, pid))]), Blocks)
      case Ok => (k.(queues := k.queues[q := v.(sendWaiters := Q.Tail(v.sendWaiters))]), Done(First(v.sendWaiters)))
  }

  /** A wait or a lock; one never used is made with a single token. */
  ghost function Acquired(k: Kernel, pid: int, id: int, mutex: bool): (Kernel, Outcome) {
    if id !in k.sems && S.MAX_SEMAPHORES <= |k.sems| then (k, Fails(4))
    else if mutex && id in k.sems && !k.sems[id].mutex then (k, Fails(4))
    else
      var (s, r) := S.WaitOn(if id in k.sems then k.sems[id] else S.NewSem(1, mutex), pid);
      (k.(sems := k.sems[id := s]), match r case Ok => Done(-1) case WouldBlock => Blocks case Error => Fails(4))
  }

  ghost function Posted(k: Kernel, pid: int, id: int): (Kernel, Outcome) {
    if id !in k.sems then (k, Fails(4))
    else
      var (s, r, wake) := S.PostTo(k.sems[id], pid);
      (k.(sems := k.sems[id := s]), if r == S.Error then Fails(4) else Done(wake))
  }

  /** What a call of process pid does to queues and semaphores, and what it comes to. */
  ghost function Performed(k: Kernel, pid: int, op: Op): (Kernel, Outcome) {
    match op
    case Send(q, value) => Sent(k, pid, q, value)
    case Recv(q) => Received(k, pid, q)
    case SemWait(id) => Acquired(k, pid, id, false)
    case Lock(id) => Acquired(k, pid, id, true)
    case SemPost(id) => Posted(k, pid, id)
    case Unlock(id) => Posted(k, pid, id)
    case Memory(m) => (k, match m case Fine => Done(-1) case Faults => Sleeps case Refused(code) => Fails(code))
  }

  // ----- waiting lists -----

  datatype Place = Sending(q: int) | Receiving(q: int) | At(id: int)

  ghost function ListAt(k: Kernel, a: Place): seq<int> {
    match a
    case Sending(q) => QueueAt(k, q).sendWaiters
    case Receiving(q) => QueueAt(k, q).recvWaiters
    case At(id) => if id in k.sems then k.sems[id].waiters else []
  }

  ghost predicate On(k: Kernel, a: Place, p: int) {
    p in ListAt(k, a)
  }

  /** Nobody waits twice. */
  ghost predicate Lists(k: Kernel) {
    && (forall a :: NoDuplicates(ListAt(k, a)))
    && forall a, b, p :: a != b && On(k, a, p) ==> !On(k, b, p)
  }

  /** BLOCKED with no time set, or ended. */
  ghost predicate Parked(c: Pcb) {
    c.state == Exited || (c.state == Blocked && c.wakeup == 0)
  }

  /** Whoever waits in a list is BLOCKED with no time set, or was ended while it waited. */
  ghost predicate Paired(k: Kernel, ps: seq<Pcb>) {
    Lists(k) && forall a, p :: On(k, a, p) ==> 0 <= p < |ps| && Parked(ps[p])
  }

  /** A call of pid may append it to a list, blocking it, or take the first off a list, waking it; else it leaves the list. */
  ghost predicate Moves(ws: seq<int>, ws': seq<int>, pid: int, o: Outcome) {
    || (ws' == ws && (o.Done? ==> o.wake < 0))
    || (ws' == ws + [pid] && o == Blocks)
    || (ws != [] && ws' == ws[1..] && o == Done(ws[0]))
  }

  /** Only the list at place a moves. */
  ghost predicate MovesAt(k: Kernel, k': Kernel, a: Place, pid: int, o: Outcome) {
    Moves(ListAt(k, a), ListAt(k', a), pid, o) && forall b :: b != a ==> ListAt(k', b) == ListAt(k, b)
  }

  ghost predicate Nowhere(k: Kernel, pid: int) {
    forall a :: !On(k, a, pid)
  }

  ghost predicate NoNegatives(k: Kernel) {
    forall a, p :: On(k, a, p) ==> 0 <= p
  }

  lemma SendMoves(k: Kernel, pid: int, q: int, value: int) returns (a: Place)
    requires Nowhere(k, pid)
    ensures MovesAt(k, Sent(k, pid, q, value).0, a, pid, Sent(k, pid, q, value).1)
  {
    a := if Sent(k, pid, q, value).1 == Blocks then Sending(q) else Receiving(q);
    assert !On(k, Sending(q), pid);
  }

  /** Receiving changes neither waiting list, if the receiver does not wait. */
  lemma RecvLists(v: Q.View, pid: int)
    requires pid !in v.recvWaiters
    ensures var v' := Q.RecvFrom(v, pid).0; v'.sendWaiters == v.sendWaiters && v'.recvWaiters == v.recvWaiters
  {
  }

  lemma RecvMoves(k: Kernel, pid: int, q: int) returns (a: Place)
    requires Nowhere(k, pid)
    ensures MovesAt(k, Received(k, pid, q).0, a, pid, Received(k, pid, q).1)
  {
    hide Q.RecvFrom;
    assert !On(k, Receiving(q), pid);
    RecvLists(QueueAt(k, q), pid);
    a := if Received(k, pid, q).1 == Blocks then Receiving(q) else Sending(q);
  }

  lemma WaitMoves(k: Kernel, pid: int, id: int, mutex: bool) returns (a: Place)
    requires Nowhere(k, pid)
    ensures MovesAt(k, Acquired(k, pid, id, mutex).0, a, pid, Acquired(k, pid, id, mutex).1)
  {
    a := At(id);
    assert !On(k, a, pid);
  }

  lemma PostMoves(k: Kernel, pid: int, id: int) returns (a: Place)
    requires NoNegatives(k)
    ensures MovesAt(k, Posted(k, pid, id).0, a, pid, Posted(k, pid, id).1)
  {
    a := At(id);
    assert ListAt(k, a) != [] ==> On(k, a, ListAt(k, a)[0]);
  }

  lemma PerformedMoves(k: Kernel, pid: int, op: Op) returns (a: Place)
    requires Nowhere(k, pid) && NoNegatives(k)
    ensures MovesAt(k, Performed(k, pid, op).0, a, pid, Performed(k, pid, op).1)
  {
    hide Sent, Received, Acquired, Posted, MovesAt;
    match op
    case Send(q, value) => a := SendMoves(k, pid, q, value);
    case Recv(q) => a := RecvMoves(k, pid, q);
    case SemWait(id) => a := WaitMoves(k, pid, id, false);
    case Lock(id) => a := WaitMoves(k, pid, id, true);
    case SemPost(id) => a := PostMoves(k, pid, id);
    case Unlock(id) => a := PostMoves(k, pid, id);
    case Memory(m) =>
      a := At(0);
      Unmoved(k, pid, Performed(k, pid, op).1);
  }

  lemma Unmoved(k: Kernel, pid: int, o: Outcome)
    requires o.Done? ==> o.wake < 0
    ensures MovesAt(k, k, At(0), pid, o)
  {
  }

  // ----- one call on both sides -----

  lemma MovedLists(k: Kernel, k': Kernel, a: Place, pid: int, o: Outcome)
    requires Lists(k) && Nowhere(k, pid) && MovesAt(k, k', a, pid, o)
    ensures Lists(k')
    ensures forall b, p :: On(k', b, p) ==> On(k, b, p) || (p == pid && o == Blocks && b == a)
    ensures o.Done? && 0 <= o.wake ==> On(k, a, o.wake) && Nowhere(k', o.wake)
  {
    hide ListAt;
    var ws, ws' := ListAt(k, a), ListAt(k', a);
    assert NoDuplicates(ws) && !On(k, a, pid);
    if o.Done? && 0 <= o.wake {
      assert ws' == Without(ws, 0) && ws[0] == o.wake;
      WithoutMembers(ws, 0);
      assert On(k, a, o.wake) && !On(k', a, o.wake);
    }
    assert NoDuplicates(ws');
    forall b, p | On(k', b, p)
      ensures On(k, b, p) || (p == pid && o == Blocks && b == a)
    {
    }
    forall b, c, p | b != c && On(k', b, p)
      ensures !On(k', c, p)
    {
      assert On(k, b, p) || p == pid;
    }
  }

  /** Every call keeps the runtime's promise and the pairing: it wakes at most somebody BLOCKED with no time set, who then
      waits nowhere; and whoever it blocks waits in one list. */
  lemma CallStep(w: World, k: Kernel, op: Op)
    requires Executing(w) && w.ps[w.current].state == Running && Paired(k, w.ps)
    ensures var (k', o) := Performed(k, w.current, op);
            Legal(o, w.ps) && Paired(k', Responded(w, o).ps)
  {
    hide ListAt, Lists, Performed, Appended;
    var (k', o) := Performed(k, w.current, op);
    assert Nowhere(k, w.current);
    var a := PerformedMoves(k, w.current, op);
    MovedLists(k, k', a, w.current, o);
    var r := Responded(w, o);
    forall b, p | On(k', b, p)
      ensures 0 <= p < |r.ps| && Parked(r.ps[p])
    {
      if On(k, b, p) {
        assert o.Done? && 0 <= o.wake ==> p != o.wake;
      }
    }
  }

  // ----- the rest of a pass -----

  /** READY or running. */
  ghost predicate Up(c: Pcb) {
    c.state == Ready || c.state == Running
  }

  /** Nobody ends, starts or stops waiting, and whoever is READY or running is one of them still. */
  ghost predicate Settled(c: Pcb, c': Pcb) {
    (c.state == Exited <==> c'.state == Exited) && (Parked(c) ==> Parked(c')) && (Up(c) ==> Up(c'))
  }

  /** Those who wait are left alone by everything else: waking by time, aging, boosting, dispatch and the running process. */
  lemma DispatchLeaves(w: World, pick: int, p: int)
    requires Good(w) && !Nobody(Prepared(w)) && (Prepared(w).current < 0 ==> MayRun(Prepared(w), pick)) && 0 <= p < |w.ps|
    ensures var d := Dispatched(w, pick); |d.ps| == |w.ps| && d.ss == w.ss && Settled(w.ps[p], d.ps[p])
  {
    PreparedLeaves(w, p);
    hide Good, Prepared, AtHead, Foremost, Nobody;
  }

  lemma PreparedLeaves(w: World, p: int)
    requires Good(w) && 0 <= p < |w.ps|
    ensures Prepared(w) == w.(ps := Prepared(w).ps, lines := Prepared(w).lines) && Settled(w.ps[p], Prepared(w).ps[p])
  {
    PreparedBlocks(w);
    hide Good, Prepared;
    assert Alike(WokeBlock(w.ps[p], w.tick), Prepared(w).ps[p]);
  }

  lemma ExecutionLeaves(w: World, a: Answer, p: int)
    requires Executing(w) && w.ps[w.current].state == Running && Next(w.ss[w.current]) != Calls
    requires 0 <= p < |w.ps| && p != w.current
    ensures var r := Executed(w, a);
            |r.ps| == |w.ps| && |r.ss| == |w.ss| && r.ss[p] == w.ss[p] && Settled(w.ps[p], r.ps[p])
  {
    hide Appended, GivesWay;
  }

  lemma IdleLeaves(w: World, p: int)
    requires Good(w) && Nobody(Prepared(w)) && 0 <= p < |w.ps|
    ensures |Prepared(w).blocked| == |Prepared(w).ps| == |w.ps|
    ensures var r := Idled(Prepared(w)); |r.ps| == |w.ps| && r.ss == w.ss && Settled(w.ps[p], r.ps[p])
  {
    PreparedLeaves(w, p);
    GoodPrepared(w);
    GoodSizes(Prepared(w));
    hide Good, Prepared, Nobody;
  }

  lemma RequestLeaves(w: World, e: Event, p: int)
    requires !e.Pass? && 0 <= p < |w.ps| && Parked(w.ps[p])
    ensures |w.ps| <= |Apply(w, e).ps| && Parked(Apply(w, e).ps[p])
  {
    hide LinedUpTo, Appended;
  }

  // ----- runs of both -----

  datatype Joint = Joint(world: World, kernel: Kernel)

  /** An event, and, should it be a pass that makes a call, what the call is. */
  datatype Move = Move(event: Event, op: Op)

  /** The pass makes a call. */
  ghost predicate MakesCall(w: World, e: Event) {
    e.Pass? && !Nobody(Prepared(w)) &&
    var d := Dispatched(w, e.pick);
    Executing(d) && Next(d.ss[d.current]).Calls?
  }

  ghost function JointApply(j: Joint, m: Move): Joint {
    Joint(Apply(j.world, m.event),
          if MakesCall(j.world, m.event) then Performed(j.kernel, Dispatched(j.world, m.event.pick).current, m.op).0
          else j.kernel)
  }

  /** The scheduler chooses as it must, and calls are answered by the kernel. Nothing is asked of the answers. */
  ghost predicate JointEnabled(j: Joint, m: Move) {
    m.event.Pass? ==>
      var v := Prepared(j.world);
      && (v.current < 0 && !Nobody(v) ==> MayRun(v, m.event.pick))
      && m.event.answer.outcome ==
         if MakesCall(j.world, m.event) then Performed(j.kernel, Dispatched(j.world, m.event.pick).current, m.op).1 else Done(-1)
  }

  ghost predicate JointInv(j: Joint) {
    Good(j.world) && Paired(j.kernel, j.world.ps)
  }

  lemma PassStep(j: Joint, m: Move)
    requires JointInv(j) && JointEnabled(j, m) && m.event.Pass? && !Nobody(Prepared(j.world))
    ensures Enabled(j.world, m.event) && Paired(JointApply(j, m).kernel, JointApply(j, m).world.ps)
  {
    hide Good, Prepared, Nobody, MayRun, Performed, Executed, Dispatched, Lists, ListAt;
    var w, k, pick, a := j.world, j.kernel, m.event.pick, m.event.answer;
    GoodDispatched(w, pick);
    var d := Dispatched(w, pick);
    var d' := d.(calls := d.calls + 1);
    CountedGood(d);
    GoodExecuting(d');
    forall b, p | On(k, b, p)
      ensures 0 <= p < |d.ps| && Parked(d.ps[p])
    {
      DispatchLeaves(w, pick, p);
    }
    if MakesCall(w, m.event) {
      CallStep(d', k, m.op);
      CallExecutes(d', a);
    } else {
      forall b, p | On(k, b, p)
        ensures 0 <= p < |Executed(d', a).ps| && Parked(Executed(d', a).ps[p])
      {
        ExecutionLeaves(d', a, p);
      }
    }
  }

  lemma CallExecutes(w: World, a: Answer)
    requires Executing(w) && Next(w.ss[w.current]).Calls?
    ensures Executed(w, a) == Responded(w, a.outcome)
  {
  }

  /** Runtime and kernel keep each other's promises: every answer is legal, and the pairing is kept. */
  lemma JointStep(j: Joint, m: Move)
    requires JointInv(j) && JointEnabled(j, m)
    ensures Enabled(j.world, m.event) && JointInv(JointApply(j, m))
  {
    var w, k, e := j.world, j.kernel, m.event;
    var r := JointApply(j, m);
    if e.Pass? && !Nobody(Prepared(w)) {
      hide Good, JointEnabled, Paired, Enabled, JointApply;
      PassStep(j, m);
      GoodApply(w, e);
      JointWorld(j, m);
    } else {
      hide Good, Prepared, Nobody, Lists, ListAt, Performed, Launched, Killed, WithPolicy;
      GoodApply(w, e);
      forall b, p | On(k, b, p)
        ensures 0 <= p < |r.world.ps| && Parked(r.world.ps[p])
      {
        if e.Pass? {
          IdleLeaves(w, p);
        } else {
          RequestLeaves(w, e, p);
        }
      }
    }
  }

  lemma JointWorld(j: Joint, m: Move)
    ensures JointApply(j, m).world == Apply(j.world, m.event)
  {
  }

  ghost function JointAfter(j: Joint, ms: seq<Move>): Joint {
    if ms == [] then j else JointApply(JointAfter(j, ms[..|ms| - 1]), ms[|ms| - 1])
  }

  ghost predicate JointPossible(j: Joint, ms: seq<Move>) {
    ms == [] || (JointPossible(j, ms[..|ms| - 1]) && JointEnabled(JointAfter(j, ms[..|ms| - 1]), ms[|ms| - 1]))
  }

  ghost function Events(ms: seq<Move>): (es: seq<Event>)
    ensures |es| == |ms| && forall i :: 0 <= i < |ms| ==> es[i] == ms[i].event
  {
    seq(|ms|, i requires 0 <= i < |ms| => ms[i].event)
  }

  /** Whatever the processes do with queues, semaphores and mutexes, every run of both together is a run of the runtime as
      specified, and nobody who waits for a call is asleep until a set time. */
  lemma {:induction false} JointRun(j: Joint, ms: seq<Move>)
    requires JointInv(j) && JointPossible(j, ms)
    ensures JointInv(JointAfter(j, ms))
    ensures Possible(j.world, Events(ms)) && After(j.world, Events(ms)) == JointAfter(j, ms).world
  {
    hide JointInv, JointEnabled, JointApply, Apply, Enabled;
    if ms == [] {
      assert Events(ms) == [];
    } else {
      var n := |ms| - 1;
      JointRun(j, ms[..n]);
      JointStep(JointAfter(j, ms[..n]), ms[n]);
      JointWorld(JointAfter(j, ms[..n]), ms[n]);
      assert Events(ms) == Events(ms[..n]) + [ms[n].event];
      OneMore(j.world, Events(ms[..n]), ms[n].event);
    }
  }

  lemma JointBegins()
    ensures JointInv(Joint(Begin(), Kernel(map[], map[])))
  {
    BeginGood();
  }

  // ----- the call carried out -----

  ghost function Views(ipc: Q.Ipc): (m: map<int, Q.View>)
    requires ipc.Valid()
    reads ipc
    ensures m.Keys == ipc.queues.Keys && |m| == |ipc.queues| && forall q :: q in m ==> m[q] == ipc.Get(q)
  {
    var m := map q | q in ipc.queues :: ipc.Get(q);
    assert m.Keys == ipc.queues.Keys;
    m
  }

  ghost function Shown(ipc: Q.Ipc, sync: S.Table): Kernel
    requires ipc.Valid()
    reads ipc, sync
  {
    Kernel(Views(ipc), sync.sems)
  }

  /** One queue has changed, perhaps by being opened. */
  ghost predicate OneQueue(m: map<int, Q.View>, m': map<int, Q.View>, q: int) {
    if q !in m && Q.MAX_QUEUES <= |m| then m' == m else q in m' && m' == m[q := m'[q]]
  }

  lemma QueueSet(m: map<int, Q.View>, m': map<int, Q.View>, q: int)
    requires m'.Keys == m.Keys + {q} && forall x :: x in m && x != q ==> m'[x] == m[x]
    ensures q in m' && m' == m[q := m'[q]]
  {
    assert q in m'.Keys;
  }

  lemma ThatQueue(m: map<int, Q.View>, m': map<int, Q.View>, q: int)
    requires m'.Keys == if q !in m && Q.MAX_QUEUES <= |m| then m.Keys else m.Keys + {q}
    requires forall x :: x in m && x != q ==> x in m' && m'[x] == m[x]
    ensures OneQueue(m, m', q)
  {
    if q in m || |m| < Q.MAX_QUEUES {
      QueueSet(m, m', q);
    }
  }

  /** The SEND case of execute_instruction. */
  method PerformSend(ipc: Q.Ipc, sync: S.Table, pid: int, q: int, value: int) returns (o: Outcome)
    requires ipc.Valid()
    modifies ipc
    ensures ipc.Valid() && (Shown(ipc, sync), o) == Sent(old(Shown(ipc, sync)), pid, q, value)
  {
    hide Q.SendTo, Q.QueueOk, Q.ViewOf, Views;
    ghost var m := Views(ipc);
    var r := ipc.Send(q, pid, value);
    ThatQueue(m, Views(ipc), q);
    if r == Q.Error {
      return Fails(3);
    }
    if r == Q.WouldBlock {
      ipc.WaitSender(q, pid);
      ThatQueue(m, Views(ipc), q);
      return Blocks;
    }
    var wake := ipc.PopReceiver(q);
    ThatQueue(m, Views(ipc), q);
    o := Done(wake);
  }

  /** The RECV case. */
  method PerformRecv(ipc: Q.Ipc, sync: S.Table, pid: int, q: int) returns (o: Outcome)
    requires ipc.Valid()
    modifies ipc
    ensures ipc.Valid() && (Shown(ipc, sync), o) == Received(old(Shown(ipc, sync)), pid, q)
  {
    hide Q.RecvFrom, Q.QueueOk, Q.ViewOf, Views;
    ghost var m := Views(ipc);
    var r, msg := ipc.Recv(q, pid);
    ThatQueue(m, Views(ipc), q);
    if r == Q.Error {
      return Fails(3);
    }
    if r == Q.WouldBlock {
      ipc.WaitReceiver(q, pid);
      ThatQueue(m, Views(ipc), q);
      return Blocks;
    }
    var wake := ipc.PopSender(q);
    ThatQueue(m, Views(ipc), q);
    o := Done(wake);
  }

  /** A call as execute_instruction carries it out on queues and semaphores. */
  method Perform(ipc: Q.Ipc, sync: S.Table, pid: int, op: Op) returns (o: Outcome)
    requires ipc.Valid() && sync.Valid()
    modifies ipc, sync
    ensures ipc.Valid() && sync.Valid() && (Shown(ipc, sync), o) == Performed(old(Shown(ipc, sync)), pid, op)
  {
    hide Sent, Received, Views, S.WaitOn, S.PostTo, Q.QueueOk;
    match op {
      case Send(q, value) =>
        o := PerformSend(ipc, sync, pid, q, value);
      case Recv(q) =>
        o := PerformRecv(ipc, sync, pid, q);
      case SemWait(id) =>
        var r := sync.Wait(id, pid);
        assert Views(ipc) == old(Views(ipc));
        o := if r == S.Ok then Done(-1) else if r == S.WouldBlock then Blocks else Fails(4);
      case Lock(id) =>
        var r := sync.Lock(id, pid);
        o := if r == S.Ok then Done(-1) else if r == S.WouldBlock then Blocks else Fails(4);
      case SemPost(id) =>
        var r, wake := sync.Post(id, pid);
        o := if r == S.Error then Fails(4) else Done(wake);
      case Unlock(id) =>
        var r, wake := sync.Post(id, pid);
        o := if r == S.Error then Fails(4) else Done(wake);
      case Memory(result) =>
        o := match result case Fine => Done(-1) case Faults => Sleeps case Refused(code) => Fails(code);
    }
  }
}
