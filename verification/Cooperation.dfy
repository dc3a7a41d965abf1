/** Runtime and message queues together keep the protocol of blocking SEND and RECV. What the protocol asks of its callers,
    that a blocked process does not call and a woken one makes its call again, the runtime is proved to provide. */
module Cooperation {
  import opened Sequences
  import opened Proc
  import opened Sched
  import opened Accounting
  import opened TickSpec
  import opened TickFacts
  import opened TickWork
  import opened Pairing
  import I = IpcProtocol
  import Q = Ipc

  /** Where every process stands with the queues, and the history of every queue. */
  datatype Notes = Notes(st: I.Statuses, logs: map<int, I.Log>)

  ghost function LogOf(n: Notes, q: int): I.Log {
    if q in n.logs then n.logs[q] else I.Log([], [], [])
  }

  /** The call that process pid makes at the given place of its program. */
  type Code = (int, nat) -> Op

  // ----- a call -----

  /** The notes after a call of pid that came to o. */
  ghost function Noted(n: Notes, k: Kernel, pid: int, op: Op, o: Outcome): Notes {
    if op.Send? && o == Blocks then n.(st := n.st[pid := I.SendBlocked(op.q, op.value)])
    else if op.Recv? && o == Blocks then n.(st := n.st[pid := I.RecvBlocked(op.q)])
    else if op.Send? && o.Done? then
      var v := QueueAt(k, op.q);
      Notes(I.SentStatus(n.st, v, pid), n.logs[op.q := I.SentLog(LogOf(n, op.q), v, Q.Message(pid, op.value))])
    else if op.Recv? && o.Done? then
      var v := QueueAt(k, op.q);
      Notes(I.ReceivedStatus(n.st, v, pid), n.logs[op.q := I.ReceivedLog(LogOf(n, op.q), v, pid)])
    else n
  }

  /** Every queue is in order. */
  ghost predicate Protocol(n: Notes, k: Kernel) {
    |n.st| <= Q.WAITQ_CAPACITY && forall q :: I.QueueInv(QueueAt(k, q), LogOf(n, q), n.st, q)
  }

  lemma SendKeeps(n: Notes, k: Kernel, pid: int, q: int, value: int)
    requires Protocol(n, k) && I.MaySend(n.st, pid, q, value)
    ensures var (k', o) := Sent(k, pid, q, value);
            Protocol(Noted(n, k, pid, Send(q, value), o), k') && (o.Fails? ==> k' == k)
  {
    hide I.QueueInv, Q.SendTo, I.SentLog;
    var v := QueueAt(k, q);
    var (k', o) := Sent(k, pid, q, value);
    var n' := Noted(n, k, pid, Send(q, value), o);
    I.SendNeverFails(v, LogOf(n, q), n.st, pid, q, value);
    I.FirstReceiver(v, LogOf(n, q), n.st, q);
    SendFirst(v, pid, value);
    assert n'.st.Keys == n.st.Keys;
    forall x
      ensures I.QueueInv(QueueAt(k', x), LogOf(n', x), n'.st, x)
    {
      if o == Blocks {
        I.SendBlocksAt(QueueAt(k, x), LogOf(n, x), n.st, pid, q, value, x);
      } else if o.Done? {
        I.SendOkAt(QueueAt(k, x), LogOf(n, x), n.st, pid, q, value, v, x);
      }
    }
  }

  /** Sending changes neither waiting list. */
  lemma SendFirst(v: Q.View, pid: int, value: int)
    ensures var v' := Q.SendTo(v, Q.Message(pid, value)).0;
            v'.recvWaiters == v.recvWaiters && v'.sendWaiters == v.sendWaiters
  {
  }

  lemma RecvKeeps(n: Notes, k: Kernel, pid: int, q: int)
    requires Protocol(n, k) && I.MayRecv(n.st, pid, q)
    ensures var (k', o) := Received(k, pid, q);
            Protocol(Noted(n, k, pid, Recv(q), o), k') && (o.Fails? ==> k' == k)
  {
    hide I.QueueInv, Q.RecvFrom, I.ReceivedLog;
    var v := QueueAt(k, q);
    var (k', o) := Received(k, pid, q);
    var n' := Noted(n, k, pid, Recv(q), o);
    I.RecvNeverFails(v, pid);
    I.FirstSender(v, LogOf(n, q), n.st, q);
    assert n'.st.Keys == n.st.Keys;
    if o == Blocks {
      I.RecvBlocks(v, LogOf(n, q), n.st, q, pid);
    }
    forall x
      ensures I.QueueInv(QueueAt(k', x), LogOf(n', x), n'.st, x)
    {
      if o == Blocks {
        I.RecvBlocksAt(QueueAt(k, x), LogOf(n, x), n.st, pid, q, x);
      } else if o.Done? {
        I.RecvOkAt(QueueAt(k, x), LogOf(n, x), n.st, pid, q, v, x);
      }
    }
  }

  lemma OthersKeep(n: Notes, k: Kernel, pid: int, op: Op)
    requires Protocol(n, k) && !op.Send? && !op.Recv?
    ensures var (k', o) := Performed(k, pid, op); Noted(n, k, pid, op, o) == n && Protocol(n, k')
  {
    var (k', o) := Performed(k, pid, op);
    assert forall x :: QueueAt(k', x) == QueueAt(k, x);
  }

  // ----- statuses and programs -----

  /** A process that is blocked on a queue or woken from it is about to make the call in question, unless it was ended; one
      that was woken is READY or running. */
  ghost predicate Fits(s: I.Status, c: Pcb, slot: Slot, op: Op) {
    || c.state == Exited || s.Idle?
    || (Next(slot).Calls? &&
        match s
        case Idle => true
        case SendBlocked(q, value) => op == Send(q, value)
        case SendWoken(q, value) => op == Send(q, value) && Up(c)
        case RecvBlocked(q) => op == Recv(q)
        case RecvWoken(q) => op == Recv(q) && Up(c))
  }

  /** Whoever is ended stays ended, and whoever is READY or running stays that or is ended. */
  ghost predicate StaysUp(c: Pcb, c': Pcb) {
    (c.state == Exited ==> c'.state == Exited) && (Up(c) ==> Up(c') || c'.state == Exited)
  }

  ghost predicate AllFit(st: I.Statuses, w: World, code: Code) {
    && |w.ps| == |w.ss| && (forall p :: p in st <==> 0 <= p < |w.ps|)
    && forall p :: 0 <= p < |w.ps| ==> Fits(st[p], w.ps[p], w.ss[p], code(p, w.ss[p].pc))
  }

  /** What a running process calls it may call. */
  lemma MayCall(n: Notes, k: Kernel, w: World, code: Code)
    requires Protocol(n, k) && AllFit(n.st, w, code) && Paired(k, w.ps) && Executing(w) && w.ps[w.current].state == Running
    ensures match code(w.current, w.ss[w.current].pc)
            case Send(q, value) => I.MaySend(n.st, w.current, q, value)
            case Recv(q) => I.MayRecv(n.st, w.current, q)
            case _ => Next(w.ss[w.current]).Calls? ==> n.st[w.current].Idle?
  {
    var p := w.current;
    var s := n.st[p];
    assert Fits(s, w.ps[p], w.ss[p], code(p, w.ss[p].pc));
    if s.SendBlocked? {
      assert I.QueueInv(QueueAt(k, s.q), LogOf(n, s.q), n.st, s.q);
      assert On(k, Sending(s.q), p);
    } else if s.RecvBlocked? {
      assert I.QueueInv(QueueAt(k, s.q), LogOf(n, s.q), n.st, s.q);
      assert On(k, Receiving(s.q), p);
    }
  }

  lemma SameFits(s: I.Status, c: Pcb, c': Pcb, slot: Slot, op: Op)
    requires Fits(s, c, slot, op) && StaysUp(c, c')
    ensures Fits(s, c', slot, op)
  {
  }

  /** Being woken leaves a process about to make the same call. */
  lemma WakenedFits(s: I.Status, c: Pcb, c': Pcb, slot: Slot, op: Op)
    requires Fits(s, c, slot, op) && (Up(c') || c'.state == Exited) && (c.state == Exited ==> c'.state == Exited)
    ensures Fits(I.Wakened(s), c', slot, op)
  {
  }

  /** Whoever a call wakes is READY afterwards, unless it was ended. */
  lemma WokenIsReady(w: World, k: Kernel, op: Op)
    requires Executing(w) && w.ps[w.current].state == Running && Paired(k, w.ps)
    ensures var o := Performed(k, w.current, op).1;
            o.Done? && 0 <= o.wake ==>
              && o.wake < |w.ps| && o.wake != w.current && Parked(w.ps[o.wake])
              && var r := Responded(w, o);
                 && |r.ps| == |w.ps|
                 && r.ps[o.wake].state == if w.ps[o.wake].state == Exited then Exited else Ready
  {
    hide ListAt, Lists, Performed, Appended;
    var (k', o) := Performed(k, w.current, op);
    assert Nowhere(k, w.current);
    var a := PerformedMoves(k, w.current, op);
    MovedLists(k, k', a, w.current, o);
  }

  /** What a call does to blocks and slots other than the caller's. */
  lemma RespondedOther(w: World, o: Outcome, p: int)
    requires Executing(w) && w.ps[w.current].state == Running && 0 <= p < |w.ps| && p != w.current
    ensures var r := Responded(w, o);
            |r.ps| == |w.ps| && |r.ss| == |w.ss| && r.ss[p] == w.ss[p] && StaysUp(w.ps[p], r.ps[p])
  {
    hide Appended;
  }

  lemma RespondedSelf(w: World, o: Outcome)
    requires Executing(w) && w.ps[w.current].state == Running
    ensures var r, p := Responded(w, o), w.current;
            && |r.ps| == |w.ps| && |r.ss| == |w.ss|
            && (o.Fails? <==> r.ps[p].state == Exited) && (!o.Done? ==> r.ss[p] == w.ss[p])
  {
    hide Appended;
  }

  /** The status of a process after a call: only the first waiter, whom the call wakes, and the caller change theirs. */
  lemma NotedStatus(n: Notes, k: Kernel, pid: int, op: Op, p: int)
    requires pid in n.st && p in n.st
    ensures var o := Performed(k, pid, op).1;
            var n' := Noted(n, k, pid, op, o);
            && n'.st.Keys == n.st.Keys && ((op.Send? || op.Recv?) ==> o != Sleeps)
            && (p != pid ==> n'.st[p] == n.st[p] || (n'.st[p] == I.Wakened(n.st[p]) && o == Done(p)))
            && (p == pid ==>
                  n'.st[p] == if op.Send? && o == Blocks then I.SendBlocked(op.q, op.value)
                              else if op.Recv? && o == Blocks then I.RecvBlocked(op.q)
                              else if (op.Send? || op.Recv?) && o.Done? then I.Idle else n.st[p])
  {
    if op.Send? {
      SendFirst(QueueAt(k, op.q), pid, op.value);
    } else if op.Recv? {
      I.RecvNeverFails(QueueAt(k, op.q), pid);
    }
  }

  /** After the call every status still fits. */
  lemma CallFits(n: Notes, k: Kernel, w: World, code: Code)
    requires Protocol(n, k) && AllFit(n.st, w, code) && Paired(k, w.ps)
    requires Executing(w) && w.ps[w.current].state == Running && Next(w.ss[w.current]).Calls?
    ensures var op := code(w.current, w.ss[w.current].pc);
            var (k', o) := Performed(k, w.current, op);
            AllFit(Noted(n, k, w.current, op, o).st, Responded(w, o), code)
  {
    hide Protocol, Paired, Performed, Responded, Noted, Fits;
    var pid := w.current;
    var op := code(pid, w.ss[pid].pc);
    var (k', o) := Performed(k, pid, op);
    var n', r := Noted(n, k, pid, op, o), Responded(w, o);
    MayCall(n, k, w, code);
    RespondedSelf(w, o);
    WokenIsReady(w, k, op);
    NotedStatus(n, k, pid, op, pid);
    forall p | 0 <= p < |r.ps|
      ensures Fits(n'.st[p], r.ps[p], r.ss[p], code(p, r.ss[p].pc))
    {
      NotedStatus(n, k, pid, op, p);
      if n'.st[p].Idle? {
        IdleFits(n'.st[p], r.ps[p], r.ss[p], code(p, r.ss[p].pc));
      } else if p == pid {
        CallerFits(n'.st[p], r.ps[p], w.ss[p], r.ss[p], op, o, n.st[p]);
      } else {
        RespondedOther(w, o, p);
        if n'.st[p] == n.st[p] {
          SameFits(n.st[p], w.ps[p], r.ps[p], w.ss[p], code(p, w.ss[p].pc));
        } else {
          WakenedFits(n.st[p], w.ps[p], r.ps[p], w.ss[p], code(p, w.ss[p].pc));
        }
      }
    }
  }

  /** The caller, if its call blocks it. */
  lemma CallerFits(s: I.Status, c': Pcb, slot: Slot, slot': Slot, op: Op, o: Outcome, before: I.Status)
    requires Next(slot).Calls? && (!o.Done? ==> slot' == slot) && (o.Fails? ==> c'.state == Exited)
    requires s == if op.Send? && o == Blocks then I.SendBlocked(op.q, op.value)
                  else if op.Recv? && o == Blocks then I.RecvBlocked(op.q)
                  else if (op.Send? || op.Recv?) && o.Done? then I.Idle else before
    requires (op.Send? || op.Recv?) || before.Idle?
    requires o != Sleeps || before.Idle?
    ensures Fits(s, c', slot', op)
    ensures !s.Idle? ==> !o.Done?
  {
  }

  lemma IdleFits(s: I.Status, c: Pcb, slot: Slot, op: Op)
    requires s.Idle?
    ensures Fits(s, c, slot, op)
  {
  }

  /** What is no call leaves slots alone, except those of processes that neither wait nor were woken. */
  lemma StillFit(st: I.Statuses, w: World, r: World, code: Code)
    requires AllFit(st, w, code) && |r.ps| == |w.ps| && |r.ss| == |w.ss|
    requires forall p :: 0 <= p < |w.ps| ==>
                           st[p].Idle? || r.ps[p].state == Exited || (StaysUp(w.ps[p], r.ps[p]) && r.ss[p] == w.ss[p])
    ensures AllFit(st, r, code)
  {
    forall p | 0 <= p < |w.ps|
      ensures Fits(st[p], r.ps[p], r.ss[p], code(p, r.ss[p].pc))
    {
      assert Fits(st[p], w.ps[p], w.ss[p], code(p, w.ss[p].pc));
    }
  }

  // ----- the rest of a pass -----

  lemma DispatchSizes(w: World, pick: int)
    requires Good(w)
    ensures |Dispatched(w, pick).ps| == |w.ps| && Dispatched(w, pick).ss == w.ss
  {
    PreparedBlocks(w);
  }

  // ----- runs -----

  ghost predicate Inv(j: Joint, n: Notes, code: Code) {
    JointInv(j) && Protocol(n, j.kernel) && AllFit(n.st, j.world, code)
  }

  /** The move is one of the joint machine, calls are those of the program, and there are at most 128 processes. */
  ghost predicate MoveOk(j: Joint, m: Move, code: Code) {
    && JointEnabled(j, m)
    && (m.event.Launch? ==> |j.world.ps| < Q.WAITQ_CAPACITY)
    && (MakesCall(j.world, m.event) ==>
          var d := Dispatched(j.world, m.event.pick); m.op == code(d.current, d.ss[d.current].pc))
  }

  ghost function NotedMove(j: Joint, n: Notes, m: Move): Notes {
    if MakesCall(j.world, m.event) then
      Noted(n, j.kernel, Dispatched(j.world, m.event.pick).current, m.op, m.event.answer.outcome)
    else if m.event.Launch? && |j.world.ps| < MAX_PROCS then n.(st := n.st[|j.world.ps| := I.Idle])
    else n
  }

  /** A pass that dispatches: the world just before the instruction is in order. */
  lemma BeforeCall(j: Joint, n: Notes, m: Move, code: Code)
    requires Inv(j, n, code) && MoveOk(j, m, code) && m.event.Pass? && !Nobody(Prepared(j.world))
    ensures var d := Dispatched(j.world, m.event.pick);
            && Good(d) && Executing(d) && d.ps[d.current].state == Running
            && Paired(j.kernel, d.ps) && AllFit(n.st, d, code)
  {
    hide Sound, Prepared, Nobody, MayRun, Dispatched, Lists, ListAt, Fits, Protocol;
    var w, pick := j.world, m.event.pick;
    GoodDispatched(w, pick);
    var d := Dispatched(w, pick);
    GoodExecuting(d);
    DispatchSizes(w, pick);
    forall p | 0 <= p < |w.ps|
      ensures |d.ps| == |w.ps| && d.ss == w.ss && StaysUp(w.ps[p], d.ps[p])
    {
      DispatchLeaves(w, pick, p);
    }
    StillFit(n.st, w, d, code);
    forall b, p | On(j.kernel, b, p)
      ensures 0 <= p < |d.ps| && Parked(d.ps[p])
    {
      DispatchLeaves(w, pick, p);
    }
  }

  lemma PassKeeps(j: Joint, n: Notes, m: Move, code: Code)
    requires Inv(j, n, code) && MoveOk(j, m, code) && m.event.Pass? && !Nobody(Prepared(j.world))
    ensures var r, n' := JointApply(j, m), NotedMove(j, n, m);
            Protocol(n', r.kernel) && AllFit(n'.st, r.world, code)
  {
    hide Good, Prepared, Nobody, MayRun, Dispatched, Paired, AllFit, Protocol, Performed, Noted, Executed, Inv;
    var w, k, a := j.world, j.kernel, m.event.answer;
    BeforeCall(j, n, m, code);
    assert Protocol(n, k) by {
      ProtocolHolds(j, n, code);
    }
    var d := Dispatched(w, m.event.pick);
    var d' := d.(calls := d.calls + 1);
    CountedFits(n.st, d, code);
    if MakesCall(w, m.event) {
      CallFits(n, k, d', code);
      CallExecutes(d', a);
      CallKeeps(n, k, d', code);
    } else {
      ExecutionFits(n.st, d', a, code);
    }
  }

  lemma ProtocolHolds(j: Joint, n: Notes, code: Code)
    requires Inv(j, n, code)
    ensures Protocol(n, j.kernel)
  {
  }

  lemma CountedFits(st: I.Statuses, w: World, code: Code)
    requires AllFit(st, w, code)
    ensures AllFit(st, w.(calls := w.calls + 1), code)
  {
  }

  /** The call of a running process keeps every queue in order. */
  lemma CallKeeps(n: Notes, k: Kernel, w: World, code: Code)
    requires Protocol(n, k) && AllFit(n.st, w, code) && Paired(k, w.ps)
    requires Executing(w) && w.ps[w.current].state == Running
    ensures var op := code(w.current, w.ss[w.current].pc);
            var (k', o) := Performed(k, w.current, op);
            Protocol(Noted(n, k, w.current, op, o), k')
  {
    MayCall(n, k, w, code);
    hide Protocol, AllFit, Paired, Sent, Received, Acquired, Posted, Noted, I.MaySend, I.MayRecv;
    var op := code(w.current, w.ss[w.current].pc);
    if op.Send? {
      SendKeeps(n, k, w.current, op.q, op.value);
    } else if op.Recv? {
      RecvKeeps(n, k, w.current, op.q);
    } else {
      OthersKeep(n, k, w.current, op);
    }
  }

  lemma ExecutedSizes(w: World, a: Answer)
    requires Executing(w)
    ensures |Executed(w, a).ps| == |w.ps| && |Executed(w, a).ss| == |w.ss|
  {
    hide Appended, GivesWay;
  }

  lemma ExecutionFits(st: I.Statuses, w: World, a: Answer, code: Code)
    requires AllFit(st, w, code) && Executing(w) && w.ps[w.current].state == Running && Next(w.ss[w.current]) != Calls
    ensures AllFit(st, Executed(w, a), code)
  {
    hide Executed;
    var r := Executed(w, a);
    assert Fits(st[w.current], w.ps[w.current], w.ss[w.current], code(w.current, w.ss[w.current].pc));
    assert st[w.current].Idle?;
    ExecutedSizes(w, a);
    forall p | 0 <= p < |w.ps|
      ensures st[p].Idle? || (StaysUp(w.ps[p], r.ps[p]) && r.ss[p] == w.ss[p])
    {
      if p != w.current {
        ExecutionLeaves(w, a, p);
      }
    }
    StillFit(st, w, r, code);
  }

  lemma IdleFitting(st: I.Statuses, w: World, code: Code)
    requires Good(w) && Nobody(Prepared(w)) && AllFit(st, w, code)
    ensures |Prepared(w).blocked| == |Prepared(w).ps| && AllFit(st, Idled(Prepared(w)), code)
  {
    hide Sound, CurrentOk, Fits, Prepared, Nobody, Idled;
    PreparedBlocks(w);
    GoodSizes(Prepared(w));
    var r := Idled(Prepared(w));
    IdleSize(Prepared(w));
    forall p | 0 <= p < |w.ps|
      ensures |r.ps| == |w.ps| && r.ss == w.ss && StaysUp(w.ps[p], r.ps[p])
    {
      IdleLeaves(w, p);
    }
    StillFit(st, w, r, code);
  }

  lemma IdleSize(w: World)
    requires |w.blocked| == |w.ps|
    ensures |Idled(w).ps| == |w.ps| && Idled(w).ss == w.ss
  {
  }

  lemma OneStatusMore(st: I.Statuses, pid: nat)
    requires st.Keys == Below(pid)
    ensures |st[pid := I.Idle]| == pid + 1
  {
    assert st[pid := I.Idle].Keys == Below(pid + 1);
  }

  /** A process launched waits for nothing. */
  lemma LaunchProtocol(n: Notes, k: Kernel, pid: nat)
    requires Protocol(n, k) && n.st.Keys == Below(pid) && pid < Q.WAITQ_CAPACITY
    ensures Protocol(n.(st := n.st[pid := I.Idle]), k)
  {
    var n' := n.(st := n.st[pid := I.Idle]);
    OneStatusMore(n.st, pid);
    hide Below, I.QueueInv, LogOf, QueueAt;
    assert pid !in n.st;
    SameLogs(n, n');
    forall q
      ensures I.QueueInv(QueueAt(k, q), LogOf(n', q), n'.st, q)
    {
      I.OtherQueue(QueueAt(k, q), LogOf(n, q), n.st, n'.st, q);
    }
  }

  lemma SameLogs(n: Notes, n': Notes)
    requires n'.logs == n.logs
    ensures forall q :: LogOf(n', q) == LogOf(n, q)
  {
  }

  lemma KeysBelow(st: I.Statuses, n: nat)
    requires forall p :: p in st <==> 0 <= p < n
    ensures st.Keys == Below(n)
  {
  }

  lemma LaunchFits(st: I.Statuses, w: World, insns: seq<Insn>, priority: int, code: Code)
    requires AllFit(st, w, code) && |w.ps| < MAX_PROCS
    ensures st.Keys == Below(|w.ps|) && AllFit(st[|w.ps| := I.Idle], Launched(w, insns, priority), code)
  {
    hide Appended, Fits, Below, Fresh;
    KeysBelow(st, |w.ps|);
    var st', r := st[|w.ps| := I.Idle], Launched(w, insns, priority);
    IdleFits(I.Idle, r.ps[|w.ps|], r.ss[|w.ps|], code(|w.ps|, 0));
    forall p | 0 <= p < |w.ps|
      ensures r.ps[p] == w.ps[p] && r.ss[p] == w.ss[p] && st'[p] == st[p]
    {
    }
  }

  lemma RequestFits(st: I.Statuses, w: World, e: Event, code: Code)
    requires Good(w) && AllFit(st, w, code) && !e.Pass? && !e.Launch?
    ensures AllFit(st, Apply(w, e), code)
  {
    hide Sound, CurrentOk, Fits, LinedUpTo;
    StillFit(st, w, Apply(w, e), code);
  }

  /** Every move keeps runtime, queues and protocol in step. */
  lemma Cooperates(j: Joint, n: Notes, m: Move, code: Code)
    requires Inv(j, n, code) && MoveOk(j, m, code)
    ensures Enabled(j.world, m.event) && Inv(JointApply(j, m), NotedMove(j, n, m), code)
  {
    hide JointInv, JointEnabled, Protocol, AllFit, Prepared, Nobody, Passed, Launched, Performed, Noted, Dispatched, Executing,
      Killed, WithPolicy;
    var w, e := j.world, m.event;
    JointStep(j, m);
    JointGood(j);
    if e.Pass? && !Nobody(Prepared(w)) {
      PassKeeps(j, n, m, code);
    } else if e.Pass? {
      IdleFitting(n.st, w, code);
      IdlePassed(w, e);
    } else if e.Launch? {
      LaunchFits(n.st, w, e.insns, e.priority, code);
      LaunchProtocol(n, j.kernel, |w.ps|);
    } else {
      RequestFits(n.st, w, e, code);
    }
  }

  lemma JointGood(j: Joint)
    requires JointInv(j)
    ensures Good(j.world)
  {
  }

  lemma IdlePassed(w: World, e: Event)
    requires e.Pass? && Nobody(Prepared(w)) && |Prepared(w).blocked| == |Prepared(w).ps|
    ensures Apply(w, e) == Idled(Prepared(w))
  {
  }

  ghost function NotesAfter(j: Joint, n: Notes, ms: seq<Move>): Notes {
    if ms == [] then n
    else NotedMove(JointAfter(j, ms[..|ms| - 1]), NotesAfter(j, n, ms[..|ms| - 1]), ms[|ms| - 1])
  }

  ghost predicate RunOk(j: Joint, ms: seq<Move>, code: Code) {
    forall i :: 0 <= i < |ms| ==> MoveOk(JointAfter(j, ms[..i]), ms[i], code)
  }

  lemma RunNothing(j: Joint, code: Code)
    ensures RunOk(j, [], code) && JointAfter(j, []) == j
  {
  }

  lemma RunMore(j: Joint, ms: seq<Move>, m: Move, code: Code)
    requires RunOk(j, ms, code) && MoveOk(JointAfter(j, ms), m, code)
    ensures RunOk(j, ms + [m], code) && JointAfter(j, ms + [m]) == JointApply(JointAfter(j, ms), m)
  {
    hide MoveOk, JointApply;
    var ms' := ms + [m];
    assert ms'[..|ms|] == ms;
    forall i | 0 <= i < |ms'|
      ensures MoveOk(JointAfter(j, ms'[..i]), ms'[i], code)
    {
      assert i < |ms| ==> ms'[..i] == ms[..i];
    }
  }

  /** In every run of at most 128 processes, whatever their programs: every queue keeps its invariant, no answer surprises
      the runtime, and the run is one of the runtime as specified. */
  lemma {:induction false} CooperativeRun(j: Joint, n: Notes, ms: seq<Move>, code: Code)
    requires Inv(j, n, code) && RunOk(j, ms, code)
    ensures Inv(JointAfter(j, ms), NotesAfter(j, n, ms), code) && JointPossible(j, ms)
  {
    hide Inv, MoveOk, JointApply, NotedMove, JointEnabled;
    if ms != [] {
      var k := |ms| - 1;
      assert forall i :: 0 <= i < k ==> ms[..k][..i] == ms[..i];
      CooperativeRun(j, n, ms[..k], code);
      var v := JointAfter(j, ms[..k]);
      assert MoveOk(v, ms[k], code);
      Cooperates(v, NotesAfter(j, n, ms[..k]), ms[k], code);
      MoveEnabled(v, ms[k], code);
    }
  }

  lemma MoveEnabled(j: Joint, m: Move, code: Code)
    requires MoveOk(j, m, code)
    ensures JointEnabled(j, m)
  {
  }

  lemma CooperationBegins(code: Code)
    ensures Inv(Joint(Begin(), Kernel(map[], map[])), Notes(map[], map[]), code)
  {
    JointBegins();
    hide JointInv;
    assert I.Messages([]) == [];
    assert forall q :: I.Woken(map[], q) == {};
  }

  /** So in every such run, kills included, messages are assigned in the order sent, and while somebody is on the list of
      receivers the ring is empty. */
  lemma MessagesInOrder(ms: seq<Move>, code: Code, q: int, p: int)
    requires RunOk(Joint(Begin(), Kernel(map[], map[])), ms, code)
    ensures var b := Joint(Begin(), Kernel(map[], map[]));
            var n, v := NotesAfter(b, Notes(map[], map[]), ms), QueueAt(JointAfter(b, ms).kernel, q);
            && I.Messages(LogOf(n, q).allotted) + v.ring == LogOf(n, q).sent
            && multiset(LogOf(n, q).allotted) == multiset(LogOf(n, q).delivered) + multiset(v.grants)
            && (On(JointAfter(b, ms).kernel, Receiving(q), p) ==> v.ring == [])
  {
    hide RunOk, JointAfter, NotesAfter, JointInv, AllFit;
    var b, n0 := Joint(Begin(), Kernel(map[], map[])), Notes(map[], map[]);
    CooperationBegins(code);
    CooperativeRun(b, n0, ms, code);
    var n, v := NotesAfter(b, n0, ms), QueueAt(JointAfter(b, ms).kernel, q);
    assert I.QueueInv(v, LogOf(n, q), n.st, q);
  }
}
