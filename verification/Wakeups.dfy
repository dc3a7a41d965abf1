/** What happens to wake-ups: with nobody ended who waits for a queue or was woken for it, none is lost in any run of runtime,
    queues and semaphores; otherwise a call wakes somebody exactly if the first in line has not been ended. */
module Wakeups {
  import opened Proc
  import opened Sched
  import opened Accounting
  import opened TickSpec
  import opened TickFacts
  import opened TickWork
  import opened Pairing
  import opened Cooperation
  import I = IpcProtocol
  import Q = Ipc

  // ----- nobody is ended at a bad time -----

  /** Whoever waits for a queue, or was woken for it, is alive, and the queue is there. */
  ghost predicate Unharmed(st: I.Statuses, queues: map<int, Q.View>, ps: seq<Pcb>) {
    forall p :: p in st && !st[p].Idle? ==> 0 <= p < |ps| && ps[p].state != Exited && st[p].q in queues
  }

  /** A move that ends nobody who waits for a queue or was woken for it. */
  ghost predicate Gentle(w: World, n: Notes, m: Move) {
    m.event.Kill? && Live(w, m.event.pid) && m.event.pid in n.st ==> n.st[m.event.pid].Idle?
  }

  /** Queues are never closed. */
  lemma QueuesStay(k: Kernel, pid: int, op: Op)
    ensures k.queues.Keys <= Performed(k, pid, op).0.queues.Keys
    ensures (op.Send? || op.Recv?) && Performed(k, pid, op).1 == Blocks ==> op.q in Performed(k, pid, op).0.queues
  {
  }

  /** A call on a queue that is there does not fail. */
  lemma CallSucceeds(n: Notes, k: Kernel, pid: int, op: Op)
    requires Protocol(n, k) && (op.Send? || op.Recv?) && op.q in k.queues
    requires if op.Send? then I.MaySend(n.st, pid, op.q, op.value) else I.MayRecv(n.st, pid, op.q)
    ensures !Performed(k, pid, op).1.Fails?
  {
    assert I.QueueInv(QueueAt(k, op.q), LogOf(n, op.q), n.st, op.q);
    hide I.QueueInv;
    if op.Send? {
      I.SendNeverFails(QueueAt(k, op.q), LogOf(n, op.q), n.st, pid, op.q, op.value);
    } else {
      I.RecvNeverFails(QueueAt(k, op.q), pid);
    }
  }

  lemma RespondedAlive(w: World, o: Outcome, p: int)
    requires Executing(w) && 0 <= p < |w.ps| && w.ps[p].state != Exited && (p == w.current ==> !o.Fails?)
    ensures |Responded(w, o).ps| == |w.ps| && Responded(w, o).ps[p].state != Exited
  {
    hide Appended;
  }

  lemma CallUnharmed(n: Notes, k: Kernel, w: World, code: Code)
    requires Protocol(n, k) && AllFit(n.st, w, code) && Paired(k, w.ps) && Unharmed(n.st, k.queues, w.ps)
    requires Executing(w) && w.ps[w.current].state == Running && Next(w.ss[w.current]).Calls?
    ensures var op := code(w.current, w.ss[w.current].pc);
            var (k', o) := Performed(k, w.current, op);
            Unharmed(Noted(n, k, w.current, op, o).st, k'.queues, Responded(w, o).ps)
  {
    hide Protocol, Paired, Performed, Responded, Noted;
    var pid := w.current;
    var op := code(pid, w.ss[pid].pc);
    var (k', o) := Performed(k, pid, op);
    var n', r := Noted(n, k, pid, op, o), Responded(w, o);
    MayCall(n, k, w, code);
    QueuesStay(k, pid, op);
    assert Fits(n.st[pid], w.ps[pid], w.ss[pid], op);
    NotedStatus(n, k, pid, op, pid);
    forall p | p in n'.st && !n'.st[p].Idle?
      ensures 0 <= p < |r.ps| && r.ps[p].state != Exited && n'.st[p].q in k'.queues
    {
      NotedStatus(n, k, pid, op, p);
      if p == pid && !n.st[p].Idle? {
        CallSucceeds(n, k, pid, op);
      }
      RespondedAlive(w, o, p);
    }
  }

  lemma RequestAlive(w: World, e: Event, p: int)
    requires !e.Pass? && 0 <= p < |w.ps| && w.ps[p].state != Exited && e != Kill(p)
    ensures |w.ps| <= |Apply(w, e).ps| && Apply(w, e).ps[p].state != Exited
  {
    hide LinedUpTo, Appended;
  }

  lemma PassUnharmed(j: Joint, n: Notes, m: Move, code: Code)
    requires Inv(j, n, code) && MoveOk(j, m, code) && Unharmed(n.st, j.kernel.queues, j.world.ps)
    requires m.event.Pass? && !Nobody(Prepared(j.world))
    ensures var r, n' := JointApply(j, m), NotedMove(j, n, m); Unharmed(n'.st, r.kernel.queues, r.world.ps)
  {
    hide Good, Prepared, Nobody, Dispatched, Paired, Protocol, Performed, Noted, Executed, JointInv, JointEnabled, AllFit;
    var w, k, a := j.world, j.kernel, m.event.answer;
    BeforeCall(j, n, m, code);
    var d := Dispatched(w, m.event.pick);
    var d' := d.(calls := d.calls + 1);
    assert Unharmed(n.st, k.queues, d.ps) by {
      forall p | p in n.st && !n.st[p].Idle?
        ensures 0 <= p < |d.ps| && d.ps[p].state != Exited
      {
        PassPicks(j, m);
        DispatchLeaves(w, m.event.pick, p);
      }
    }
    CountedFits(n.st, d, code);
    if MakesCall(w, m.event) {
      CallUnharmed(n, k, d', code);
      CallExecutes(d', a);
      PassAnswer(j, m);
    } else {
      NotCalling(n.st, d', code);
      forall p | p in n.st && !n.st[p].Idle?
        ensures 0 <= p < |Executed(d', a).ps| && Executed(d', a).ps[p].state != Exited
      {
        ExecutionLeaves(d', a, p);
      }
    }
  }

  lemma PassPicks(j: Joint, m: Move)
    requires JointInv(j) && JointEnabled(j, m) && m.event.Pass? && !Nobody(Prepared(j.world))
    ensures Good(j.world) && (Prepared(j.world).current < 0 ==> MayRun(Prepared(j.world), m.event.pick))
  {
  }

  lemma PassAnswer(j: Joint, m: Move)
    requires JointEnabled(j, m) && MakesCall(j.world, m.event)
    ensures m.event.answer.outcome == Performed(j.kernel, Dispatched(j.world, m.event.pick).current, m.op).1
  {
  }

  lemma NotCalling(st: I.Statuses, w: World, code: Code)
    requires AllFit(st, w, code) && Executing(w) && w.ps[w.current].state == Running && Next(w.ss[w.current]) != Calls
    ensures w.current in st && st[w.current].Idle?
  {
    assert Fits(st[w.current], w.ps[w.current], w.ss[w.current], code(w.current, w.ss[w.current].pc));
  }

  lemma GentleStep(j: Joint, n: Notes, m: Move, code: Code)
    requires Inv(j, n, code) && MoveOk(j, m, code) && Unharmed(n.st, j.kernel.queues, j.world.ps) && Gentle(j.world, n, m)
    ensures var r, n' := JointApply(j, m), NotedMove(j, n, m); Unharmed(n'.st, r.kernel.queues, r.world.ps)
  {
    var w, e := j.world, m.event;
    if e.Pass? && !Nobody(Prepared(w)) {
      hide *;
      PassUnharmed(j, n, m, code);
    } else {
      hide Good, Prepared, Nobody, Protocol, AllFit, JointEnabled, Launched, Killed, WithPolicy, Paired, Performed;
      var r, n' := JointApply(j, m), NotedMove(j, n, m);
      forall p | p in n'.st && !n'.st[p].Idle?
        ensures 0 <= p < |r.world.ps| && r.world.ps[p].state != Exited && n'.st[p].q in r.kernel.queues
      {
        if e.Pass? {
          IdleLeaves(w, p);
        } else {
          RequestAlive(w, e, p);
        }
      }
    }
  }

  /** Ending a process leaves all who wait or were woken alive exactly if it is not one of them. */
  lemma KillHarmlessIff(j: Joint, n: Notes, pid: int, op: Op, code: Code)
    requires Inv(j, n, code) && Unharmed(n.st, j.kernel.queues, j.world.ps) && Live(j.world, pid)
    ensures var r := JointApply(j, Move(Kill(pid), op));
            Unharmed(n.st, r.kernel.queues, r.world.ps) <==> n.st[pid].Idle?
  {
    hide LinedUpTo, Sound, Protocol, Paired, Fits, Performed, Prepared;
  }

  // ----- nothing is lost -----

  /** No move of the run ends anybody who waits for a queue or was woken for it. */
  ghost predicate GentleRun(j: Joint, n: Notes, ms: seq<Move>) {
    forall i :: 0 <= i < |ms| ==> Gentle(JointAfter(j, ms[..i]).world, NotesAfter(j, n, ms[..i]), ms[i])
  }

  lemma {:induction false} StaysUnharmed(j: Joint, n: Notes, ms: seq<Move>, code: Code)
    requires Inv(j, n, code) && RunOk(j, ms, code) && GentleRun(j, n, ms) && Unharmed(n.st, j.kernel.queues, j.world.ps)
    ensures var r, n' := JointAfter(j, ms), NotesAfter(j, n, ms); Inv(r, n', code) && Unharmed(n'.st, r.kernel.queues, r.world.ps)
  {
    hide Inv, MoveOk, JointApply, NotedMove, JointEnabled, Gentle, Unharmed;
    CooperativeRun(j, n, ms, code);
    if ms != [] {
      var k := |ms| - 1;
      assert forall i :: 0 <= i < k ==> ms[..k][..i] == ms[..i];
      StaysUnharmed(j, n, ms[..k], code);
      GentleStep(JointAfter(j, ms[..k]), NotesAfter(j, n, ms[..k]), ms[k], code);
    }
  }

  /** The call that process x, READY or running, makes next. */
  ghost predicate IsNext(w: World, code: Code, x: int, op: Op) {
    0 <= x < |w.ps| == |w.ss| && Up(w.ps[x]) && Next(w.ss[x]).Calls? && code(x, w.ss[x].pc) == op
  }

  /** Nobody READY or running is about to receive from q, or to send to it. */
  ghost predicate NobodyReceives(w: World, code: Code, q: int) {
    forall x :: !IsNext(w, code, x, Recv(q))
  }

  ghost predicate NobodySends(w: World, code: Code, q: int) {
    forall x, value :: !IsNext(w, code, x, Send(q, value))
  }

  /** A message held for a receiver is held for one that is about to fetch it. */
  lemma GrantIsFetched(j: Joint, n: Notes, code: Code, q: int, x: int)
    requires Inv(j, n, code) && Unharmed(n.st, j.kernel.queues, j.world.ps) && x in I.Pids(QueueAt(j.kernel, q).grants)
    ensures IsNext(j.world, code, x, Recv(q))
  {
    hide JointInv;
    assert I.QueueInv(QueueAt(j.kernel, q), LogOf(n, q), n.st, q);
    assert Fits(n.st[x], j.world.ps[x], j.world.ss[x], code(x, j.world.ss[x].pc));
  }

  /** A woken sender is about to send. */
  lemma WokenSends(j: Joint, n: Notes, code: Code, q: int, x: int)
    requires Inv(j, n, code) && Unharmed(n.st, j.kernel.queues, j.world.ps) && x in I.Woken(n.st, q)
    ensures IsNext(j.world, code, x, Send(q, n.st[x].value))
  {
    hide JointInv, Protocol;
    assert Fits(n.st[x], j.world.ps[x], j.world.ss[x], code(x, j.world.ss[x].pc));
  }

  lemma NothingPending(j: Joint, n: Notes, code: Code, q: int)
    requires Inv(j, n, code) && Unharmed(n.st, j.kernel.queues, j.world.ps)
    ensures NobodyReceives(j.world, code, q) ==> QueueAt(j.kernel, q).grants == []
    ensures NobodySends(j.world, code, q) ==> I.Woken(n.st, q) == {}
  {
    hide Inv, Unharmed, IsNext;
    var gs := QueueAt(j.kernel, q).grants;
    if gs != [] {
      assert I.Pids(gs)[0] in I.Pids(gs);
      GrantIsFetched(j, n, code, q, I.Pids(gs)[0]);
    }
    forall x | x in I.Woken(n.st, q)
      ensures !NobodySends(j.world, code, q)
    {
      WokenSends(j, n, code, q, x);
    }
  }

  /** In every run in which nobody is ended while it waits for a queue or after it was woken for it: messages are assigned in
      the order sent; unless somebody READY or running is about to receive, all that were assigned have been delivered; whoever
      waits to receive stands before an empty ring; and unless somebody READY or running is about to receive or to send, whoever
      waits to send stands before a full one. */
  lemma NothingLost(ms: seq<Move>, code: Code, q: int, p: int)
    requires var b := Joint(Begin(), Kernel(map[], map[])); RunOk(b, ms, code) && GentleRun(b, Notes(map[], map[]), ms)
    ensures var b := Joint(Begin(), Kernel(map[], map[]));
            var r, n := JointAfter(b, ms), NotesAfter(b, Notes(map[], map[]), ms);
            var v, log := QueueAt(r.kernel, q), LogOf(n, q);
            && I.Messages(log.allotted) + v.ring == log.sent
            && (NobodyReceives(r.world, code, q) ==> v.grants == [] && multiset(log.allotted) == multiset(log.delivered))
            && (On(r.kernel, Receiving(q), p) ==> v.ring == [])
            && (On(r.kernel, Sending(q), p) && NobodyReceives(r.world, code, q) && NobodySends(r.world, code, q) ==>
                  |v.ring| == Q.MSG_CAPACITY)
  {
    hide RunOk, GentleRun, JointAfter, NotesAfter, JointInv, AllFit, NobodyReceives, NobodySends, Unharmed;
    var b, n0 := Joint(Begin(), Kernel(map[], map[])), Notes(map[], map[]);
    CooperationBegins(code);
    NobodyYet();
    StaysUnharmed(b, n0, ms, code);
    var r, n := JointAfter(b, ms), NotesAfter(b, n0, ms);
    assert I.QueueInv(QueueAt(r.kernel, q), LogOf(n, q), n.st, q);
    NothingPending(r, n, code, q);
  }

  lemma NobodyYet()
    ensures Unharmed(map[], map[], [])
  {
  }

  /** In particular, when nobody is READY or running. */
  lemma QuietRun(ms: seq<Move>, code: Code, q: int, p: int)
    requires var b := Joint(Begin(), Kernel(map[], map[])); RunOk(b, ms, code) && GentleRun(b, Notes(map[], map[]), ms)
    requires var w := JointAfter(Joint(Begin(), Kernel(map[], map[])), ms).world; forall x :: 0 <= x < |w.ps| ==> !Up(w.ps[x])
    ensures var k := JointAfter(Joint(Begin(), Kernel(map[], map[])), ms).kernel;
            && QueueAt(k, q).grants == []
            && (On(k, Receiving(q), p) ==> QueueAt(k, q).ring == [])
            && (On(k, Sending(q), p) ==> |QueueAt(k, q).ring| == Q.MSG_CAPACITY)
  {
    hide RunOk, GentleRun, JointAfter, NotesAfter;
    NothingLost(ms, code, q, p);
  }

  /** A process whose next instruction is no call on a queue neither waits for one nor was woken for one: to end it is gentle. */
  lemma GentleKill(j: Joint, n: Notes, code: Code, pid: int, op: Op)
    requires Inv(j, n, code) && Live(j.world, pid)
    requires var next := code(pid, j.world.ss[pid].pc); Next(j.world.ss[pid]) != Calls || (!next.Send? && !next.Recv?)
    ensures Gentle(j.world, n, Move(Kill(pid), op))
  {
    hide JointInv, Protocol;
    assert Fits(n.st[pid], j.world.ps[pid], j.world.ss[pid], code(pid, j.world.ss[pid].pc));
  }

  // ----- and what is -----

  /** Those of whom a call, if it completes, wakes the first. */
  ghost function Waiters(k: Kernel, op: Op): seq<int> {
    match op
    case Send(q, _) => QueueAt(k, q).recvWaiters
    case Recv(q) => QueueAt(k, q).sendWaiters
    case SemPost(id) => ListAt(k, At(id))
    case Unlock(id) => ListAt(k, At(id))
    case _ => []
  }

  lemma WakesFirst(k: Kernel, pid: int, op: Op)
    requires Nowhere(k, pid) && Waiters(k, op) != [] && 0 <= Waiters(k, op)[0] && Performed(k, pid, op).1.Done?
    ensures Performed(k, pid, op).1 == Done(Waiters(k, op)[0]) && Waiters(Performed(k, pid, op).0, op) == Waiters(k, op)[1..]
  {
    if op.Send? {
      SendFirst(QueueAt(k, op.q), pid, op.value);
    } else if op.Recv? {
      assert !On(k, Receiving(op.q), pid);
      RecvLists(QueueAt(k, op.q), pid);
    }
  }

  lemma FirstWaits(k: Kernel, op: Op)
    requires Waiters(k, op) != []
    ensures exists a :: On(k, a, Waiters(k, op)[0])
  {
    var a := match op
      case Send(q, _) => Receiving(q)
      case Recv(q) => Sending(q)
      case SemPost(id) => At(id)
      case Unlock(id) => At(id)
      case _ => At(0);
    assert On(k, a, Waiters(k, op)[0]);
  }

  lemma ReadyAfter(w: World, wake: int)
    requires Executing(w) && w.ps[w.current].state == Running && 0 <= wake < |w.ps| && Parked(w.ps[wake])
    ensures ReadySet(Responded(w, Done(wake)).ps) == if w.ps[wake].state == Exited then ReadySet(w.ps) else ReadySet(w.ps) + {wake}
  {
    hide Appended;
  }

  /** A send, receive, post or unlock that completes while somebody waits is meant to wake somebody. It does so exactly if the
      first in line has not been ended; the first leaves the line in any case. */
  lemma WakesIff(w: World, k: Kernel, op: Op)
    requires Executing(w) && w.ps[w.current].state == Running && Paired(k, w.ps)
    requires Waiters(k, op) != [] && Performed(k, w.current, op).1.Done?
    ensures 0 <= Waiters(k, op)[0] < |w.ps|
    ensures var (k', o) := Performed(k, w.current, op);
            && ((exists x :: x in ReadySet(Responded(w, o).ps) && x !in ReadySet(w.ps)) <==>
                w.ps[Waiters(k, op)[0]].state != Exited)
            && Waiters(k', op) == Waiters(k, op)[1..]
  {
    hide ListAt, Lists, Performed, Responded, Waiters;
    var first := Waiters(k, op)[0];
    FirstWaits(k, op);
    assert Nowhere(k, w.current);
    WakesFirst(k, w.current, op);
    ReadyAfter(w, first);
    assert first !in ReadySet(w.ps);
  }
}
