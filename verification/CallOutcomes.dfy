/** What the calls on queues, semaphores and mutexes come to in runs of runtime, queues and semaphores: which end their process,
    which go through and which block. */
module CallOutcomes {
  import opened Sequences
  import opened Proc
  import opened Sched
  import opened Accounting
  import opened TickSpec
  import opened TickFacts
  import opened TickWork
  import opened TickPrograms
  import opened Pairing
  import opened Cooperation
  import I = IpcProtocol
  import Q = Ipc
  import P = SyncProtocol
  import S = Sync

  // ----- every semaphore has a history -----

  /** The history of every semaphore and mutex in use. */
  type Runs = map<int, P.Run>

  /** The processes that there can be. */
  ghost function Everybody(): set<int> {
    Below(Q.WAITQ_CAPACITY)
  }

  ghost function RunAt(rs: Runs, id: int, mutex: bool): P.Run {
    if id in rs then rs[id] else P.Start(1, mutex)
  }

  /** The histories after a call of pid. */
  ghost function Recorded(rs: Runs, k: Kernel, pid: int, op: Op): Runs {
    match op
    case SemWait(id) =>
      if id !in k.sems && S.MAX_SEMAPHORES <= |k.sems| then rs else rs[id := P.Step(RunAt(rs, id, false), P.Wait(pid))]
    case Lock(id) =>
      if if id in k.sems then !k.sems[id].mutex else S.MAX_SEMAPHORES <= |k.sems| then rs
      else rs[id := P.Step(RunAt(rs, id, true), P.Wait(pid))]
    case SemPost(id) => if id !in rs then rs else rs[id := P.Step(rs[id], P.Post(pid))]
    case Unlock(id) => if id !in rs then rs else rs[id := P.Step(rs[id], P.Post(pid))]
    case _ => rs
  }

  ghost predicate RunInv(r: P.Run) {
    if r.sem.mutex then P.MutexInv(r, Everybody()) else P.SemInv(r, Everybody())
  }

  /** The semaphores are where their histories have led them, and these are in order. */
  ghost predicate SemsOk(rs: Runs, k: Kernel) {
    rs.Keys == k.sems.Keys && forall id :: id in rs ==> rs[id].sem == k.sems[id] && RunInv(rs[id])
  }

  lemma NewRun(mutex: bool)
    ensures RunInv(P.Start(1, mutex)) && P.Start(1, mutex).sem.mutex == mutex
  {
    hide P.SemInv, P.MutexInv;
    assert P.Pids(Everybody());
    P.TokensConserved(1, [], Everybody());
    P.MutexSafe([], Everybody());
  }

  lemma StepInv(r: P.Run, c: P.Call)
    requires RunInv(r) && c.pid in Everybody()
    ensures RunInv(P.Step(r, c)) && P.Step(r, c).sem.mutex == r.sem.mutex
  {
    hide P.MutexInv, P.SemInv;
    assert P.Pids(Everybody());
    match c
    case Wait(pid) =>
      if r.sem.mutex { P.MutexWait(r, Everybody(), pid); } else { P.SemWait(r, Everybody(), pid); }
    case Post(pid) =>
      if r.sem.mutex { P.MutexPost(r, Everybody(), pid); } else { P.SemPost(r, Everybody(), pid); }
  }

  lemma CallKeepsSems(rs: Runs, k: Kernel, pid: int, op: Op)
    requires SemsOk(rs, k) && pid in Everybody()
    ensures SemsOk(Recorded(rs, k, pid, op), Performed(k, pid, op).0)
  {
    hide RunInv, S.WaitOn, S.PostTo, Sent, Received, Everybody;
    NewRun(false);
    NewRun(true);
    match op
    case SemWait(id) => StepInv(RunAt(rs, id, false), P.Wait(pid));
    case Lock(id) => StepInv(RunAt(rs, id, true), P.Wait(pid));
    case SemPost(id) => if id in rs { StepInv(rs[id], P.Post(pid)); }
    case Unlock(id) => if id in rs { StepInv(rs[id], P.Post(pid)); }
    case Send(q, value) => OthersSems(k, pid, op);
    case Recv(q) => OthersSems(k, pid, op);
    case Memory(_) =>
  }

  lemma OthersSems(k: Kernel, pid: int, op: Op)
    requires op.Send? || op.Recv?
    ensures Performed(k, pid, op).0.sems == k.sems
  {
  }

  ghost function RunsMove(j: Joint, rs: Runs, m: Move): Runs {
    if MakesCall(j.world, m.event) then Recorded(rs, j.kernel, Dispatched(j.world, m.event.pick).current, m.op) else rs
  }

  ghost function RunsAfter(j: Joint, rs: Runs, ms: seq<Move>): Runs {
    if ms == [] then rs else RunsMove(JointAfter(j, ms[..|ms| - 1]), RunsAfter(j, rs, ms[..|ms| - 1]), ms[|ms| - 1])
  }

  /** There are at most 128 processes. */
  lemma FewProcesses(j: Joint, n: Notes, code: Code)
    requires Inv(j, n, code)
    ensures |j.world.ps| <= Q.WAITQ_CAPACITY
  {
    hide JointInv;
    KeysBelow(n.st, |j.world.ps|);
    assert |n.st.Keys| == |n.st|;
  }

  /** Who makes the call of a move. */
  lemma Caller(j: Joint, n: Notes, m: Move, code: Code)
    requires Inv(j, n, code) && MoveOk(j, m, code) && MakesCall(j.world, m.event)
    ensures var d := Dispatched(j.world, m.event.pick);
            && Executing(d) && d.ps[d.current].state == Running && Paired(j.kernel, d.ps) && AllFit(n.st, d, code)
            && m.op == code(d.current, d.ss[d.current].pc) && d.current in Everybody()
            && m.event.answer.outcome == Performed(j.kernel, d.current, m.op).1
            && |d.ps| == |j.world.ps| && d.ss == j.world.ss
  {
    hide Prepared, Nobody, Dispatched, Paired, Protocol, AllFit, Performed, MayRun, Good;
    BeforeCall(j, n, m, code);
    FewProcesses(j, n, code);
    DispatchSizes(j.world, m.event.pick);
  }

  /** In every run of at most 128 processes each semaphore and mutex is where the waits and posts on it have led it: tokens are
      conserved, and a mutex has one owner at most. */
  lemma {:induction false} SemsInRuns(j: Joint, n: Notes, rs: Runs, ms: seq<Move>, code: Code)
    requires Inv(j, n, code) && SemsOk(rs, j.kernel) && RunOk(j, ms, code)
    ensures SemsOk(RunsAfter(j, rs, ms), JointAfter(j, ms).kernel)
  {
    hide Inv, MoveOk, SemsOk, JointApply, RunsMove;
    if ms != [] {
      var k := |ms| - 1;
      assert forall i :: 0 <= i < k ==> ms[..k][..i] == ms[..i];
      SemsInRuns(j, n, rs, ms[..k], code);
      CooperativeRun(j, n, ms[..k], code);
      var v := JointAfter(j, ms[..k]);
      assert MoveOk(v, ms[k], code);
      MoveKeepsSems(v, NotesAfter(j, n, ms[..k]), RunsAfter(j, rs, ms[..k]), ms[k], code);
    }
  }

  lemma MoveKeepsSems(j: Joint, n: Notes, rs: Runs, m: Move, code: Code)
    requires Inv(j, n, code) && SemsOk(rs, j.kernel) && MoveOk(j, m, code)
    ensures SemsOk(RunsMove(j, rs, m), JointApply(j, m).kernel)
  {
    hide Inv, MoveOk, SemsOk, Performed, Recorded, Dispatched, Everybody;
    if MakesCall(j.world, m.event) {
      Caller(j, n, m, code);
      CallKeepsSems(rs, j.kernel, Dispatched(j.world, m.event.pick).current, m.op);
    }
  }

  // ----- what a call comes to -----

  /** The semaphore that a wait or lock finds; one never used has a single token. */
  ghost function SemAt(k: Kernel, id: int, mutex: bool): S.Sem {
    if id in k.sems then k.sems[id] else S.NewSem(1, mutex)
  }

  /** A call that cannot be served: there is no room for another queue or semaphore, the id names the wrong kind, a mutex is
      locked by its owner or unlocked by another process, or what is posted was never used. */
  ghost predicate Hopeless(k: Kernel, pid: int, op: Op) {
    match op
    case Send(q, _) => q !in k.queues && 16 <= |k.queues|
    case Recv(q) => q !in k.queues && 16 <= |k.queues|
    case SemWait(id) => if id in k.sems then k.sems[id].mutex && k.sems[id].owner == pid else 32 <= |k.sems|
    case Lock(id) =>
      if id in k.sems then !k.sems[id].mutex || k.sems[id].owner == pid else 32 <= |k.sems|
    case SemPost(id) => id !in k.sems || (k.sems[id].mutex && k.sems[id].owner != pid)
    case Unlock(id) => id !in k.sems || (k.sems[id].mutex && k.sems[id].owner != pid)
    case Memory(m) => m.Refused?
  }

  /** A call that can be served at once: a receiver waits or the ring has room; a message is held for the caller, or there is one
      in the ring and nobody waits for it; a grant is held for the caller or a token is left; the mutex is free. */
  ghost predicate AtOnce(k: Kernel, pid: int, op: Op) {
    match op
    case Send(q, _) => QueueAt(k, q).recvWaiters != [] || |QueueAt(k, q).ring| < 16
    case Recv(q) =>
      var v := QueueAt(k, q);
      (exists i :: 0 <= i < |v.grants| && v.grants[i].pid == pid) || (v.recvWaiters == [] && v.ring != [])
    case SemWait(id) =>
      var s := SemAt(k, id, false); if s.mutex then s.owner == -1 else pid in s.grants || 0 < s.count
    case Lock(id) => SemAt(k, id, true).owner == -1
    case SemPost(_) => true
    case Unlock(_) => true
    case Memory(m) => m.Fine?
  }

  /** Where a call that blocks puts its process. */
  ghost predicate Enlisted(k: Kernel, pid: int, op: Op) {
    match op
    case Send(q, _) => On(k, Sending(q), pid)
    case Recv(q) => On(k, Receiving(q), pid)
    case SemWait(id) => On(k, At(id), pid)
    case Lock(id) => On(k, At(id), pid)
    case _ => true
  }

  ghost function CodeOf(op: Op): int {
    if op.Send? || op.Recv? then 3 else if op.Memory? && op.result.Refused? then op.result.code else 4
  }

  /** Exactly what a call comes to, as the state before it tells. */
  ghost predicate Settles(k: Kernel, pid: int, op: Op, k': Kernel, o: Outcome) {
    if Hopeless(k, pid, op) then o == Fails(CodeOf(op))
    else if AtOnce(k, pid, op) then o.Done?
    else if op.Memory? then o == Sleeps
    else o == Blocks && Enlisted(k', pid, op)
  }

  /** There is always room to wait. */
  lemma RoomInList(k: Kernel, ps: seq<Pcb>, a: Place, pid: int)
    requires Paired(k, ps) && |ps| <= Q.WAITQ_CAPACITY && 0 <= pid < |ps| && !On(k, a, pid)
    ensures |ListAt(k, a)| < Q.WAITQ_CAPACITY
  {
    hide ListAt;
    var ws := ListAt(k, a);
    assert NoDuplicates(ws);
    forall i | 0 <= i < |ws|
      ensures ws[i] in Below(|ps|) - {pid}
    {
      assert On(k, a, ws[i]);
    }
    DistinctBound(ws, Below(|ps|) - {pid});
  }

  lemma SendSettles(n: Notes, k: Kernel, ps: seq<Pcb>, pid: int, q: int, value: int)
    requires Protocol(n, k) && Paired(k, ps) && |ps| <= Q.WAITQ_CAPACITY && 0 <= pid < |ps| && Nowhere(k, pid)
    requires I.MaySend(n.st, pid, q, value)
    ensures var (k', o) := Sent(k, pid, q, value); Settles(k, pid, Send(q, value), k', o)
  {
    assert I.QueueInv(QueueAt(k, q), LogOf(n, q), n.st, q);
    RoomInList(k, ps, Sending(q), pid);
    I.SendNeverFails(QueueAt(k, q), LogOf(n, q), n.st, pid, q, value);
    hide I.QueueInv, Paired, Protocol, I.MaySend;
  }

  lemma RecvSettles(k: Kernel, ps: seq<Pcb>, pid: int, q: int)
    requires Paired(k, ps) && |ps| <= Q.WAITQ_CAPACITY && 0 <= pid < |ps| && Nowhere(k, pid)
    ensures var (k', o) := Received(k, pid, q); Settles(k, pid, Recv(q), k', o)
  {
    RoomInList(k, ps, Receiving(q), pid);
    I.RecvNeverFails(QueueAt(k, q), pid);
    RecvOutcome(QueueAt(k, q), pid);
    RecvLists(QueueAt(k, q), pid);
    assert !On(k, Receiving(q), pid);
    hide Paired, Q.RecvFrom;
  }

  lemma RecvOutcome(v: Q.View, pid: int)
    requires pid !in v.recvWaiters
    ensures Q.RecvFrom(v, pid).1 == Q.Ok <==>
            (exists i :: 0 <= i < |v.grants| && v.grants[i].pid == pid) || (v.recvWaiters == [] && v.ring != [])
  {
  }

  /** The history of a semaphore that a wait finds. */
  lemma FoundRun(rs: Runs, k: Kernel, id: int, mutex: bool)
    requires SemsOk(rs, k)
    ensures RunInv(RunAt(rs, id, mutex)) && RunAt(rs, id, mutex).sem == SemAt(k, id, mutex)
  {
    NewRun(mutex);
  }

  lemma AcquireOutcome(r: P.Run, pid: int)
    requires RunInv(r) && pid in Everybody()
    ensures var (s, res) := S.WaitOn(r.sem, pid);
            && (res == S.Error <==> r.sem.mutex && r.sem.owner == pid)
            && (res == S.Ok <==> if r.sem.mutex then r.sem.owner == -1 else pid in r.sem.grants || 0 < r.sem.count)
            && (res == S.WouldBlock ==> pid in s.waiters)
  {
    hide Everybody, S.WaitOn, P.SemInv, P.MutexInv;
    EverybodyFits();
    if r.sem.mutex {
      P.LockOutcome(r, Everybody(), pid);
    } else {
      P.WaitOutcome(r, Everybody(), pid);
    }
  }

  lemma EverybodyFits()
    ensures P.Pids(Everybody()) && -1 !in Everybody()
  {
  }

  lemma AcquireSettles(rs: Runs, k: Kernel, pid: int, id: int, mutex: bool)
    requires SemsOk(rs, k) && pid in Everybody()
    ensures var (k', o) := Acquired(k, pid, id, mutex); Settles(k, pid, if mutex then Lock(id) else SemWait(id), k', o)
  {
    hide SemsOk, RunInv, S.WaitOn, Everybody;
    EverybodyFits();
    FoundRun(rs, k, id, mutex);
    AcquireOutcome(RunAt(rs, id, mutex), pid);
  }

  lemma ReleaseOutcome(r: P.Run, pid: int)
    requires RunInv(r) && pid in Everybody()
    ensures S.PostTo(r.sem, pid).1 == if r.sem.mutex && r.sem.owner != pid then S.Error else S.Ok
  {
    hide Everybody, S.WaitOn, S.PostTo, P.SemInv, P.MutexInv;
    EverybodyFits();
    if r.sem.mutex {
      P.UnlockOutcome(r, Everybody(), pid, pid);
    } else {
      P.PostOutcome(r, Everybody(), pid, pid);
    }
  }

  lemma PostSettles(rs: Runs, k: Kernel, pid: int, id: int)
    requires SemsOk(rs, k) && pid in Everybody()
    ensures var (k', o) := Posted(k, pid, id); Settles(k, pid, SemPost(id), k', o) && Settles(k, pid, Unlock(id), k', o)
  {
    hide RunInv, S.PostTo, Everybody, S.WaitOn;
    if id in rs {
      ReleaseOutcome(rs[id], pid);
    }
  }

  /** Every call of a running process comes to exactly what the state of queues and semaphores says. */
  lemma CallSettles(n: Notes, rs: Runs, k: Kernel, w: World, code: Code)
    requires Protocol(n, k) && SemsOk(rs, k) && AllFit(n.st, w, code) && Paired(k, w.ps) && |w.ps| <= Q.WAITQ_CAPACITY
    requires Executing(w) && w.ps[w.current].state == Running
    ensures var op := code(w.current, w.ss[w.current].pc);
            var (k', o) := Performed(k, w.current, op); Settles(k, w.current, op, k', o)
  {
    hide Protocol, SemsOk, AllFit, Paired, Sent, Received, Acquired, Posted, I.MaySend, I.MayRecv, Nowhere, Settles;
    MayCall(n, k, w, code);
    WaitsNowhere(k, w);
    var pid, op := w.current, code(w.current, w.ss[w.current].pc);
    match op
    case Send(q, value) => SendSettles(n, k, w.ps, pid, q, value);
    case Recv(q) => RecvSettles(k, w.ps, pid, q);
    case SemWait(id) => AcquireSettles(rs, k, pid, id, false);
    case Lock(id) => AcquireSettles(rs, k, pid, id, true);
    case SemPost(id) => PostSettles(rs, k, pid, id);
    case Unlock(id) => PostSettles(rs, k, pid, id);
    case Memory(result) => MemorySettles(k, pid, result);
  }

  lemma WaitsNowhere(k: Kernel, w: World)
    requires Paired(k, w.ps) && Executing(w) && w.ps[w.current].state == Running && |w.ps| <= Q.WAITQ_CAPACITY
    ensures Nowhere(k, w.current) && w.current in Everybody()
  {
    hide ListAt, Lists;
  }

  lemma MemorySettles(k: Kernel, pid: int, result: MemoryResult)
    ensures Settles(k, pid, Memory(result), Performed(k, pid, Memory(result)).0, Performed(k, pid, Memory(result)).1)
  {
  }

  // ----- in runs -----

  ghost function Empty(): Joint {
    Joint(Begin(), Kernel(map[], map[]))
  }

  /** What has become of a process through its call: it has ended with the code, gone on to its next instruction, or is BLOCKED
      before the same one. */
  ghost predicate Turned(c: Pcb, s: Slot, o: Outcome, s': Slot, tick: nat) {
    match o
    case Fails(code) => c.state == Exited && c.exitCode == code && c.finish == tick
    case Done(_) => c.state == Running && s'.pc == s.pc + 1
    case Blocks => c.state == Blocked && s' == s
    case Sleeps => c.state == Blocked && s' == s
  }

  lemma Turns(j: Joint, m: Move)
    requires JointInv(j) && JointEnabled(j, m) && MakesCall(j.world, m.event)
    ensures var r, p := JointApply(j, m).world, Dispatched(j.world, m.event.pick).current;
            && 0 <= p < |j.world.ss| == |r.ps| == |r.ss|
            && Turned(r.ps[p], j.world.ss[p], m.event.answer.outcome, r.ss[p], j.world.tick)
  {
    hide Good, Prepared, Nobody, Dispatched, Paired, Performed, Enabled, Passed;
    JointStep(j, m);
    PassObeys(j.world, m.event.pick, m.event.answer);
    SameSlots(j.world, m.event.pick);
  }

  lemma SameSlots(w: World, pick: int)
    requires Good(w)
    ensures Dispatched(w, pick).ss == w.ss
  {
    hide Good, Prepared;
    PreparedBlocks(w);
  }

  /** In every run of at most 128 processes a call ends its process, with code 3 for queues and 4 for semaphores and mutexes, if
      and only if it is hopeless; it goes through if and only if it can be served at once; and otherwise the process is BLOCKED
      and on the list of those who wait. */
  lemma CallOutcome(ms: seq<Move>, m: Move, code: Code)
    requires RunOk(Empty(), ms, code) && MoveOk(JointAfter(Empty(), ms), m, code)
    requires MakesCall(JointAfter(Empty(), ms).world, m.event)
    ensures var j := JointAfter(Empty(), ms);
            var r, p := JointApply(j, m), Dispatched(j.world, m.event.pick).current;
            && 0 <= p < |j.world.ss| == |r.world.ps| == |r.world.ss|
            && Settles(j.kernel, p, m.op, r.kernel, m.event.answer.outcome)
            && Turned(r.world.ps[p], j.world.ss[p], m.event.answer.outcome, r.world.ss[p], j.world.tick)
  {
    hide RunOk, MoveOk, JointAfter, NotesAfter, RunsAfter, SemsOk, JointInv, Protocol, AllFit, Paired, Dispatched, Performed,
      Prepared, Nobody, Settles, Turned, Everybody;
    var j, n, rs := JointAfter(Empty(), ms), NotesAfter(Empty(), Notes(map[], map[]), ms), RunsAfter(Empty(), map[], ms);
    CooperationBegins(code);
    NoSems();
    CooperativeRun(Empty(), Notes(map[], map[]), ms, code);
    SemsInRuns(Empty(), Notes(map[], map[]), map[], ms, code);
    Caller(j, n, m, code);
    FewProcesses(j, n, code);
    MoveEnabled(j, m, code);
    CallSettles(n, rs, j.kernel, Dispatched(j.world, m.event.pick), code);
    Turns(j, m);
  }

  lemma NoSems()
    ensures SemsOk(map[], Kernel(map[], map[]))
  {
  }
}
