/** The runtime's loop with its calls carried out on the message queues and semaphores. */
module JointRuntime {
  import opened Proc
  import opened Sched
  import opened Accounting
  import opened TickSpec
  import opened TickFacts
  import opened TickWork
  import opened Pairing
  import opened Cooperation
  import R = Runtime
  import Q = Ipc
  import S = Sync

  /** Runtime, queues and semaphores as one state. */
  ghost function Both(rt: R.Runtime, ipc: Q.Ipc, sync: S.Table): Joint
    requires rt.Valid() && ipc.Valid()
    reads rt, rt.sched, rt.table, ipc, sync
  {
    Joint(rt.Shown(), Shown(ipc, sync))
  }

  /** The world at the instruction: who runs, and that calls wake legally. */
  lemma AtInstruction(j: Joint, pick: int)
    requires JointInv(j) && !Nobody(Prepared(j.world)) && (Prepared(j.world).current < 0 ==> MayRun(Prepared(j.world), pick))
    ensures var d := Dispatched(j.world, pick);
            && Good(d) && Executing(d) && d.ps[d.current].state == Running && Paired(j.kernel, d.ps)
            && Good(d.(calls := d.calls + 1))
  {
    hide Sound, Prepared, Nobody, MayRun, Dispatched, Lists, ListAt;
    GoodDispatched(j.world, pick);
    var d := Dispatched(j.world, pick);
    CountedGood(d);
    GoodExecuting(d);
    forall b, p | On(j.kernel, b, p)
      ensures 0 <= p < |d.ps| && Parked(d.ps[p])
    {
      DispatchLeaves(j.world, pick, p);
    }
  }

  /** What a pass does to both sides, given the answer to its call. */
  lemma PassApplies(j: Joint, pick: int, op: Op, a: Answer)
    requires !Nobody(Prepared(j.world)) && Executing(Dispatched(j.world, pick))
    ensures var m, d := Move(Pass(pick, a), op), Dispatched(j.world, pick);
            && JointApply(j, m) == Joint(Executed(d.(calls := d.calls + 1), a),
                                         if Next(d.ss[d.current]).Calls? then Performed(j.kernel, d.current, op).0 else j.kernel)
            && (MakesCall(j.world, m.event) <==> Next(d.ss[d.current]).Calls?)
  {
    hide Prepared, Nobody, Dispatched, Performed, Executed, Next;
  }

  /** The answer that the kernel gives. */
  ghost predicate Fitting(j: Joint, d: World, op: Op, a: Answer)
    requires Executing(d)
  {
    a.outcome == if Next(d.ss[d.current]).Calls? then Performed(j.kernel, d.current, op).1 else Done(-1)
  }

  /** A pass that is answered so is a move of the joint machine. */
  lemma PassMove(j: Joint, pick: int, op: Op, a: Answer, code: Code)
    requires JointInv(j) && !Nobody(Prepared(j.world)) && (Prepared(j.world).current < 0 ==> MayRun(Prepared(j.world), pick))
    requires var d := Dispatched(j.world, pick); Executing(d) && Fitting(j, d, op, a) && op == code(d.current, d.ss[d.current].pc)
    ensures var m := Move(Pass(pick, a), op); MoveOk(j, m, code) && JointInv(JointApply(j, m))
  {
    hide Good, Prepared, Nobody, MayRun, Dispatched, Performed, Paired, JointInv, JointApply, MakesCall, Next;
    PassApplies(j, pick, op, a);
    JointStep(j, Move(Pass(pick, a), op));
  }

  lemma IdleMove(j: Joint, m: Move, code: Code)
    requires JointInv(j) && Nobody(Prepared(j.world)) && m.event.Pass? && m.event.answer.outcome == Done(-1)
    ensures MoveOk(j, m, code) && JointInv(JointApply(j, m))
    ensures |Prepared(j.world).blocked| == |Prepared(j.world).ps|
    ensures JointApply(j, m) == Joint(Idled(Prepared(j.world)), j.kernel)
  {
    GoodPrepared(j.world);
    GoodSizes(Prepared(j.world));
    hide Good, Prepared, Nobody, Idled, Paired, JointInv;
    JointStep(j, m);
  }

  /** A call of the running process, carried out. */
  method Answered(rt: R.Runtime, ipc: Q.Ipc, sync: S.Table, code: Code, timer: bool) returns (a: Answer, ghost op: Op)
    requires rt.Valid() && ipc.Valid() && sync.Valid() && 0 <= rt.current && Paired(Shown(ipc, sync), rt.table.procs)
    modifies ipc, sync
    ensures ipc.Valid() && sync.Valid() && Executing(rt.Shown()) && a.timer == timer && Legal(a.outcome, rt.table.procs)
    ensures var s := rt.slots[rt.current];
            && op == code(rt.current, s.pc)
            && if Next(s).Calls? then (Shown(ipc, sync), a.outcome) == Performed(old(Shown(ipc, sync)), rt.current, op)
               else Shown(ipc, sync) == old(Shown(ipc, sync)) && a.outcome == Done(-1)
  {
    hide Sound, R.HeapOk, Performed, Paired, Shown, Views, Q.QueueOk;
    GoodExecuting(rt.Shown());
    var s := rt.slots[rt.current];
    op := code(rt.current, s.pc);
    a := Answer(Done(-1), timer);
    if s.pc < |s.insns| && s.insns[s.pc] == Call {
      CallStep(rt.Shown(), Shown(ipc, sync), code(rt.current, s.pc));
      var o := Perform(ipc, sync, rt.current, code(rt.current, s.pc));
      a := Answer(o, timer);
    }
  }

  /** The rest of a pass, once somebody is dispatched: j is the state before the pass. */
  method ExecuteBoth(rt: R.Runtime, ipc: Q.Ipc, sync: S.Table, code: Code, timer: bool, ghost j: Joint, ghost pick: int)
    returns (ghost m: Move)
    requires rt.Valid() && ipc.Valid() && sync.Valid() && 0 <= rt.current && Shown(ipc, sync) == j.kernel
    requires JointInv(j) && !Nobody(Prepared(j.world)) && (Prepared(j.world).current < 0 ==> MayRun(Prepared(j.world), pick))
    requires rt.Shown() == Dispatched(j.world, pick)
    modifies rt, rt.table, rt.sched, ipc, sync
    ensures rt.Valid() && ipc.Valid() && sync.Valid()
    ensures m.event.Pass? && MoveOk(j, m, code) && JointInv(JointApply(j, m)) && Both(rt, ipc, sync) == JointApply(j, m)
  {
    hide Sound, CurrentOk, R.HeapOk, Prepared, Nobody, MayRun, Dispatched, Executed, Performed, Paired, JointInv, MoveOk,
      JointApply, Shown;
    AtInstruction(j, pick);
    var a;
    ghost var op;
    a, op := Answered(rt, ipc, sync, code, timer);
    PassMove(j, pick, op, a, code);
    PassApplies(j, pick, op, a);
    m := Move(Pass(pick, a), op);
    rt.calls := rt.calls + 1;
    rt.Execute(a);
  }

  /** One pass of the loop in runtime_step: a move of the joint machine. */
  method PassBoth(rt: R.Runtime, ipc: Q.Ipc, sync: S.Table, code: Code, timer: bool) returns (ghost m: Move)
    requires rt.Valid() && ipc.Valid() && sync.Valid() && JointInv(Both(rt, ipc, sync))
    modifies rt, rt.table, rt.sched, ipc, sync
    ensures rt.Valid() && ipc.Valid() && sync.Valid() && JointInv(Both(rt, ipc, sync))
    ensures m.event.Pass? && MoveOk(old(Both(rt, ipc, sync)), m, code)
    ensures Both(rt, ipc, sync) == JointApply(old(Both(rt, ipc, sync)), m)
  {
    hide Sound, CurrentOk, R.HeapOk, Prepared, Nobody, MayRun, Dispatched, JointInv, MoveOk, JointApply, Shown, Idled;
    ghost var j := Both(rt, ipc, sync);
    ghost var pick;
    var ok;
    ok, pick := rt.Select();
    if ok {
      m := ExecuteBoth(rt, ipc, sync, code, timer, j, pick);
    } else {
      m := Move(Pass(-1, Answer(Done(-1), timer)), Memory(Fine));
      IdleMove(j, m, code);
      IdleForgets(Prepared(j.world));
      rt.IdleOneTick();
    }
  }

  lemma IdleForgets(w: World)
    requires |w.blocked| == |w.ps|
    ensures Idled(w.(known := -1, consumed := 0)) == Idled(w)
  {
  }

  /** n passes are a run of the joint machine: what is proved of every such run holds of these objects. */
  method WorkBoth(rt: R.Runtime, ipc: Q.Ipc, sync: S.Table, n: nat, code: Code, timer: nat -> bool) returns (ghost ms: seq<Move>)
    requires rt.Valid() && ipc.Valid() && sync.Valid() && JointInv(Both(rt, ipc, sync))
    modifies rt, rt.table, rt.sched, ipc, sync
    ensures rt.Valid() && ipc.Valid() && sync.Valid() && JointInv(Both(rt, ipc, sync))
    ensures |ms| == n && RunOk(old(Both(rt, ipc, sync)), ms, code)
    ensures Both(rt, ipc, sync) == JointAfter(old(Both(rt, ipc, sync)), ms)
  {
    hide Sound, CurrentOk, R.HeapOk, JointInv, MoveOk, JointApply, JointAfter, RunOk, Shown;
    ghost var j := Both(rt, ipc, sync);
    ms := [];
    RunNothing(j, code);
    var i := 0;
    while i < n
      invariant 0 <= i <= n && |ms| == i && rt.Valid() && ipc.Valid() && sync.Valid() && JointInv(Both(rt, ipc, sync))
      invariant RunOk(j, ms, code) && Both(rt, ipc, sync) == JointAfter(j, ms)
    {
      ghost var m := PassBoth(rt, ipc, sync, code, timer(i));
      RunMore(j, ms, m, code);
      ms := ms + [m];
      i := i + 1;
    }
  }
}
