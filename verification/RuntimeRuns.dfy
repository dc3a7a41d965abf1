/** Whole sessions with the runtime. */
module RuntimeRuns {
  import opened Proc
  import opened Sched
  import opened Accounting
  import opened TickSpec
  import opened TickFacts
  import opened TickWork
  import opened TickOrder
  import opened TickRobin
  import opened TickAging
  import opened TickRounds
  import R = Runtime

  /** What a user of the runtime can ask for. */
  datatype Command =
    | Start(insns: seq<Insn>, priority: int)
    | Advance(ticks: nat)
    | Stop(pid: int)
    | Policy(algo: Algo)
    | Quantum(ticks: nat)
    | Yield

  /** The events es are what the command leads to from w, with env answering. */
  ghost predicate Obeys(env: (nat, seq<Pcb>) -> Answer, w: World, c: Command, es: seq<Event>) {
    match c
    case Start(insns, priority) => es == [Launch(insns, priority)]
    case Advance(n) => Rounds(env, w, n, es)
    case Stop(pid) => es == [Kill(pid)]
    case Policy(algo) => es == [Choose(algo)]
    case Quantum(n) => es == [Slice(n)]
    case Yield => es == [Resched]
  }

  ghost predicate Follows(env: (nat, seq<Pcb>) -> Answer, w: World, cmds: seq<Command>, es: seq<Event>) {
    if cmds == [] then es == []
    else
      var n := |cmds| - 1;
      exists k :: 0 <= k <= |es| && Follows(env, w, cmds[..n], es[..k]) && Obeys(env, After(w, es[..k]), cmds[n], es[k..])
  }

  lemma FollowsOn(env: (nat, seq<Pcb>) -> Answer, w: World, cmds: seq<Command>, es: seq<Event>, c: Command, fs: seq<Event>)
    requires Follows(env, w, cmds, es) && Obeys(env, After(w, es), c, fs)
    ensures Follows(env, w, cmds + [c], es + fs)
  {
    hide Obeys, After;
    var cmds', es' := cmds + [c], es + fs;
    assert cmds'[..|cmds|] == cmds && es'[..|es|] == es && es'[|es|..] == fs;
  }

  /** One command. */
  method Obey(rt: R.Runtime, c: Command, env: (nat, seq<Pcb>) -> Answer) returns (ghost es: seq<Event>)
    requires rt.Valid() && forall k, ps :: Legal(env(k, ps).outcome, ps)
    modifies rt, rt.table, rt.sched
    ensures rt.Valid() && Possible(old(rt.Shown()), es) && rt.Shown() == After(old(rt.Shown()), es)
    ensures Obeys(env, old(rt.Shown()), c, es)
  {
    hide Sound, CurrentOk, R.HeapOk, Enabled, Apply, After, Possible, Rounds;
    ghost var w := rt.Shown();
    match c {
      case Start(insns, priority) =>
        var pid := rt.RunWorkload(insns, priority);
        es := [Launch(insns, priority)];
      case Advance(ticks) =>
        es := rt.Step(ticks, env);
      case Stop(pid) =>
        var ok := rt.Kill(pid);
        es := [Kill(pid)];
      case Policy(algo) =>
        rt.SetScheduler(algo);
        es := [Choose(algo)];
      case Quantum(ticks) =>
        rt.SetQuantum(ticks);
        es := [Slice(ticks)];
      case Yield =>
        rt.Yield();
        es := [Resched];
    }
    if !c.Advance? {
      JustOne(w, es[0]);
      Requested(w, es[0]);
    }
  }

  lemma Requested(w: World, e: Event)
    requires !e.Pass?
    ensures Enabled(w, e)
    ensures Apply(w, e) ==
            match e
            case Launch(insns, priority) => Launched(w, insns, priority)
            case Kill(pid) => Killed(w, pid)
            case Choose(algo) => WithPolicy(w, algo)
            case Slice(n) => w.(quantum := AtLeastOne(n))
            case _ => w.(needResched := true)
  {
  }

  // ----- what a session promises -----

  /** The ticks asked for. */
  function Asked(cmds: seq<Command>): nat {
    if cmds == [] then 0
    else Asked(cmds[..|cmds| - 1]) + if cmds[|cmds| - 1].Advance? then cmds[|cmds| - 1].ticks else 0
  }

  /** Twice the instructions launched, plus the launches. */
  function Load(cmds: seq<Command>): nat {
    if cmds == [] then 0
    else Load(cmds[..|cmds| - 1]) + if cmds[|cmds| - 1].Start? then 2 * |cmds[|cmds| - 1].insns| + 1 else 0
  }

  lemma LaunchLoad(w: World, insns: seq<Insn>, priority: int)
    requires Good(w)
    ensures var r := Launched(w, insns, priority);
            |w.ps| == |w.ss| && |r.ps| == |r.ss| && BoundOf(r) <= BoundOf(w) + 2 * |insns| + 1 && r.tick == w.tick
  {
    GoodSizes(w);
    var r := Launched(w, insns, priority);
    if |w.ps| < MAX_PROCS {
      assert r.ps[..|w.ps|] == w.ps && r.ss[..|w.ss|] == w.ss;
    }
  }

  lemma KillLoad(w: World, pid: int)
    requires Good(w)
    ensures var r := Killed(w, pid); |w.ps| == |w.ss| && |r.ps| == |r.ss| && BoundOf(r) <= BoundOf(w) && r.tick == w.tick
  {
    GoodSizes(w);
    hide LinedUpTo, Sound;
    var r := Killed(w, pid);
    BoundShrinks(w.ps, w.ss, r.ps, r.ss);
  }

  /** What a command can do to the clock and to the work left. */
  lemma CommandTicks(env: (nat, seq<Pcb>) -> Answer, w: World, c: Command, es: seq<Event>)
    requires Good(w) && Obeys(env, w, c, es)
    ensures var r, n := After(w, es), if c.Advance? then c.ticks else 0;
            && |w.ps| == |w.ss| && |r.ps| == |r.ss| && Good(r) && Possible(w, es)
            && r.tick <= w.tick + n && (BoundOf(w) < MAX_GUARD ==> r.tick == w.tick + n)
            && BoundOf(r) <= BoundOf(w) + if c.Start? then 2 * |c.insns| + 1 else 0
  {
    hide Good, Rounds, After, Possible, Bound, Launched, Killed, Enabled, LinedUpTo;
    GoodSizes(w);
    if c.Advance? {
      RoundsConsume(env, w, c.ticks, es);
    } else {
      JustOne(w, es[0]);
      Requested(w, es[0]);
      GoodApply(w, es[0]);
      if c.Start? {
        LaunchLoad(w, c.insns, c.priority);
      } else if c.Stop? {
        KillLoad(w, c.pid);
      }
    }
  }

  /** A session consumes at most the ticks asked for, and exactly these if little enough was launched. */
  lemma {:induction false} SessionTicks(env: (nat, seq<Pcb>) -> Answer, cmds: seq<Command>, es: seq<Event>)
    requires Follows(env, Begin(), cmds, es)
    ensures var r := After(Begin(), es);
            && Possible(Begin(), es) && Good(r) && |r.ps| == |r.ss| && BoundOf(r) <= Load(cmds)
            && r.tick <= Asked(cmds) && (Load(cmds) < MAX_GUARD ==> r.tick == Asked(cmds))
  {
    hide Good, Obeys, After, Possible, Bound;
    if cmds == [] {
      Nothing(Begin());
      BeginGood();
      NoLoad();
    } else {
      var n := |cmds| - 1;
      var k :| 0 <= k <= |es| && Follows(env, Begin(), cmds[..n], es[..k]) && Obeys(env, After(Begin(), es[..k]), cmds[n], es[k..]);
      SessionTicks(env, cmds[..n], es[..k]);
      CommandTicks(env, After(Begin(), es[..k]), cmds[n], es[k..]);
      GoOn(Begin(), es[..k], es[k..]);
      assert es[..k] + es[k..] == es;
    }
  }

  lemma NoLoad()
    ensures BoundOf(Begin()) == 0
  {
  }

  /** Which events a session is made of. */
  lemma {:induction false} SessionEvents(env: (nat, seq<Pcb>) -> Answer, cmds: seq<Command>, es: seq<Event>, k: nat)
    requires Follows(env, Begin(), cmds, es) && k < |es|
    ensures es[k].Kill? ==> exists c :: c in cmds && c.Stop?
    ensures es[k].Choose? ==> exists c :: c in cmds && c.Policy?
    ensures es[k].Slice? ==> exists c :: c in cmds && c.Quantum?
  {
    hide Rounds, After;
    var n := |cmds| - 1;
    var m :| 0 <= m <= |es| && Follows(env, Begin(), cmds[..n], es[..m]) && Obeys(env, After(Begin(), es[..m]), cmds[n], es[m..]);
    if k < m {
      SessionEvents(env, cmds[..n], es[..m], k);
    } else {
      assert es[k] == es[m..][k - m] && cmds[n] in cmds;
      if cmds[n].Advance? {
        RoundsPass(env, After(Begin(), es[..m]), cmds[n].ticks, es[m..], k - m);
      }
    }
  }

  lemma {:induction false} RoundsPass(env: (nat, seq<Pcb>) -> Answer, w: World, n: nat, es: seq<Event>, i: nat)
    requires Rounds(env, w, n, es) && i < |es|
    ensures es[i].Pass?
  {
    hide After, AnsweredBy, Possible;
    var k :| 0 <= k <= |es| && Rounds(env, w, n - 1, es[..k]) && Round(env, After(w, es[..k]), es[k..]);
    if i < k {
      RoundsPass(env, w, n - 1, es[..k], i);
    } else {
      assert es[i] == es[k..][i - k];
    }
  }

  /** Policy and quantum stay as they are, and nobody is ended. */
  predicate Plain(cmds: seq<Command>) {
    forall c :: c in cmds ==> c.Start? || c.Advance? || c.Yield?
  }

  /** In a plain session, which runs under round robin with quantum 10, nobody waits for more than a quantum for every
      process. */
  lemma PlainSession(env: (nat, seq<Pcb>) -> Answer, cmds: seq<Command>, es: seq<Event>, p: int)
    requires Follows(env, Begin(), cmds, es) && Possible(Begin(), es) && Plain(cmds)
    ensures var r := After(Begin(), es);
            r.algo == RoundRobin && (0 <= p < |r.ps| && r.ps[p].state == Ready ==> r.tick <= r.ps[p].lastReady + 10 * |r.ps|)
  {
    hide Follows, Possible, After, Sound, CurrentOk;
    forall k | 0 <= k < |es|
      ensures es[k].Pass? || es[k].Launch? || es[k].Resched?
    {
      SessionEvents(env, cmds, es, k);
    }
    BeginGood();
    StaysPrompt(Begin(), es);
    GoodAfter(Begin(), es);
    var r := After(Begin(), es);
    if 0 <= p < |r.ps| && r.ps[p].state == Ready {
      PromptMeans(r, p);
    }
  }

  /** As long as neither policy is changed nor a process ended, the line is in the order in which processes became READY. */
  lemma OrderlySession(env: (nat, seq<Pcb>) -> Answer, cmds: seq<Command>, es: seq<Event>)
    requires Follows(env, Begin(), cmds, es) && Possible(Begin(), es) && forall c :: c in cmds ==> !c.Stop? && !c.Policy?
    ensures InOrder(After(Begin(), es)) && After(Begin(), es).algo == RoundRobin
    ensures StartLog(Begin(), es) + After(Begin(), es).lines.line == JoinLog(Begin(), es)
  {
    hide Follows, Possible, After, Sound, CurrentOk, StartLog, JoinLog;
    forall k | 0 <= k < |es|
      ensures !es[k].Kill? && !es[k].Choose?
    {
      SessionEvents(env, cmds, es, k);
    }
    BeginGood();
    StaysInOrder(Begin(), es);
    ServedInOrder(Begin(), es);
    assert Begin().lines.line + JoinLog(Begin(), es) == JoinLog(Begin(), es);
  }

  lemma {:induction false} FirstCommand(env: (nat, seq<Pcb>) -> Answer, cmds: seq<Command>, es: seq<Event>)
    requires Follows(env, Begin(), cmds, es) && cmds != [] && cmds[0].Policy?
    ensures es != [] && es[0] == Choose(cmds[0].algo)
    ensures forall k :: 1 <= k < |es| && es[k].Choose? ==> exists c :: c in cmds[1..] && c.Policy?
    ensures forall k :: 0 <= k < |es| && es[k].Slice? ==> exists c :: c in cmds[1..] && c.Quantum?
    ensures forall k :: 0 <= k < |es| && es[k].Kill? ==> exists c :: c in cmds[1..] && c.Stop?
  {
    hide Rounds, After;
    var n := |cmds| - 1;
    var m :| 0 <= m <= |es| && Follows(env, Begin(), cmds[..n], es[..m]) && Obeys(env, After(Begin(), es[..m]), cmds[n], es[m..]);
    if n == 0 {
      assert es[..m] == [];
      assert es[m..] == es;
    } else {
      FirstCommand(env, cmds[..n], es[..m]);
      assert cmds[n] in cmds[1..] && cmds[..n][1..] == cmds[1..n];
      assert forall c :: c in cmds[1..n] ==> c in cmds[1..];
      forall k | m <= k < |es|
        ensures es[k].Choose? ==> cmds[n].Policy?
        ensures es[k].Slice? ==> cmds[n].Quantum?
        ensures es[k].Kill? ==> cmds[n].Stop?
      {
        assert es[k] == es[m..][k - m];
        if cmds[n].Advance? {
          RoundsPass(env, After(Begin(), es[..m]), cmds[n].ticks, es[m..], k - m);
        }
      }
    }
  }

  /** The same when the session begins by choosing a policy, as for FCFS it must; under MLFQ until the first boost. */
  lemma OrderlyPolicy(env: (nat, seq<Pcb>) -> Answer, cmds: seq<Command>, es: seq<Event>)
    requires Follows(env, Begin(), cmds, es) && Possible(Begin(), es) && cmds != [] && cmds[0].Policy?
    requires forall c :: c in cmds[1..] ==> !c.Stop? && !c.Policy?
    requires cmds[0].algo == Mlfq ==> After(Begin(), es).tick < BOOST_INTERVAL
    ensures es != [] && InOrder(After(Begin(), es)) && After(Begin(), es).algo == cmds[0].algo
    ensures OneLine(cmds[0].algo) ==>
              var w := WithPolicy(Begin(), cmds[0].algo);
              StartLog(w, es[1..]) + After(Begin(), es).lines.line == JoinLog(w, es[1..])
  {
    hide Follows, Possible, After, Sound, CurrentOk, StartLog, JoinLog;
    FirstCommand(env, cmds, es);
    var b, e := Begin(), es[0];
    BeginGood();
    assert es == [e] + es[1..];
    GoOn(b, [e], es[1..]);
    JustOne(b, e);
    var w := WithPolicy(b, cmds[0].algo);
    assert Good(w) && Apply(b, e) == w by {
      Requested(b, e);
      GoodApply(b, e);
    }
    StaysInOrder(w, es[1..]);
    if OneLine(w.algo) {
      ServedInOrder(w, es[1..]);
      assert w.lines.line + JoinLog(w, es[1..]) == JoinLog(w, es[1..]);
    }
  }

  /** In a session that begins by choosing the priority policy, and keeps it and the quantum, nobody waits for more than
      195 ticks and a quantum for every process, whoever is ended. */
  lemma PrioSession(env: (nat, seq<Pcb>) -> Answer, cmds: seq<Command>, es: seq<Event>, p: int)
    requires Follows(env, Begin(), cmds, es) && Possible(Begin(), es) && cmds != [] && cmds[0] == Policy(Prio)
    requires forall c :: c in cmds[1..] ==> !c.Policy? && !c.Quantum?
    ensures var r := After(Begin(), es);
            r.algo == Prio && (0 <= p < |r.ps| && r.ps[p].state == Ready ==> r.tick <= r.ps[p].lastReady + 195 + 10 * |r.ps|)
  {
    hide Follows, Possible, After, Sound, CurrentOk, Patient, Aged;
    FirstCommand(env, cmds, es);
    var b, e := Begin(), es[0];
    BeginGood();
    assert es == [e] + es[1..];
    GoOn(b, [e], es[1..]);
    JustOne(b, e);
    var w := Apply(b, e);
    assert Good(w) by {
      Requested(b, e);
      GoodApply(b, e);
    }
    StaysPatient(w, es[1..]);
    GoodAfter(w, es[1..]);
    var r := After(b, es);
    if 0 <= p < |r.ps| && r.ps[p].state == Ready {
      PatientMeans(r, 0, p);
    }
  }

  /** Any session, from the empty runtime on, is a history of the specification made of the commands in their order. It
      consumes the ticks asked for, idles only when nobody can run, keeps the order of the line, and lets nobody wait too
      long; the last two not across kills and policy changes, which put the line in slot order. */
  method Session(cmds: seq<Command>, env: (nat, seq<Pcb>) -> Answer) returns (rt: R.Runtime, ghost es: seq<Event>)
    requires forall k, ps :: Legal(env(k, ps).outcome, ps)
    ensures rt.Valid() && Possible(Begin(), es) && rt.Shown() == After(Begin(), es) && Follows(env, Begin(), cmds, es)
    ensures rt.tick <= Asked(cmds) && (Load(cmds) < MAX_GUARD ==> rt.tick == Asked(cmds))
    ensures rt.idle == IdlePasses(Begin(), es)
    ensures (forall c :: c in cmds ==> !c.Stop? && !c.Policy?) ==> ByTime(rt.sched.InLine().line, rt.table.procs)
    ensures cmds != [] && cmds[0] == Policy(Fcfs) && (forall c :: c in cmds[1..] ==> !c.Stop? && !c.Policy?) ==>
              ByTime(rt.sched.InLine().line, rt.table.procs)
    ensures Plain(cmds) ==>
              forall p :: 0 <= p < |rt.table.procs| && rt.table.procs[p].state == Ready ==>
                            rt.tick <= rt.table.procs[p].lastReady + 10 * |rt.table.procs|
    ensures cmds != [] && cmds[0] == Policy(Prio) && (forall c :: c in cmds[1..] ==> !c.Policy? && !c.Quantum?) ==>
              forall p :: 0 <= p < |rt.table.procs| && rt.table.procs[p].state == Ready ==>
                            rt.tick <= rt.table.procs[p].lastReady + 195 + 10 * |rt.table.procs|
  {
    hide Sound, CurrentOk, R.HeapOk, After, Possible, Follows, InOrder, ByTime, Plain, Asked, Load, IdlePasses;
    rt, es := RunAll(cmds, env);
    ghost var r := rt.Shown();
    SessionTicks(env, cmds, es);
    BeginGood();
    NoIdleWaste(Begin(), es);
    if forall c :: c in cmds ==> !c.Stop? && !c.Policy? {
      OrderlySession(env, cmds, es);
      LineByTime(r);
    }
    if cmds != [] && cmds[0] == Policy(Fcfs) && (forall c :: c in cmds[1..] ==> !c.Stop? && !c.Policy?) {
      OrderlyPolicy(env, cmds, es);
      LineByTime(r);
    }
    forall p | 0 <= p < |r.ps| && r.ps[p].state == Ready
      ensures Plain(cmds) ==> r.tick <= r.ps[p].lastReady + 10 * |r.ps|
      ensures cmds != [] && cmds[0] == Policy(Prio) && (forall c :: c in cmds[1..] ==> !c.Policy? && !c.Quantum?) ==>
                r.tick <= r.ps[p].lastReady + 195 + 10 * |r.ps|
    {
      if Plain(cmds) {
        PlainSession(env, cmds, es, p);
      }
      if cmds != [] && cmds[0] == Policy(Prio) && (forall c :: c in cmds[1..] ==> !c.Policy? && !c.Quantum?) {
        PrioSession(env, cmds, es, p);
      }
    }
  }

  /** The commands one after the other. */
  method RunAll(cmds: seq<Command>, env: (nat, seq<Pcb>) -> Answer) returns (rt: R.Runtime, ghost es: seq<Event>)
    requires forall k, ps :: Legal(env(k, ps).outcome, ps)
    ensures rt.Valid() && Possible(Begin(), es) && rt.Shown() == After(Begin(), es) && Follows(env, Begin(), cmds, es)
  {
    hide Sound, CurrentOk, R.HeapOk, After, Possible, Follows, Obeys;
    rt := new R.Runtime();
    es := [];
    Nothing(Begin());
    FollowsNothing(env);
    var i := 0;
    while i < |cmds|
      invariant 0 <= i <= |cmds| && fresh(rt) && fresh(rt.table) && fresh(rt.sched)
      invariant rt.Valid() && Possible(Begin(), es) && rt.Shown() == After(Begin(), es) && Follows(env, Begin(), cmds[..i], es)
    {
      ghost var fs := Obey(rt, cmds[i], env);
      FollowsOn(env, Begin(), cmds[..i], es, cmds[i], fs);
      assert cmds[..i + 1] == cmds[..i] + [cmds[i]];
      GoOn(Begin(), es, fs);
      es := es + fs;
      i := i + 1;
    }
    assert cmds[..i] == cmds;
  }

  lemma FollowsNothing(env: (nat, seq<Pcb>) -> Answer)
    ensures Follows(env, Begin(), [], [])
  {
  }
}
