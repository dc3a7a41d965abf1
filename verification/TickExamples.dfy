/** Reachable histories in which the runtime does less than it promises, one family for each promise that fails. */
module TickExamples {
  import opened Proc
  import opened Sched
  import opened Accounting
  import opened TickSpec
  import opened TickFacts
  import opened TickWork
  import opened TickOrder
  import opened TickRobin
  import opened TickKills
  import opened TickLevels

  /** The environment has nothing to say: no timer, nobody woken. */
  ghost function Quiet(): Answer {
    Answer(Done(-1), false)
  }

  /** Nobody sleeps until a set time. */
  ghost predicate Awake(ps: seq<Pcb>) {
    forall p :: 0 <= p < |ps| && ps[p].state == Blocked ==> ps[p].wakeup == 0
  }

  // ----- a pass without surprises -----

  lemma {:induction false} NobodyDue(w: World, n: nat)
    requires Awake(w.ps) && n <= |w.ps|
    ensures WokenUpTo(w, n) == w
  {
    if 0 < n {
      NobodyDue(w, n - 1);
    }
  }

  lemma QuietPrepared(w: World)
    requires w.algo == RoundRobin && Awake(w.ps)
    ensures Prepared(w) == w
  {
    NobodyDue(w, |w.ps|);
  }

  lemma HeadMayRun(w: World)
    requires Good(w) && OneLine(w.algo) && w.lines.line != []
    ensures MayRun(w, w.lines.line[0]) && w.lines.line[0] in ReadySet(w.ps)
  {
    GoodLine(w);
    assert w.lines.line[0] in w.lines.line;
  }

  /** Under round robin, with nobody asleep, a pass is a dispatch, if need be, and an instruction. */
  lemma QuietPass(w: World, pick: int, a: Answer)
    requires Good(w) && w.algo == RoundRobin && Awake(w.ps) && Legal(a.outcome, w.ps)
    requires w.current < 0 ==> w.lines.line != [] && w.lines.line[0] == pick
    ensures Enabled(w, Pass(pick, a)) && !Nobody(Prepared(w))
    ensures var d := if w.current < 0 && 0 <= pick < |w.ps| then Chosen(w, pick) else w;
            && Executing(d) && d == Dispatched(w, pick) && Starts(w, Pass(pick, a)) == (if w.current < 0 then [pick] else [])
            && Passed(w, pick, a) == Executed(d.(calls := d.calls + 1), a)
  {
    hide Good, Prepared, MayRun, Executed, Awake;
    QuietPrepared(w);
    if w.current < 0 {
      HeadMayRun(w);
    }
    GoodDispatched(w, pick);
    CountedGood(Dispatched(w, pick));
  }

  // ----- a turn of round robin -----

  /** From w to r nothing happens to anybody but h, and n ticks pass. */
  ghost predicate Meanwhile(w: World, r: World, h: int, n: nat) {
    && Good(r) && r.algo == w.algo && r.quantum == w.quantum && !r.needResched && Awake(r.ps) && r.tick == w.tick + n
    && |r.ps| == |w.ps| && |r.ss| == |w.ss|
    && (forall x :: 0 <= x < |w.ss| && x != h ==> r.ss[x] == w.ss[x])
    && forall x :: 0 <= x < |w.ps| && x != h && w.ps[x].state == Ready ==>
                     r.ps[x].state == Ready && r.ps[x].lastReady == w.ps[x].lastReady
  }

  lemma MeanwhileQuantum(w: World, r: World, h: int, n: nat)
    requires Meanwhile(w, r, h, n)
    ensures r.quantum == w.quantum && |r.ss| == |w.ss|
  {
  }

  lemma MeanwhileBoth(w: World, v: World, r: World, h: int, m: nat, n: nat)
    requires Meanwhile(w, v, h, m) && Meanwhile(v, r, h, n)
    ensures Meanwhile(w, r, h, m + n)
  {
  }

  /** The process h is running, c ticks into its quantum, with CPU work for more than m ticks. */
  ghost predicate InTurn(w: World, h: int, c: nat, m: nat) {
    && Good(w) && w.algo == RoundRobin && Awake(w.ps) && !w.needResched
    && w.current == h == w.known && 0 <= h < |w.ps| == |w.ss| && w.consumed == c < w.quantum && Crunching(w.ss[h], m)
  }

  /** It keeps the CPU until its quantum is used up, and then goes to the end of the line. */
  ghost predicate TurnOn(w: World, r: World, h: int, c: nat, m: nat) {
    if c < w.quantum then InTurn(r, h, c, m) && r.lines.line == w.lines.line
    else r.current == -1 && r.lines.line == w.lines.line + [h] && 0 <= h < |r.ss| && Crunching(r.ss[h], m)
  }

  lemma TurnTick(w: World, h: int, c: nat, m: nat)
    requires InTurn(w, h, c, m + 1)
    ensures Executing(w)
    ensures var r := Executed(w.(calls := w.calls + 1), Quiet()); Meanwhile(w, r, h, 1) && TurnOn(w, r, h, c + 1, m)
  {
    hide Good, Crunching;
    var w' := w.(calls := w.calls + 1);
    CountedGood(w);
    GoodExecuting(w');
    GoodExecuted(w', Quiet());
    CrunchTick(w.ss[h], m);
    CrunchBurst(w.ss[h], m + 1);
  }

  lemma {:induction false} RestOfTurn(w: World, h: int, c: nat, m: nat) returns (es: seq<Event>)
    requires c < w.quantum && InTurn(w, h, c, m + (w.quantum - c))
    ensures Possible(w, es) && Calm(es) && StartLog(w, es) == []
    ensures Meanwhile(w, After(w, es), h, w.quantum - c) && TurnOn(w, After(w, es), h, w.quantum, m)
    decreases w.quantum - c
  {
    hide Sound, CurrentOk, Crunching, Enabled, Passed, Starts;
    var e := Pass(h, Quiet());
    QuietPass(w, h, Quiet());
    TurnTick(w, h, c, m + (w.quantum - c - 1));
    var r := Apply(w, e);
    JustOne(w, e);
    if c + 1 < w.quantum {
      var fs := RestOfTurn(r, h, c + 1, m);
      es := [e] + fs;
      GoOn(w, [e], fs);
      LogOn(w, [e], fs);
      MeanwhileBoth(w, r, After(r, fs), h, 1, w.quantum - c - 1);
    } else {
      es := [e];
    }
  }

  lemma {:induction false} LogOn(w: World, es: seq<Event>, fs: seq<Event>)
    ensures StartLog(w, es + fs) == StartLog(w, es) + StartLog(After(w, es), fs)
  {
    hide Apply, Starts;
    if fs == [] {
      assert es + fs == es;
    } else {
      var k := |fs| - 1;
      LogOn(w, es, fs[..k]);
      GoOn(w, es, fs[..k]);
      assert (es + fs)[..|es + fs| - 1] == es + fs[..k];
    }
  }

  lemma TurnStarts(w: World, h: int, m: nat)
    requires Good(w) && w.algo == RoundRobin && Awake(w.ps) && !w.needResched && w.current == -1
    requires w.lines.line != [] && w.lines.line[0] == h && 0 <= h < |w.ss| && Crunching(w.ss[h], m)
    ensures h < |w.ps|
    ensures var d := Chosen(w, h);
            InTurn(d, h, 0, m) && Meanwhile(w, d, h, 0) && d.lines.line == w.lines.line[1..] && d.quantum == w.quantum
  {
    GoodLine(w);
    SizeOk(w);
    assert h in w.lines.line;
    GoodChosen(w, h);
    hide Sound, Crunching;
  }

  lemma TurnBegins(w: World, h: int, m: nat)
    requires Good(w) && w.algo == RoundRobin && Awake(w.ps) && !w.needResched && w.current == -1
    requires w.lines.line != [] && w.lines.line[0] == h && 0 <= h < |w.ss| && Crunching(w.ss[h], m + 1)
    ensures Enabled(w, Pass(h, Quiet())) && h < |w.ps|
    ensures var d, r := Chosen(w, h), Apply(w, Pass(h, Quiet()));
            && Meanwhile(w, r, h, 1) && TurnOn(d, r, h, 1, m) && d.lines.line == w.lines.line[1..] && d.quantum == w.quantum
  {
    hide Good, Crunching, Awake, Enabled, Executed, Passed, Chosen, Meanwhile, TurnOn, InTurn, Starts;
    TurnStarts(w, h, m + 1);
    QuietPass(w, h, Quiet());
    TurnTick(Chosen(w, h), h, 0, m);
    MeanwhileBoth(w, Chosen(w, h), Passed(w, h, Quiet()), h, 0, 1);
  }

  /** A whole turn of the process at the head of the line. */
  lemma Turn(w: World, h: int, m: nat) returns (es: seq<Event>)
    requires Good(w) && w.algo == RoundRobin && Awake(w.ps) && !w.needResched && w.current == -1
    requires w.lines.line != [] && w.lines.line[0] == h && 0 <= h < |w.ss| && Crunching(w.ss[h], m + w.quantum)
    ensures Possible(w, es) && Calm(es)
    ensures var r := After(w, es);
            && Meanwhile(w, r, h, w.quantum) && r.current == -1 && r.lines.line == w.lines.line[1..] + [h]
            && Crunching(r.ss[h], m)
  {
    hide Good, Crunching, Enabled, Passed, Chosen, Awake, InTurn, Meanwhile, Starts, Calm;
    QuantumOk(w);
    TurnBegins(w, h, m + (w.quantum - 1));
    var e := Pass(h, Quiet());
    var r := Apply(w, e);
    JustOne(w, e);
    MeanwhileQuantum(w, r, h, 1);
    if 1 < w.quantum {
      var fs := RestOfTurn(r, h, 1, m);
      es := [e] + fs;
      GoOn(w, [e], fs);
      MeanwhileBoth(w, r, After(r, fs), h, 1, w.quantum - 1);
      CalmOn(h, fs);
    } else {
      es := [e];
      CalmOn(h, []);
      assert [e] + [] == [e];
    }
  }

  lemma CalmOn(h: int, fs: seq<Event>)
    requires Calm(fs)
    ensures Calm([Pass(h, Quiet())] + fs)
  {
  }

  // ----- ending processes lets others overtake -----

  /** The numbers from i to m, followed by those below i. */
  ghost function Rotation(m: nat, i: nat): (r: seq<int>)
    requires i <= m
    ensures |r| == m + 1 && r[0] == i
  {
    seq(m + 1, x requires 0 <= x < m + 1 => if x + i <= m then x + i else x + i - m - 1)
  }

  lemma RotationHolds(m: nat, i: nat)
    requires i <= m
    ensures forall x :: x in Rotation(m, i) <==> 0 <= x <= m
  {
    var r := Rotation(m, i);
    forall x | 0 <= x <= m
      ensures x in r
    {
      assert r[if i <= x then x - i else x - i + m + 1] == x;
    }
  }

  lemma Rotates(m: nat, i: nat)
    requires i < m
    ensures Rotation(m, i)[1..] + [i] == Rotation(m, i + 1)
  {
  }

  /** Under round robin with quantum 10, the process in slot m waits since tick 0 and has not run; the m before it have CPU work,
      those below i for more than c ticks and the others for more than c + 10. */
  ghost predicate Row(w: World, m: nat, i: nat, c: nat) {
    && Good(w) && w.algo == RoundRobin && w.quantum == 10 && Awake(w.ps) && !w.needResched && w.current == -1
    && i <= m < |w.ps| == |w.ss| && w.lines.line == Rotation(m, i) && w.ps[m].state == Ready && w.ps[m].lastReady == 0
    && forall x :: 0 <= x < m ==> Crunching(w.ss[x], if x < i then c else c + 10)
  }

  /** One turn after the other, until everybody but the process in slot m has had one. */
  lemma {:induction false} RestOfRow(w: World, m: nat, i: nat, c: nat) returns (es: seq<Event>)
    requires Row(w, m, i, c)
    ensures Possible(w, es) && Calm(es)
    ensures var r := After(w, es); Row(r, m, m, c) && |r.ps| == |w.ps| && r.tick == w.tick + 10 * (m - i)
    decreases m - i
  {
    hide Sound, CurrentOk, Possible, Crunching, Awake, After, Rotation, Calm;
    Nothing(w);
    es := [];
    CalmNothing();
    if i < m {
      var fs := Turn(w, i, c);
      var v := After(w, fs);
      Rotates(m, i);
      assert Row(v, m, i + 1, c);
      var gs := RestOfRow(v, m, i + 1, c);
      es := fs + gs;
      GoOn(w, fs, gs);
      CalmBoth(fs, gs);
    }
  }

  lemma CalmNothing()
    ensures Calm([])
  {
  }

  lemma CalmBoth(fs: seq<Event>, gs: seq<Event>)
    requires Calm(fs) && Calm(gs)
    ensures Calm(fs + gs)
  {
  }

  /** A process is launched and ended at once: the line is in slot order again. */
  lemma Disturbed(w: World, m: nat, c: nat)
    requires Row(w, m, m, c + 10) && |w.ps| < MAX_PROCS
    ensures var r := Killed(Launched(w, [], 0), |w.ps|); Row(r, m, 0, c) && |r.ps| == |w.ps| + 1 && r.tick == w.tick
  {
    hide Good, LinedUpTo, Crunching, Except, Rotation;
    var n := |w.ps|;
    var v := Launched(w, [], 0);
    GoodLaunched(w, [], 0);
    GoodKilled(v, n);
    SlotOrderAgain(v, m, n);
  }

  lemma SlotOrderAgain(w: World, m: nat, n: nat)
    requires Good(w) && w.algo == RoundRobin && m < n && Live(w, n) && w.lines.line == Rotation(m, m) + [n]
    ensures Killed(w, n).lines.line == Rotation(m, 0)
  {
    hide Good, Killed, Except;
    KilledLine(w, n);
    ExceptIs(w.lines.line, n);
    RotationHolds(m, m);
    RotationHolds(m, 0);
    OnlyOrder(Killed(w, n).lines.line, Rotation(m, 0));
  }

  /** n processes launched, all CPU-bound. */
  ghost predicate Started(w: World, n: nat, c: nat) {
    && Good(w) && w.algo == RoundRobin && w.quantum == 10 && !w.needResched && w.current == -1 && w.tick == 0
    && n == |w.ps| == |w.ss| && w.lines.line == seq(n, x => x)
    && forall x :: 0 <= x < n ==> w.ps[x] == Fresh(0, 0) && Crunching(w.ss[x], c)
  }

  lemma StartedMore(w: World, n: nat, c: nat)
    requires Started(w, n, c) && n < MAX_PROCS
    ensures Started(Launched(w, [Cpu(c + 1)], 0), n + 1, c)
  {
    hide Good, Fresh;
    GoodLaunched(w, [Cpu(c + 1)], 0);
    var r := Launched(w, [Cpu(c + 1)], 0);
    assert r.lines.line == seq(n + 1, x => x);
  }

  lemma {:induction false} Launches(n: nat, c: nat) returns (es: seq<Event>)
    requires n <= MAX_PROCS
    ensures Possible(Begin(), es) && Calm(es) && Started(After(Begin(), es), n, c)
  {
    hide After, Possible;
    if n == 0 {
      es := [];
      Nothing(Begin());
      BeginGood();
    } else {
      var fs := Launches(n - 1, c);
      var e := Launch([Cpu(c + 1)], 0);
      StartedMore(After(Begin(), fs), n - 1, c);
      OneMore(Begin(), fs, e);
      es := fs + [e];
    }
  }

  lemma FreshReady()
    ensures Fresh(0, 0).state == Ready && Fresh(0, 0).lastReady == 0
  {
  }

  lemma StartedRow(w: World, m: nat, c: nat)
    requires Started(w, m + 1, c + 10)
    ensures Row(w, m, 0, c)
  {
    hide Good, Crunching, Fresh;
    FreshReady();
    assert Rotation(m, 0) == seq(m + 1, x => x);
  }

  /** Policy and quantum stay as they are. */
  ghost predicate Unchanged(es: seq<Event>) {
    forall k :: 0 <= k < |es| ==> !es[k].Choose? && !es[k].Slice?
  }

  lemma UnchangedBoth(fs: seq<Event>, gs: seq<Event>)
    requires Unchanged(fs) && (Unchanged(gs) || Calm(gs))
    ensures Unchanged(fs + gs)
  {
  }

  lemma RowTicks(m: nat, n: nat)
    ensures 10 * (m * (n + 1)) == 10 * (m * n) + 10 * m
  {
  }

  /** The history before the last row of turns. */
  lemma KillAgain(hs: seq<Event>, m: nat, n: nat, c: nat) returns (fs: seq<Event>)
    requires Possible(Begin(), hs) && Unchanged(hs) && m + 1 + n < MAX_PROCS
    requires var v := After(Begin(), hs); Row(v, m, m, c + 10) && |v.ps| == m + 1 + n
    ensures Possible(Begin(), fs) && Unchanged(fs)
    ensures var v, r := After(Begin(), hs), After(Begin(), fs); Row(r, m, 0, c) && |r.ps| == m + 2 + n && r.tick == v.tick
  {
    hide Row, Possible, After, Launched, Killed, Prepared;
    var w := Begin();
    Disturbed(After(w, hs), m, c);
    var e, f := Launch([], 0), Kill(m + 1 + n);
    fs := hs + [e] + [f];
    OneMore(w, hs, e);
    OneMore(w, hs + [e], f);
  }

  /** With m CPU-bound processes before it and n others launched and ended in turn, the process in slot m has been READY for
      10 * m * (n + 1) ticks and has not run, though a quantum for every process is only 10 * (m + n + 1). With m = 511 and
      n = 512, for which the table has room, that is more than 250 times as long. */
  lemma {:induction false} KillsStarve(m: nat, n: nat, c: nat) returns (es: seq<Event>)
    requires m + 1 + n <= MAX_PROCS
    ensures Possible(Begin(), es) && Unchanged(es)
    ensures var r := After(Begin(), es); Row(r, m, m, c) && |r.ps| == m + 1 + n && r.tick == 10 * (m * (n + 1))
    decreases n
  {
    hide Row, Possible, After, Unchanged, Calm, Started;
    var w := Begin();
    var fs;
    RowTicks(m, n);
    if n == 0 {
      fs := Launches(m + 1, c + 10);
      StartedRow(After(w, fs), m, c);
      StartedAt0(After(w, fs), m + 1, c + 10);
      UnchangedNothing();
      UnchangedBoth([], fs);
      assert [] + fs == fs;
    } else {
      var hs := KillsStarve(m, n - 1, c + 10);
      fs := KillAgain(hs, m, n - 1, c);
    }
    var gs := RestOfRow(After(w, fs), m, 0, c);
    es := fs + gs;
    GoOn(w, fs, gs);
    UnchangedBoth(fs, gs);
  }

  lemma UnchangedNothing()
    ensures Unchanged([])
  {
  }

  lemma StartedAt0(w: World, n: nat, c: nat)
    requires Started(w, n, c)
    ensures w.tick == 0 && |w.ps| == n
  {
  }

  // ----- a policy change while a process runs -----

  /** The process h is running a burst, and the scheduler does not know that it is. */
  ghost predicate Uncharged(w: World, h: int, m: nat) {
    && Good(w) && w.algo == RoundRobin && !w.needResched && w.consumed < w.quantum
    && w.current == h != w.known && 0 <= h < |w.ps| == |w.ss| && Crunching(w.ss[h], m)
  }

  lemma UnchargedBurst(w: World, h: int, m: nat, outcome: Outcome)
    requires Uncharged(w, h, m + 1)
    ensures Executing(w)
    ensures var r := Executed(w, Answer(outcome, false)); Good(r) ==> Uncharged(r, h, m) && r.tick == w.tick + 1
  {
    GoodExecuting(w);
    CrunchTick(w.ss[h], m);
    hide Good;
  }

  lemma UnchargedPass(w: World, pick: int, a: Answer, h: int, m: nat)
    requires Uncharged(w, h, m + 1) && Enabled(w, Pass(pick, a)) && !a.timer
    ensures Uncharged(Passed(w, pick, a), h, m) && Passed(w, pick, a).tick == w.tick + 1 && Starts(w, Pass(pick, a)) == []
  {
    hide Good, Prepared, Enabled, Executed, Crunching;
    GoodPassed(w, pick, a);
    PreparedBlocks(w);
    var v := Prepared(w);
    GoodSizes(v);
    var v' := v.(calls := v.calls + 1);
    CountedGood(v);
    UnchargedBurst(v', h, m, a.outcome);
  }

  /** Then it keeps the CPU for the rest of its burst, however small the quantum and whoever waits. */
  lemma {:induction false} KeepsCpu(w: World, es: seq<Event>, h: int, m: nat)
    requires |es| <= m && Uncharged(w, h, m) && Possible(w, es)
    requires forall k :: 0 <= k < |es| ==> es[k].Pass? && !es[k].answer.timer
    ensures Uncharged(After(w, es), h, m - |es|) && After(w, es).tick == w.tick + |es| && StartLog(w, es) == []
  {
    hide Uncharged, Passed, Enabled, Starts;
    if es != [] {
      var k := |es| - 1;
      KeepsCpu(w, es[..k], h, m);
      UnchargedPass(After(w, es[..k]), es[k].pick, es[k].answer, h, m - |es|);
    }
  }

  /** Slot 0 runs uncharged, and slot 2 waits since tick 0. */
  ghost predicate Forgot(w: World, m: nat) {
    Uncharged(w, 0, m) && Awake(w.ps) && w.quantum == 10 && |w.ps| == 3 && w.ps[2].state == Ready && w.ps[2].lastReady == 0
  }

  lemma ForgotPass(w: World, m: nat)
    requires Forgot(w, m + 1)
    ensures Enabled(w, Pass(0, Quiet())) && Forgot(Passed(w, 0, Quiet()), m) && Passed(w, 0, Quiet()).tick == w.tick + 1
  {
    QuietPass(w, 0, Quiet());
    hide Good, Passed, Enabled, Prepared, Crunching, Starts, StartLog;
    UnchargedPass(w, 0, Quiet(), 0, m);
    PassSteady(w, 0, Quiet());
    PassedWork(w, 0, Quiet());
    PassWaits(w, 0, Quiet(), 2);
    StillAwake(w.(calls := w.calls + 1), m);
  }

  lemma StillAwake(w: World, m: nat)
    requires Uncharged(w, 0, m) && Awake(w.ps)
    ensures Executing(w) && Awake(Executed(w, Quiet()).ps)
  {
    GoodExecuting(w);
    hide Good;
  }

  lemma {:induction false} ForgotFor(w: World, n: nat) returns (es: seq<Event>)
    requires Forgot(w, n)
    ensures Possible(w, es) && Calm(es) && Forgot(After(w, es), 0) && After(w, es).tick == w.tick + n
    decreases n
  {
    hide Forgot, Enabled, Passed;
    Nothing(w);
    es := [];
    if 0 < n {
      var e := Pass(0, Quiet());
      ForgotPass(w, n - 1);
      JustOne(w, e);
      var fs := ForgotFor(Apply(w, e), n - 1);
      es := [e] + fs;
      GoOn(w, [e], fs);
    }
  }

  lemma CrunchLess(s: Slot, m: nat, n: nat)
    requires Crunching(s, m) && n <= m
    ensures Crunching(s, n)
  {
  }

  lemma ForgottenStart(n: nat) returns (es: seq<Event>)
    ensures Possible(Begin(), es) && Forgot(After(Begin(), es), n) && After(Begin(), es).tick == 1
    ensures forall k :: 0 <= k < |es| ==> !es[k].Kill? && !es[k].Slice?
  {
    hide Sound, CurrentOk, Possible, After, Enabled, Passed, Chosen, Crunching, LinedUpTo, Awake;
    var fs := Launches(3, n + 11);
    var w := After(Begin(), fs);
    StartedRow(w, 2, n + 1);
    CrunchLess(w.ss[0], n + 11, n + 1);
    var e, f := Pass(0, Quiet()), Choose(RoundRobin);
    TurnBegins(w, 0, n);
    var v := Apply(w, e);
    GoodWithPolicy(v, RoundRobin);
    es := fs + [e] + [f];
    OneMore(Begin(), fs, e);
    OneMore(Begin(), fs + [e], f);
    NoPass(v, f);
  }

  lemma NoPass(w: World, e: Event)
    requires !e.Pass?
    ensures Enabled(w, e)
  {
  }

  /** It happens: one tick after the start the policy is set to round robin once more, and n ticks later slot 2 has waited
      through all of them, for any n. */
  lemma Forgotten(n: nat) returns (es: seq<Event>)
    ensures Possible(Begin(), es) && forall k :: 0 <= k < |es| ==> !es[k].Kill? && !es[k].Slice?
    ensures Forgot(After(Begin(), es), 0) && After(Begin(), es).tick == n + 1
  {
    hide Forgot, Possible, After;
    var fs := ForgottenStart(n);
    var gs := ForgotFor(After(Begin(), fs), n);
    es := fs + gs;
    GoOn(Begin(), fs, gs);
  }

  // ----- a tick lost -----

  /** The next n instructions of h are calls, and h is running, or is alone and about to. */
  ghost predicate CallsAhead(w: World, h: int, n: nat) {
    && Good(w) && 0 <= h < |w.ps| == |w.ss|
    && (w.current == h || (w.current < 0 && w.ps[h].state == Ready && forall x :: 0 <= x < |w.ps| && x != h ==> w.ps[x].state == Exited))
    && w.ss[h].pc + n <= |w.ss[h].insns| && forall i :: w.ss[h].pc <= i < w.ss[h].pc + n ==> w.ss[h].insns[i] == Call
  }

  lemma CallDispatched(w: World, pick: int, a: Answer, h: int, n: nat)
    requires CallsAhead(w, h, n) && Enabled(w, Pass(pick, a))
    ensures !Nobody(Prepared(w))
    ensures var d := Dispatched(w, pick);
            Good(d) && d.current == h && d.ss == w.ss && d.tick == w.tick && d.calls == w.calls && |d.ps| == |w.ps|
  {
    hide Sound, Prepared, AtHead, Foremost;
    var v := Prepared(w);
    PreparedBlocks(w);
    forall x | 0 <= x < |w.ps|
      ensures v.ps[x].state == WokeBlock(w.ps[x], w.tick).state
    {
      assert Alike(WokeBlock(w.ps[x], w.tick), v.ps[x]);
    }
    assert w.current < 0 ==> h in ReadySet(v.ps);
    GoodDispatched(w, pick);
  }

  lemma CallDone(w: World, wake: int, h: int, n: nat)
    requires CallsAhead(w, h, n + 1) && w.current == h
    ensures Executing(w) && Next(w.ss[h]) == Calls
    ensures var r := Responded(w, Done(wake)); Good(r) ==> CallsAhead(r, h, n) && r.current == h && r.tick == w.tick && r.calls == w.calls
  {
    hide Good, Appended;
    GoodExecuting(w);
  }

  lemma CallPass(w: World, pick: int, a: Answer, h: int, n: nat)
    requires CallsAhead(w, h, n + 1) && Enabled(w, Pass(pick, a)) && a.outcome.Done?
    ensures var r := Passed(w, pick, a);
            CallsAhead(r, h, n) && r.current == h && r.tick == w.tick && r.calls == w.calls + 1
  {
    hide Good, Prepared, Nobody, Enabled, Dispatched, Responded;
    GoodPassed(w, pick, a);
    CallDispatched(w, pick, a, h, n + 1);
    var d := Dispatched(w, pick);
    var d' := d.(calls := d.calls + 1);
    CountedGood(d);
    CallDone(d', a.outcome.wake, h, n);
  }

  lemma {:induction false} CallRun(env: (nat, seq<Pcb>) -> Answer, w: World, es: seq<Event>, k: nat, h: int, n: nat)
    requires k <= |es| <= n && CallsAhead(w, h, n) && Possible(w, es) && forall i, ps :: env(i, ps).outcome.Done?
    requires forall i :: 0 <= i < |es| ==> es[i].Pass? && AnsweredBy(env, After(w, es[..i]), es[i])
    ensures var r := After(w, es[..k]); CallsAhead(r, h, n - k) && r.tick == w.tick && r.calls == w.calls + k
  {
    hide CallsAhead, Passed, Enabled, AnsweredBy, After, Possible;
    if k == 0 {
      Nothing(w);
    } else {
      CallRun(env, w, es, k - 1, h, n);
      var v, e := After(w, es[..k - 1]), es[k - 1];
      Prefix(w, es, k - 1);
      Answered(env, v, e, h, n - (k - 1));
      CallPass(v, e.pick, e.answer, h, n - k);
      assert es[..k - 1] + [e] == es[..k];
      OneMore(w, es[..k - 1], e);
    }
  }

  lemma Answered(env: (nat, seq<Pcb>) -> Answer, w: World, e: Event, h: int, n: nat)
    requires CallsAhead(w, h, n) && Enabled(w, e) && e.Pass? && AnsweredBy(env, w, e) && forall k, ps :: env(k, ps).outcome.Done?
    ensures e.answer.outcome.Done?
  {
    hide CallsAhead, Enabled, Prepared, Nobody, Dispatched;
    CallDispatched(w, e.pick, e.answer, h, n);
  }

  /** A round of a process with 1024 calls ahead of it answers all of them and leaves the clock alone. */
  lemma LostRound(env: (nat, seq<Pcb>) -> Answer, w: World, es: seq<Event>, h: int)
    requires CallsAhead(w, h, MAX_GUARD) && Round(env, w, es) && forall k, ps :: env(k, ps).outcome.Done?
    ensures After(w, es).tick == w.tick && After(w, es).calls == w.calls + MAX_GUARD
  {
    hide CallsAhead, AnsweredBy, After, Possible;
    CallRun(env, w, es, |es|, h, MAX_GUARD);
    assert es[..|es|] == es;
  }

  function ManyCalls(): (insns: seq<Insn>)
    ensures |insns| == MAX_GUARD && forall i :: 0 <= i < |insns| ==> insns[i] == Call
  {
    seq(MAX_GUARD, i => Call)
  }

  /** The only process has n calls before it and is running or about to. */
  ghost predicate Alone(w: World, n: nat) {
    CallsAhead(w, 0, n) && w.algo == RoundRobin && |w.ps| == 1 && Awake(w.ps) && (w.current < 0 ==> w.lines.line == [0])
  }

  lemma AloneLaunched()
    ensures Alone(Launched(Begin(), ManyCalls(), 0), MAX_GUARD)
  {
    hide Good, ManyCalls;
    BeginGood();
    GoodLaunched(Begin(), ManyCalls(), 0);
  }

  /** One more pass. */
  lemma AlonePass(env: (nat, seq<Pcb>) -> Answer, w: World, n: nat) returns (e: Event)
    requires Alone(w, n + 1) && forall k, ps :: env(k, ps).outcome.Done? && Legal(env(k, ps).outcome, ps)
    ensures e.Pass? && Enabled(w, e) && AnsweredBy(env, w, e) && Alone(Apply(w, e), n)
  {
    hide Good, Passed, Nobody, Prepared;
    assert Legal(Done(-1), w.ps);
    QuietPass(w, 0, Quiet());
    var d := Dispatched(w, 0);
    var a := env(d.calls, d.ps);
    e := Pass(0, a);
    SamePick(w, 0, Quiet(), a);
    CallPass(w, 0, a, 0, n);
    PassSteady(w, 0, a);
    PassedWork(w, 0, a);
    GoodPassed(w, 0, a);
    RunningAwake(Passed(w, 0, a));
  }

  /** Whether a pass can happen depends on the answer only as far as it must be legal. */
  lemma SamePick(w: World, pick: int, a: Answer, b: Answer)
    requires Enabled(w, Pass(pick, a)) && Legal(b.outcome, Dispatched(w, pick).ps)
    ensures Enabled(w, Pass(pick, b))
  {
    hide Prepared, Dispatched, MayRun, Nobody;
  }

  lemma RunningAwake(w: World)
    requires Good(w) && w.current == 0 && |w.ps| == 1
    ensures Awake(w.ps)
  {
  }

  lemma {:induction false} AloneRun(env: (nat, seq<Pcb>) -> Answer, w: World, k: nat, n: nat) returns (es: seq<Event>)
    requires Alone(w, n) && k <= n && forall i, ps :: env(i, ps).outcome.Done? && Legal(env(i, ps).outcome, ps)
    ensures |es| == k && Possible(w, es) && Alone(After(w, es), n - k)
    ensures forall i :: 0 <= i < k ==> es[i].Pass? && AnsweredBy(env, After(w, es[..i]), es[i])
  {
    hide Alone, Apply, Enabled, AnsweredBy, After, Possible;
    Nothing(w);
    es := [];
    if 0 < k {
      var fs := AloneRun(env, w, k - 1, n);
      var e := AlonePass(env, After(w, fs), n - k);
      es := fs + [e];
      OneMore(w, fs, e);
      forall i | 0 <= i < k
        ensures es[i].Pass? && AnsweredBy(env, After(w, es[..i]), es[i])
      {
        assert es[..i] == if i < k - 1 then fs[..i] else fs;
      }
    }
  }

  /** It happens: the first round of the only process, when all it does is make 1024 calls, leaves the clock at 0. */
  lemma LostTick(env: (nat, seq<Pcb>) -> Answer) returns (es: seq<Event>)
    requires forall k, ps :: env(k, ps).outcome.Done? && Legal(env(k, ps).outcome, ps)
    ensures var w := Launched(Begin(), ManyCalls(), 0); Round(env, w, es) && After(w, es).tick == 0
  {
    hide CallsAhead, Launched, After, Possible, AnsweredBy;
    var w := Launched(Begin(), ManyCalls(), 0);
    AloneLaunched();
    es := AloneRun(env, w, MAX_GUARD, MAX_GUARD);
    forall k | 0 <= k <= |es|
      ensures After(w, es[..k]).tick == w.tick
    {
      CallRun(env, w, es, k, 0, MAX_GUARD);
    }
    assert es[..|es|] == es;
    AtTickZero();
  }

  lemma AtTickZero()
    ensures Launched(Begin(), ManyCalls(), 0).tick == 0
  {
  }

  // ----- the boost that starves -----

  /** Nothing to do for k ticks. */
  lemma {:induction false} IdleFor(k: nat) returns (es: seq<Event>)
    ensures Possible(Begin(), es) && OnlyPasses(es) && After(Begin(), es) == Begin().(tick := k, idle := k)
  {
    Nothing(Begin());
    es := [];
    if 0 < k {
      var fs := IdleFor(k - 1);
      var e := Pass(-1, Quiet());
      IdlePass(k - 1);
      hide Apply, Enabled;
      OneMore(Begin(), fs, e);
      es := fs + [e];
    }
  }

  lemma IdlePass(k: nat)
    ensures var w, e := Begin().(tick := k, idle := k), Pass(-1, Quiet());
            Enabled(w, e) && Apply(w, e) == Begin().(tick := k + 1, idle := k + 1)
  {
    var w := Begin().(tick := k, idle := k);
    assert Prepared(w) == w;
    assert ReadySet(w.ps) == {};
    assert AllWaited(w.ps) == [] && MoreBlocked(w.ps, w.blocked) == [];
  }

  /** Slot 0 has CPU work for more than m ticks, and slot 1 has been READY since tick 50. */
  ghost predicate Starving(w: World, m: nat) {
    Hogs(w, 0, m) && |w.ps| == 2 && w.ps[1].state == Ready && w.ps[1].lastReady == 50
  }

  lemma StarvingPass(w: World, m: nat)
    requires Starving(w, m + 1)
    ensures Enabled(w, Pass(0, Quiet())) && Starving(Passed(w, 0, Quiet()), m) && Passed(w, 0, Quiet()).tick == w.tick + 1
  {
    StarvingEnabled(w, m + 1);
    hide Hogs, Passed, Enabled, Prepared;
    assert Good(w) by {
      HogsGood(w, 0, m + 1);
    }
    HogsOn(w, 0, Quiet(), 0, m);
    PassedWork(w, 0, Quiet());
    PassWaits(w, 0, Quiet(), 1);
  }

  lemma HogsGood(w: World, h: int, m: nat)
    requires Hogs(w, h, m)
    ensures Good(w)
  {
  }

  lemma StarvingEnabled(w: World, m: nat)
    requires Starving(w, m)
    ensures Enabled(w, Pass(0, Quiet()))
  {
    hide Sound, Prepared, MayRun, Crunching;
    PreparedBlocks(w);
    SlotsDecide(w, 0);
    var v := Prepared(w);
    assert Alike(WokeBlock(w.ps[0], w.tick), v.ps[0]);
  }

  lemma {:induction false} StarvingFor(w: World, n: nat) returns (es: seq<Event>)
    requires Starving(w, n)
    ensures Possible(w, es) && OnlyPasses(es) && Starving(After(w, es), 0) && After(w, es).tick == w.tick + n
    decreases n
  {
    hide Starving, Enabled, Passed;
    Nothing(w);
    es := [];
    if 0 < n {
      var e := Pass(0, Quiet());
      StarvingPass(w, n - 1);
      JustOne(w, e);
      var fs := StarvingFor(Apply(w, e), n - 1);
      es := [e] + fs;
      GoOn(w, [e], fs);
    }
  }

  lemma TwoLevels(n: nat)
    ensures var w := WithPolicy(Begin().(tick := 50, idle := 50), Mlfq);
            var r := Launched(Launched(w, [Cpu(n + 1)], 0), [], 0);
            Starving(r, n) && r.tick == 50
  {
    hide Good;
    var b := Begin().(tick := 50, idle := 50);
    var w := WithPolicy(b, Mlfq);
    LateGood();
    GoodWithPolicy(b, Mlfq);
    GoodLaunched(w, [Cpu(n + 1)], 0);
    GoodLaunched(Launched(w, [Cpu(n + 1)], 0), [], 0);
  }

  lemma LateGood()
    ensures Good(Begin().(tick := 50, idle := 50))
  {
    assert ReadySet([]) == {};
  }

  /** It happens: under MLFQ, with two processes launched at tick 50, the second has not run n ticks later, for any n. */
  lemma LevelsStarve(n: nat) returns (es: seq<Event>)
    ensures Possible(Begin(), es) && forall k :: 0 <= k < |es| ==> !es[k].Kill? && !es[k].Slice?
    ensures Starving(After(Begin(), es), 0) && After(Begin(), es).tick == 50 + n
  {
    hide Starving, Possible, After, Prepared, WithPolicy, Launched;
    var b := Begin();
    var fs := IdleFor(50);
    var c, e, f := Choose(Mlfq), Launch([Cpu(n + 1)], 0), Launch([], 0);
    OneMore(b, fs, c);
    OneMore(b, fs + [c], e);
    OneMore(b, fs + [c] + [e], f);
    TwoLevels(n);
    var hs := fs + [c] + [e] + [f];
    var gs := StarvingFor(After(b, hs), n);
    es := hs + gs;
    GoOn(b, hs, gs);
  }
}
