/** Programs: what a pass does with the instruction it meets, and that the running time of a process is what its program asks
    for. */
module TickPrograms {
  import opened Proc
  import opened Sched
  import opened Accounting
  import opened TickSpec
  import opened TickFacts
  import opened TickWork
  import opened TickOrder
  import opened TickTurns

  // ----- one instruction -----

  /** Process c with slot s ends here: with code 0 behind its last instruction and at EXIT, with code 1 at a burst of 0. */
  ghost predicate Finishes(s: Slot, code: int) {
    if |s.insns| <= s.pc || s.insns[s.pc] == Exit then code == 0
    else s.insns[s.pc] == Cpu(0) && s.remaining == 0 && code == 1
  }

  ghost predicate Exits(c: Pcb, code: int, tick: nat) {
    c.state == Exited && c.exitCode == code && c.finish == tick
  }

  /** What the pass does to the process that runs, instruction by instruction. */
  ghost predicate Obeys(s: Slot, a: Answer, c: Pcb, s': Slot, tick: nat) {
    && s'.insns == s.insns && s'.used == s.used
    && (forall code :: Finishes(s, code) ==> Exits(c, code, tick) && s' == s)
    && (s.pc < |s.insns| ==>
          match s.insns[s.pc]
          case Cpu(n) => true
          case Io(n) => c.state == Blocked && s'.pc == s.pc + 1
          case Call =>
            (match a.outcome
             case Done(_) => c.state == Running && s'.pc == s.pc + 1
             case Blocks => c.state == Blocked && s' == s
             case Sleeps => c.state == Blocked && s' == s
             case Fails(code) => Exits(c, code, tick) && s' == s)
          case Exit => true)
  }

  /** The slot after an instruction. */
  ghost function SlotAfter(s: Slot, o: Outcome): Slot {
    match Next(s)
    case Ends(_) => s
    case Burst => TickedSlot(Begun(s))
    case Sleep(_) => Advanced(s)
    case Calls => if o.Done? then Advanced(s) else s
  }

  lemma BurstSlot(d: World, timer: bool)
    requires Executing(d) && Next(d.ss[d.current]).Burst?
    ensures var r, t := Preempted(Ticked(d), timer), Ticked(d);
            r.ss == t.ss && |r.ps| == |t.ps| && forall p :: 0 <= p < |t.ps| ==> r.ps[p].cpu == t.ps[p].cpu
  {
    hide Ticked, Appended, GivesWay;
  }

  lemma RespondedSlot(d: World, o: Outcome)
    requires Executing(d)
    ensures var r := Responded(d, o);
            && r.ss == (if o.Done? then d.ss[d.current := Advanced(d.ss[d.current])] else d.ss) && |r.ps| == |d.ps|
            && forall p :: 0 <= p < |d.ps| ==> r.ps[p].cpu == d.ps[p].cpu
  {
    hide Appended;
  }

  /** Only the slot of the process that runs changes, and only a tick of its burst adds to its running time. */
  lemma ExecutedSlots(d: World, a: Answer)
    requires Executing(d)
    ensures var r, p := Executed(d, a), d.current;
            && r.ss == d.ss[p := SlotAfter(d.ss[p], a.outcome)] && |r.ps| == |d.ps|
            && r.ps[p].cpu == (if Next(d.ss[p]).Burst? then d.ps[p].cpu + 1 else d.ps[p].cpu)
            && forall x :: 0 <= x < |d.ps| && x != p ==> r.ps[x].cpu == d.ps[x].cpu
  {
    hide Preempted, Responded, TickedSlot, Begun, Advanced;
    match Next(d.ss[d.current])
    case Burst => BurstSlot(d, a.timer);
    case Calls => RespondedSlot(d, a.outcome);
    case _ =>
  }

  lemma RespondedState(d: World, o: Outcome)
    requires Executing(d) && d.ps[d.current].state == Running
    ensures var c := Responded(d, o).ps[d.current];
            match o
            case Done(_) => c.state == Running
            case Blocks => c.state == Blocked
            case Sleeps => c.state == Blocked
            case Fails(code) => Exits(c, code, d.tick)
  {
    hide Appended;
  }

  lemma ExecutedObeys(d: World, a: Answer)
    requires Executing(d) && d.ps[d.current].state == Running
    ensures var r, p := Executed(d, a), d.current;
            && |r.ps| == |r.ss| == |d.ps| && Obeys(d.ss[p], a, r.ps[p], r.ss[p], d.tick)
            && forall x :: 0 <= x < |d.ss| && x != p ==> r.ss[x] == d.ss[x]
  {
    hide Preempted, Responded, Ticked;
    ExecutedSlots(d, a);
    RespondedState(d, a.outcome);
  }

  /** The pass executes one instruction of the process that runs, and leaves the programs of all others alone. */
  lemma PassObeys(w: World, pick: int, a: Answer)
    requires Good(w) && Enabled(w, Pass(pick, a)) && !Nobody(Prepared(w))
    ensures var r, p := Passed(w, pick, a), Dispatched(w, pick).current;
            && 0 <= p < |w.ps| == |w.ss| == |r.ps| == |r.ss| && Obeys(w.ss[p], a, r.ps[p], r.ss[p], w.tick)
            && forall x :: 0 <= x < |w.ss| && x != p ==> r.ss[x] == w.ss[x]
  {
    hide Good, Prepared, Nobody, Dispatched, Executed, Enabled, Obeys;
    PassRuns(w, pick, a);
    var d := Dispatched(w, pick);
    ExecutedObeys(d.(calls := d.calls + 1), a);
  }

  lemma ExecutedCompletes(d: World, a: Answer)
    requires Executing(d) && d.ps[d.current].state == Running
    ensures var r := Executed(d, a);
            r.completed == if r.ps[d.current].state == Exited then d.completed + 1 else d.completed
  {
    hide Preempted, Responded, Ticked;
    match Next(d.ss[d.current])
    case Burst => BurstCompletes(d, a.timer);
    case Calls => RespondedCompletes(d, a.outcome);
    case _ =>
  }

  lemma BurstCompletes(d: World, timer: bool)
    requires Executing(d) && d.ps[d.current].state == Running && Next(d.ss[d.current]).Burst?
    ensures var r := Preempted(Ticked(d), timer); r.completed == d.completed && r.ps[d.current].state != Exited
  {
    hide Appended, GivesWay;
  }

  lemma RespondedCompletes(d: World, o: Outcome)
    requires Executing(d) && d.ps[d.current].state == Running
    ensures var r := Responded(d, o);
            r.completed == if r.ps[d.current].state == Exited then d.completed + 1 else d.completed
  {
    hide Appended;
  }

  /** A pass counts the process that runs as completed exactly if that is its end; a kill is not counted. */
  lemma PassCompletes(w: World, pick: int, a: Answer)
    requires Good(w) && Enabled(w, Pass(pick, a)) && !Nobody(Prepared(w))
    ensures var r, p := Passed(w, pick, a), Dispatched(w, pick).current;
            && 0 <= p < |r.ps|
            && r.completed == if r.ps[p].state == Exited then w.completed + 1 else w.completed
  {
    hide Good, Prepared, Nobody, Dispatched, Executed, Enabled;
    PassRuns(w, pick, a);
    var d := Dispatched(w, pick);
    ExecutedCompletes(d.(calls := d.calls + 1), a);
    ExecutedSlots(d.(calls := d.calls + 1), a);
  }

  /** A process launched while there is room is READY as of now, at the beginning of its program, with its priority brought
      into the range from 0 to 39; all others stay as they are. */
  lemma LaunchStarts(w: World, insns: seq<Insn>, priority: int)
    requires Good(w) && |w.ps| < 1024
    ensures var r, p := Launched(w, insns, priority), |w.ps|;
            && |r.ps| == |r.ss| == p + 1 && r.ps[..p] == w.ps && r.ss[..p] == w.ss
            && r.ps[p].state == Ready && r.ps[p].lastReady == r.ps[p].start == w.tick && r.ps[p].level == r.ps[p].cpu == 0
            && r.ps[p].priority == (if priority < 0 then 0 else if 39 < priority then 39 else priority)
            && r.ss[p] == Slot(true, insns, 0, 0)
            && (OneLine(w.algo) ==> r.lines.line == w.lines.line + [p])
  {
    hide LinesOk, TimesOk;
  }

  /** Any live process can be killed: it ends at this tick with code 130, and its program is gone. */
  lemma KillEnds(w: World, pid: int)
    requires Good(w) && 0 <= pid < |w.ps| && w.ps[pid].state != Exited
    ensures var r := Killed(w, pid);
            && |r.ps| == |r.ss| == |w.ps| && Exits(r.ps[pid], 130, w.tick) && !r.ss[pid].used && r.current != pid
            && forall x :: 0 <= x < |w.ps| && x != pid ==> r.ps[x] == w.ps[x] && r.ss[x] == w.ss[x]
  {
    hide LinedUpTo, LinesOk, TimesOk;
  }

  // ----- running time -----

  /** The ticks of the bursts among the first n instructions. */
  ghost function Bursts(insns: seq<Insn>, n: nat): nat
    requires n <= |insns|
  {
    if n == 0 then 0 else Bursts(insns, n - 1) + if insns[n - 1].Cpu? then insns[n - 1].ticks else 0
  }

  /** The process has run for the bursts behind it and for what it has done of the present one. */
  ghost predicate OnTrack(c: Pcb, s: Slot) {
    s.used ==>
      && s.pc <= |s.insns|
      && (0 < s.remaining ==> s.pc < |s.insns| && s.insns[s.pc].Cpu? && s.remaining <= s.insns[s.pc].ticks)
      && c.cpu == Bursts(s.insns, s.pc) + if 0 < s.remaining then s.insns[s.pc].ticks - s.remaining else 0
  }

  ghost predicate AllOnTrack(w: World) {
    |w.ps| == |w.ss| && forall p :: 0 <= p < |w.ps| ==> OnTrack(w.ps[p], w.ss[p])
  }

  lemma SlotOnTrack(c: Pcb, s: Slot, o: Outcome, c': Pcb)
    requires OnTrack(c, s) && c'.cpu == if Next(s).Burst? then c.cpu + 1 else c.cpu
    ensures OnTrack(c', SlotAfter(s, o))
  {
  }

  lemma ExecutedOnTrack(d: World, a: Answer, p: int)
    requires Executing(d) && 0 <= p < |d.ps| && OnTrack(d.ps[p], d.ss[p])
    ensures var r := Executed(d, a); |r.ps| == |r.ss| == |d.ps| && OnTrack(r.ps[p], r.ss[p])
  {
    hide Executed, SlotAfter, OnTrack;
    ExecutedSlots(d, a);
    if p == d.current {
      SlotOnTrack(d.ps[p], d.ss[p], a.outcome, Executed(d, a).ps[p]);
    } else {
      SameTrack(d.ps[p], Executed(d, a).ps[p], d.ss[p]);
    }
  }

  lemma PassOnTrack(w: World, pick: int, a: Answer)
    requires Good(w) && Enabled(w, Pass(pick, a)) && AllOnTrack(w)
    ensures AllOnTrack(Passed(w, pick, a))
  {
    hide Good, Prepared, Nobody, Dispatched, Executed, Enabled, MayRun, OnTrack;
    PreparedBlocks(w);
    GoodSizes(Prepared(w));
    var v, r := Prepared(w), Passed(w, pick, a);
    if Nobody(v) {
      forall p | 0 <= p < |v.ps|
        ensures OnTrack(Idled(v).ps[p], v.ss[p])
      {
        assert Alike(WokeBlock(w.ps[p], w.tick), v.ps[p]);
        SameTrack(w.ps[p], Idled(v).ps[p], w.ss[p]);
      }
    } else {
      PassRuns(w, pick, a);
      EnabledPicks(w, pick, a);
      var d := Dispatched(w, pick);
      ExecutedSlots(d.(calls := d.calls + 1), a);
      forall p | 0 <= p < |d.ps|
        ensures |r.ps| == |r.ss| == |d.ps| && OnTrack(r.ps[p], r.ss[p])
      {
        DispatchKeeps(w, pick, p);
        SameTrack(w.ps[p], d.ps[p], w.ss[p]);
        ExecutedOnTrack(d.(calls := d.calls + 1), a, p);
      }
    }
  }

  lemma SameTrack(c: Pcb, c': Pcb, s: Slot)
    requires OnTrack(c, s) && c'.cpu == c.cpu
    ensures OnTrack(c', s)
  {
  }

  lemma RequestOnTrack(w: World, e: Event)
    requires !e.Pass? && AllOnTrack(w)
    ensures AllOnTrack(Apply(w, e))
  {
    hide LinedUpTo, Appended;
  }

  /** Over every history each process has run for exactly the bursts of its program up to where it is. */
  lemma {:induction false} StaysOnTrack(w: World, es: seq<Event>)
    requires Good(w) && AllOnTrack(w) && Possible(w, es)
    ensures AllOnTrack(After(w, es))
  {
    hide Good, Passed, Enabled, AllOnTrack;
    if es != [] {
      var k := |es| - 1;
      var v, e := After(w, es[..k]), es[k];
      StaysOnTrack(w, es[..k]);
      GoodAfter(w, es[..k]);
      if e.Pass? {
        PassOnTrack(v, e.pick, e.answer);
      } else {
        RequestOnTrack(v, e);
      }
    }
  }

  // ----- a burst takes its time -----

  /** The same program, at the same place or further on. */
  ghost predicate FurtherOn(s: Slot, s': Slot) {
    s'.insns == s.insns && s'.used == s.used && s.pc <= s'.pc
  }

  lemma EventFurther(w: World, e: Event, p: int)
    requires Good(w) && Enabled(w, e) && 0 <= p < |w.ss| && e != Kill(p)
    ensures var r := Apply(w, e); p < |r.ss| && FurtherOn(w.ss[p], r.ss[p])
  {
    if e.Pass? {
      hide Good, Passed, Enabled, FurtherOn;
      PassFurther(w, e.pick, e.answer, p);
    } else {
      hide Good, Passed, LinedUpTo, Appended;
    }
  }

  lemma PassFurther(w: World, pick: int, a: Answer, p: int)
    requires Good(w) && Enabled(w, Pass(pick, a)) && 0 <= p < |w.ss|
    ensures var r := Passed(w, pick, a); p < |r.ss| && FurtherOn(w.ss[p], r.ss[p])
  {
    hide Good, Prepared, Nobody, Dispatched, Executed, Enabled;
    PreparedBlocks(w);
    GoodSizes(Prepared(w));
    if !Nobody(Prepared(w)) {
      PassRuns(w, pick, a);
      var d := Dispatched(w, pick);
      ExecutedSlots(d.(calls := d.calls + 1), a);
    }
  }

  /** A program goes forward only and stays the same, unless its process is killed. */
  lemma {:induction false} ProgramGoesOn(w: World, es: seq<Event>, p: int)
    requires Good(w) && Possible(w, es) && 0 <= p < |w.ss| && Kill(p) !in es
    ensures var r := After(w, es); p < |r.ss| && FurtherOn(w.ss[p], r.ss[p])
  {
    hide Good, Apply, Enabled;
    if es != [] {
      var k := |es| - 1;
      ProgramGoesOn(w, es[..k], p);
      GoodAfter(w, es[..k]);
      EventFurther(After(w, es[..k]), es[k], p);
    }
  }

  /** From the beginning of a burst of n ticks to its end, however often it is interrupted, its process runs for exactly n
      ticks. */
  lemma BurstTakes(w: World, es: seq<Event>, p: int, n: nat)
    requires Good(w) && AllOnTrack(w) && Possible(w, es) && 0 <= p < |w.ss| && Kill(p) !in es && w.ss[p].used
    requires var s := w.ss[p]; s.pc < |s.insns| && s.insns[s.pc] == Cpu(n) && s.remaining == 0
    requires var ss := After(w, es).ss; p < |ss| && ss[p].pc == w.ss[p].pc + 1 && ss[p].remaining == 0
    ensures p < |After(w, es).ps| && After(w, es).ps[p].cpu == w.ps[p].cpu + n
  {
    hide Good, After, Possible;
    StaysOnTrack(w, es);
    ProgramGoesOn(w, es, p);
    assert OnTrack(w.ps[p], w.ss[p]) && OnTrack(After(w, es).ps[p], After(w, es).ss[p]);
  }

  /** A process that has come to the end of its program has run for all its bursts. */
  lemma ProgramTakes(es: seq<Event>, p: int)
    requires Possible(Begin(), es) && 0 <= p < |After(Begin(), es).ss|
    requires var s := After(Begin(), es).ss[p]; s.used && s.pc == |s.insns|
    ensures var r := After(Begin(), es); p < |r.ps| && r.ps[p].cpu == Bursts(r.ss[p].insns, |r.ss[p].insns|)
  {
    hide Good, After, Possible;
    BeginGood();
    StaysOnTrack(Begin(), es);
    assert OnTrack(After(Begin(), es).ps[p], After(Begin(), es).ss[p]);
  }
}
