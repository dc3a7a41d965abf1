/** What rebuilding the queues does to those who wait: ending a process puts the others in slot order. */
module TickKills {
  import opened Proc
  import opened Sched
  import opened TickSpec
  import opened TickFacts
  import opened TickOrder
  import opened TickRobin

  ghost predicate Increasing(s: seq<int>) {
    forall i, j :: 0 <= i < j < |s| ==> s[i] < s[j]
  }

  /** The READY ones of the first n processes, in slot order. */
  ghost function ReadyUpTo(ps: seq<Pcb>, n: nat): seq<int>
    requires n <= |ps|
  {
    if n == 0 then [] else ReadyUpTo(ps, n - 1) + if ps[n - 1].state == Ready then [n - 1] else []
  }

  lemma {:induction false} SlotOrder(ps: seq<Pcb>, n: nat)
    requires n <= |ps|
    ensures Increasing(ReadyUpTo(ps, n))
    ensures forall x :: x in ReadyUpTo(ps, n) <==> 0 <= x < n && ps[x].state == Ready
  {
    if 0 < n {
      SlotOrder(ps, n - 1);
      var a := ReadyUpTo(ps, n - 1);
      assert forall i :: 0 <= i < |a| ==> a[i] in a;
    }
  }

  lemma {:induction false} LinedLine(algo: Algo, ps: seq<Pcb>, n: nat)
    requires n <= |ps| && OneLine(algo)
    ensures LinedUpTo(algo, ps, n).line == ReadyUpTo(ps, n)
  {
    if 0 < n {
      LinedLine(algo, ps, n - 1);
    }
  }

  /** There is only one way to put a set in slot order. */
  lemma {:induction false} OnlyOrder(a: seq<int>, b: seq<int>)
    requires Increasing(a) && Increasing(b) && forall x :: x in a <==> x in b
    ensures a == b
  {
    assert (a != [] ==> a[0] in a) && (b != [] ==> b[0] in b);
    if a != [] && b != [] {
      var m, n := |a| - 1, |b| - 1;
      assert a[m] in b && b[n] in a;
      assert a[m] == b[n];
      forall x
        ensures x in a[..m] <==> x in b[..n]
      {
        assert x in a[..m] <==> x in a && x != a[m];
        assert x in b[..n] <==> x in b && x != b[n];
      }
      OnlyOrder(a[..m], b[..n]);
      assert a == a[..m] + [a[m]] && b == b[..n] + [b[n]];
    }
  }

  /** The line without pid. */
  ghost function Except(line: seq<int>, pid: int): seq<int> {
    if line == [] then []
    else
      var k := |line| - 1;
      Except(line[..k], pid) + if line[k] == pid then [] else [line[k]]
  }

  lemma {:induction false} ExceptIs(line: seq<int>, pid: int)
    ensures forall x :: x in Except(line, pid) <==> x in line && x != pid
  {
    if line != [] {
      var k := |line| - 1;
      ExceptIs(line[..k], pid);
      assert line == line[..k] + [line[k]];
    }
  }

  /** Nobody moves back, and nobody passes anybody. */
  lemma {:induction false} ExceptAt(line: seq<int>, pid: int, i: nat, j: nat) returns (i': nat, j': nat)
    requires i <= j < |Except(line, pid)|
    ensures i <= i' <= j' < |line| && j <= j' && (i < j ==> i' < j')
    ensures line[i'] == Except(line, pid)[i] && line[j'] == Except(line, pid)[j]
  {
    var k := |line| - 1;
    var rest := Except(line[..k], pid);
    if j < |rest| {
      i', j' := ExceptAt(line[..k], pid, i, j);
    } else if i < |rest| {
      var n;
      i', n := ExceptAt(line[..k], pid, i, i);
      ExceptShorter(line[..k], pid);
      j' := k;
    } else {
      ExceptShorter(line[..k], pid);
      i', j' := k, k;
    }
  }

  lemma {:induction false} ExceptShorter(line: seq<int>, pid: int)
    ensures |Except(line, pid)| <= |line|
  {
    if line != [] {
      ExceptShorter(line[..|line| - 1], pid);
    }
  }

  lemma KilledLine(w: World, pid: int)
    requires Good(w) && OneLine(w.algo) && Live(w, pid)
    ensures var line := Killed(w, pid).lines.line;
            Increasing(line) && (forall x :: x in line <==> x in Except(w.lines.line, pid)) && Killed(w, pid).algo == w.algo
  {
    GoodLine(w);
    var ps' := w.ps[pid := Dead(w.ps[pid], 130, w.tick)];
    LinedLine(w.algo, ps', |ps'|);
    SlotOrder(ps', |ps'|);
    ExceptIs(w.lines.line, pid);
  }

  /** Ending a process leaves the others in their order exactly if that is the order of their slots. */
  lemma KillKeepsOrderIff(w: World, pid: int)
    requires Good(w) && OneLine(w.algo) && Live(w, pid)
    ensures Killed(w, pid).lines.line == Except(w.lines.line, pid) <==> Increasing(Except(w.lines.line, pid))
  {
    hide Good, Killed, Except;
    KilledLine(w, pid);
    if Increasing(Except(w.lines.line, pid)) {
      OnlyOrder(Killed(w, pid).lines.line, Except(w.lines.line, pid));
    }
  }

  lemma KilledSame(w: World, pid: int)
    requires Good(w) && Live(w, pid)
    ensures var r := Killed(w, pid);
            && r.algo == w.algo && r.quantum == w.quantum && r.tick == w.tick && |r.ps| == |w.ps| && Slack(r) <= Slack(w)
            && (Charged(w) ==> Charged(r))
            && forall p :: 0 <= p < |w.ps| ==> r.ps[p].lastReady == w.ps[p].lastReady
  {
    hide LinedUpTo;
  }

  /** And then nobody waits longer for it. */
  lemma KillKeepsPrompt(w: World, pid: int)
    requires Good(w) && w.algo == RoundRobin && Prompt(w) && Live(w, pid) && Increasing(Except(w.lines.line, pid))
    ensures Prompt(Killed(w, pid))
  {
    hide Good, Killed, Except, Slack, Charged, Live;
    KillKeepsOrderIff(w, pid);
    KilledSame(w, pid);
    var r := Killed(w, pid);
    forall j | 0 <= j < |r.lines.line|
      ensures InTime(r, j)
    {
      var i, n := ExceptAt(w.lines.line, pid, j, j);
      assert InTime(w, i);
      TimesLe(j, i, w.quantum);
    }
  }

  lemma KillKeepsTimes(w: World, pid: int)
    requires Good(w) && OneLine(w.algo) && InOrder(w) && Live(w, pid) && Increasing(Except(w.lines.line, pid))
    ensures InOrder(Killed(w, pid))
  {
    hide Good, Killed, Except, Slack, Charged, Live, InOrder;
    KillKeepsOrderIff(w, pid);
    KilledSame(w, pid);
    var r := Killed(w, pid);
    LineByTime(w);
    LineByTime(r);
    var line := r.lines.line;
    forall i | 0 <= i < |line|
      ensures 0 <= line[i] < |r.ps|
    {
      var i', j' := ExceptAt(w.lines.line, pid, i, i);
    }
    forall i, j | 0 <= i < j < |line|
      ensures r.ps[line[i]].lastReady <= r.ps[line[j]].lastReady
    {
      var i', j' := ExceptAt(w.lines.line, pid, i, j);
    }
  }

  /** The running process stays charged for its time exactly if nothing makes the scheduler forget who is running, or its
      quantum shorter than what it has used. */
  lemma StaysCharged(w: World, e: Event)
    requires Good(w) && Enabled(w, e) && Charged(w) && w.algo != Fcfs
    ensures Charged(Apply(w, e)) <==>
            match e
            case Choose(_) => w.current < 0
            case Slice(n) => w.current < 0 || w.consumed < AtLeastOne(n)
            case _ => true
  {
    match e
    case Pass(pick, a) =>
      hide Good, Passed, Enabled;
      PassSpends(w, pick, a);
    case Kill(pid) =>
      if Live(w, pid) {
        KilledSame(w, pid);
      }
    case _ =>
      hide LinedUpTo, Prepared;
  }
}
