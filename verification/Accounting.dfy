/** Where the ticks go: what the counters of a process add up to, how much work is left, and how far aging has
    got. All about values; the runtime's methods keep these facts step by step. */
module Accounting {
  import opened Proc

  // ----- ticks -----

  ghost function SumCpu(ps: seq<Pcb>): nat {
    if ps == [] then 0 else SumCpu(ps[..|ps| - 1]) + ps[|ps| - 1].cpu
  }

  lemma {:induction false} SumCpuSame(ps: seq<Pcb>, ps': seq<Pcb>)
    requires |ps| == |ps'| && forall p :: 0 <= p < |ps| ==> ps[p].cpu == ps'[p].cpu
    ensures SumCpu(ps) == SumCpu(ps')
  {
    if ps != [] {
      SumCpuSame(ps[..|ps| - 1], ps'[..|ps| - 1]);
    }
  }

  lemma {:induction false} SumCpuUpdate(ps: seq<Pcb>, i: nat, c: Pcb)
    requires i < |ps|
    ensures SumCpu(ps[i := c]) == SumCpu(ps) - ps[i].cpu + c.cpu
  {
    var k := |ps| - 1;
    if i < k {
      assert ps[i := c][..k] == ps[..k][i := c];
      SumCpuUpdate(ps[..k], i, c);
    } else {
      assert ps[i := c][..k] == ps[..k];
    }
  }

  /** A process's time, from its start to now or to its end, is running, ready or blocked time; its response time
      is the ready time before its first dispatch. */
  ghost predicate TimeOk(c: Pcb, blocked: nat, tick: nat) {
    && c.state != New
    && c.start + c.cpu + c.wait + blocked == (if c.state == Exited then c.finish else tick)
    && (c.response == NO_RESPONSE ==> c.cpu == 0 && blocked == 0 && (c.state == Ready || c.state == Exited))
    && (c.response != NO_RESPONSE ==> 0 <= c.response <= c.wait)
    && c.lastReady <= tick
  }

  ghost predicate TimesOk(ps: seq<Pcb>, blocked: seq<nat>, tick: nat, busy: nat, idle: nat) {
    && tick == busy + idle
    && SumCpu(ps) == busy
    && |blocked| == |ps|
    && forall p :: 0 <= p < |ps| ==> TimeOk(ps[p], blocked[p], tick)
  }

  /** Changing one block within a tick, without touching its running time. */
  lemma TimesUpdate(ps: seq<Pcb>, blocked: seq<nat>, tick: nat, busy: nat, idle: nat, i: nat, c: Pcb)
    requires TimesOk(ps, blocked, tick, busy, idle) && i < |ps| && c.cpu == ps[i].cpu && TimeOk(c, blocked[i], tick)
    ensures TimesOk(ps[i := c], blocked, tick, busy, idle)
  {
    SumCpuUpdate(ps, i, c);
  }

  /** A valid move at the present tick keeps the process's accounts; the first dispatch records the ready time so far. */
  lemma MoveTime(c: Pcb, blocked: nat, tick: nat, to: State)
    requires TimeOk(c, blocked, tick) && ValidTransition(c.state, to) && c.state != Exited
    ensures TimeOk(Moved(c, to, tick), blocked, tick)
    ensures to == Running && c.response == NO_RESPONSE ==> Moved(c, to, tick).response == c.wait
  {
  }

  /** One more tick of waiting for every READY process (account_ready_wait). */
  function Waited(c: Pcb): Pcb {
    if c.state == Ready then c.(wait := c.wait + 1) else c
  }

  ghost function AllWaited(ps: seq<Pcb>): (r: seq<Pcb>)
    ensures |r| == |ps| && forall p :: 0 <= p < |ps| ==> r[p] == Waited(ps[p])
  {
    seq(|ps|, p requires 0 <= p < |ps| => Waited(ps[p]))
  }

  ghost function MoreBlocked(ps: seq<Pcb>, blocked: seq<nat>): (r: seq<nat>)
    requires |blocked| == |ps|
    ensures |r| == |ps|
    ensures forall p :: 0 <= p < |ps| ==> r[p] == if ps[p].state == Blocked then blocked[p] + 1 else blocked[p]
  {
    seq(|ps|, p requires 0 <= p < |ps| => if ps[p].state == Blocked then blocked[p] + 1 else blocked[p])
  }

  /** An idle tick: nobody runs, everybody else's account grows by one. */
  lemma IdleTick(ps: seq<Pcb>, blocked: seq<nat>, tick: nat, busy: nat, idle: nat)
    requires TimesOk(ps, blocked, tick, busy, idle) && forall p :: 0 <= p < |ps| ==> ps[p].state != Running
    ensures |blocked| == |ps| && TimesOk(AllWaited(ps), MoreBlocked(ps, blocked), tick + 1, busy, idle + 1)
  {
    SumCpuSame(ps, AllWaited(ps));
  }

  /** A busy tick: process i runs. */
  lemma BusyTick(ps: seq<Pcb>, blocked: seq<nat>, tick: nat, busy: nat, idle: nat, i: nat)
    requires TimesOk(ps, blocked, tick, busy, idle) && i < |ps|
    requires forall p :: 0 <= p < |ps| ==> (ps[p].state == Running <==> p == i)
    ensures |blocked| == |ps|
    ensures TimesOk(AllWaited(ps)[i := ps[i].(cpu := ps[i].cpu + 1)], MoreBlocked(ps, blocked), tick + 1, busy + 1, idle)
  {
    SumCpuSame(ps, AllWaited(ps));
    SumCpuUpdate(AllWaited(ps), i, ps[i].(cpu := ps[i].cpu + 1));
  }

  // ----- work -----

  datatype Insn = Cpu(ticks: nat) | Io(ticks: nat) | Call | Exit

  datatype Slot = Slot(used: bool, insns: seq<Insn>, pc: nat, remaining: nat)

  ghost function Rest(s: Slot): nat {
    if s.pc < |s.insns| then |s.insns| - s.pc else 0
  }

  /** A blocked process whose wake-up time has come. */
  predicate Due(c: Pcb, tick: nat) {
    c.state == Blocked && 0 < c.wakeup <= tick
  }

  ghost function Weight(c: Pcb, s: Slot, tick: nat): nat {
    if c.state == Exited then 0
    else 2 * Rest(s) + if c.state == Ready || c.state == Running || Due(c, tick) then 1 else 0
  }

  /** Twice the instructions left to live processes, plus the processes that are ready, running or due to wake. */
  ghost function Work(ps: seq<Pcb>, ss: seq<Slot>, tick: nat): nat
    requires |ps| == |ss|
  {
    if ps == [] then 0
    else
      var k := |ps| - 1;
      Work(ps[..k], ss[..k], tick) + Weight(ps[k], ss[k], tick)
  }

  /** Twice the instructions left to live processes, plus the live processes. */
  ghost function Bound(ps: seq<Pcb>, ss: seq<Slot>): nat
    requires |ps| == |ss|
  {
    if ps == [] then 0
    else
      var k := |ps| - 1;
      Bound(ps[..k], ss[..k]) + if ps[k].state == Exited then 0 else 2 * Rest(ss[k]) + 1
  }

  lemma {:induction false} WorkBound(ps: seq<Pcb>, ss: seq<Slot>, tick: nat)
    requires |ps| == |ss|
    ensures Work(ps, ss, tick) <= Bound(ps, ss)
  {
    if ps != [] {
      WorkBound(ps[..|ps| - 1], ss[..|ps| - 1], tick);
    }
  }

  lemma {:induction false} WorkUpdate(ps: seq<Pcb>, ss: seq<Slot>, tick: nat, i: nat, c: Pcb, s: Slot)
    requires |ps| == |ss| && i < |ps|
    ensures Work(ps[i := c], ss[i := s], tick) == Work(ps, ss, tick) - Weight(ps[i], ss[i], tick) + Weight(c, s, tick)
  {
    var k := |ps| - 1;
    if i < k {
      assert ps[i := c][..k] == ps[..k][i := c] && ss[i := s][..k] == ss[..k][i := s];
      WorkUpdate(ps[..k], ss[..k], tick, i, c, s);
    } else {
      assert ps[i := c][..k] == ps[..k] && ss[i := s][..k] == ss[..k];
    }
  }

  lemma {:induction false} WorkSame(ps: seq<Pcb>, ps': seq<Pcb>, ss: seq<Slot>, tick: nat)
    requires |ps| == |ps'| == |ss|
    requires forall p :: 0 <= p < |ps| ==> Weight(ps[p], ss[p], tick) == Weight(ps'[p], ss[p], tick)
    ensures Work(ps, ss, tick) == Work(ps', ss, tick)
  {
    if ps != [] {
      WorkSame(ps[..|ps| - 1], ps'[..|ps| - 1], ss[..|ps| - 1], tick);
    }
  }

  /** Processes only end and instructions only get used up, so the bound never grows. */
  lemma {:induction false} BoundShrinks(ps: seq<Pcb>, ss: seq<Slot>, ps': seq<Pcb>, ss': seq<Slot>)
    requires |ps| == |ss| == |ps'| == |ss'|
    requires forall p :: 0 <= p < |ps| ==> Later(ps[p], ss[p], ps'[p], ss'[p])
    ensures Bound(ps', ss') <= Bound(ps, ss)
  {
    if ps != [] {
      var k := |ps| - 1;
      BoundShrinks(ps[..k], ss[..k], ps'[..k], ss'[..k]);
      assert Later(ps[k], ss[k], ps'[k], ss'[k]);
    }
  }

  ghost predicate Later(c: Pcb, s: Slot, c': Pcb, s': Slot) {
    c'.state == Exited || (c.state != Exited && Rest(s') <= Rest(s))
  }

  // ----- aging -----

  function Max(a: int, b: int): int {
    if a < b then b else a
  }

  /** One aging step at the present tick (age_one). */
  function AgedOne(c: Pcb, now: nat, interval: nat): Pcb
    requires 0 < interval
  {
    if c.state == Ready && MIN_PRIO < c.priority && c.lastReady < now && (now - c.lastReady) % interval == 0
    then c.(priority := c.priority - 1) else c
  }

  /** How many steps aging has taken up to tick `aged` for a process READY since `ready`, under a policy that began at
      tick `since`: one for each five ticks of being READY. */
  ghost function AgeSteps(ready: nat, since: nat, aged: int): int {
    Max(0, aged - ready) / 5 - Max(0, since - ready) / 5
  }

  /** A READY process that had priority p0 when it became READY, or when the policy began, has lost that many since, or
      has reached 0. */
  ghost predicate AgeOk(c: Pcb, p0: int, since: nat, aged: int) {
    c.state == Ready ==>
      && MIN_PRIO <= c.priority && p0 <= MAX_PRIO
      && c.priority <= Max(MIN_PRIO, p0 - AgeSteps(c.lastReady, since, aged))
  }

  /** Aging at each tick, once or more often, keeps up. */
  lemma AgeStep(c: Pcb, p0: int, since: nat, aged: int, now: nat)
    requires AgeOk(c, p0, since, aged) && now - 1 <= aged <= now
    ensures AgeOk(AgedOne(c, now, 5), p0, since, now)
  {
    if c.state == Ready && c.lastReady < now {
      var d := now - c.lastReady;
      assert d % 5 == 0 ==> (d - 1) / 5 == d / 5 - 1;
      assert d % 5 != 0 ==> (d - 1) / 5 == d / 5;
    }
  }

  /** After 195 ticks of being READY under the policy, priority 0 is reached from anywhere. */
  lemma AgedOut(c: Pcb, p0: int, since: nat, now: nat)
    requires AgeOk(c, p0, since, now) && c.state == Ready && Max(c.lastReady, since) + 195 <= now
    ensures c.priority == MIN_PRIO
  {
    var a, b := now - c.lastReady, Max(0, since - c.lastReady);
    assert b + 195 <= a;
    assert 39 <= a / 5 - b / 5;
  }
}
