/** Aging under the priority policy: how long a process can be passed over, and how long it can wait in all. */
module TickAging {
  import opened Sequences
  import opened Proc
  import opened Sched
  import opened Accounting
  import opened TickSpec
  import opened TickFacts
  import opened TickWork
  import opened TickOrder
  import opened TickRobin
  import PrioHeap

  // ----- priorities -----

  /** Before dispatch every process that is READY, or due to be, is aged for this tick. */
  lemma PreparedAges(w: World, p: int)
    requires Good(w) && w.algo == Prio && 0 <= p < |w.ps|
    ensures Prepared(w).ps[p] == AgedOne(WokeBlock(w.ps[p], w.tick), w.tick, AGING_INTERVAL)
  {
    WokenBlocks(w, |w.ps|);
    hide WokenUpTo, LinedUpTo, Sound;
  }

  lemma AgeSooner(c: Pcb, p0: int, since: nat, aged: int, sooner: int)
    requires AgeOk(c, p0, since, aged) && sooner <= aged
    ensures AgeOk(c, p0, since, sooner)
  {
    var a, b := Max(0, sooner - c.lastReady), Max(0, aged - c.lastReady);
    assert a / 5 <= b / 5;
  }

  lemma AgeJoined(c: Pcb, since: nat, aged: int)
    requires c.priority <= MAX_PRIO && MIN_PRIO <= c.priority && aged <= Max(c.lastReady, since)
    ensures AgeOk(c, MAX_PRIO, since, aged)
  {
    assert Max(0, aged - c.lastReady) / 5 <= Max(0, since - c.lastReady) / 5;
  }

  /** A process that is READY and not dispatched in a pass is aged for that tick. */
  lemma PassAges(w: World, pick: int, a: Answer, p: int, p0: int, since: nat)
    requires Good(w) && Enabled(w, Pass(pick, a)) && w.algo == Prio && 0 <= p < |w.ps| && w.ps[p].state == Ready
    requires AgeOk(w.ps[p], p0, since, w.tick - 1)
    ensures AgeOk(Prepared(w).ps[p], p0, since, w.tick)
    ensures p !in Starts(w, Pass(pick, a)) ==>
              var r := Passed(w, pick, a); p < |r.ps| && AgeOk(r.ps[p], p0, since, w.tick)
  {
    PreparedAges(w, p);
    hide Good, Prepared, Passed, Enabled, Starts;
    AgeStep(w.ps[p], p0, since, w.tick - 1, w.tick);
    PreparedWaits(w, p);
    PassWaits(w, pick, a, p);
  }

  /** Nothing happens to a process that is not dispatched, ended or aged. */
  lemma OthersWait(w: World, e: Event, p: int)
    requires Good(w) && 0 <= p < |w.ps| && w.ps[p].state == Ready && !e.Pass? && e != Kill(p) && !e.Choose?
    ensures var r := Apply(w, e);
            |w.ps| <= |r.ps| && r.ps[p] == w.ps[p] && r.tick == w.tick && r.algo == w.algo
  {
    hide LinedUpTo, Appended;
  }

  /** As long as it waits, a process that had priority p0 loses a point for every five ticks. */
  lemma {:induction false} AgesWhileWaiting(w: World, es: seq<Event>, p: int, p0: int, since: nat)
    requires Good(w) && Possible(w, es) && w.algo == Prio && 0 <= p < |w.ps| && w.ps[p].state == Ready
    requires AgeOk(w.ps[p], p0, since, w.tick - 1)
    requires p !in StartLog(w, es) && forall k :: 0 <= k < |es| ==> es[k] != Kill(p) && !es[k].Choose?
    ensures var r := After(w, es);
            && r.algo == Prio && p < |r.ps| && r.ps[p].state == Ready && r.ps[p].lastReady == w.ps[p].lastReady
            && AgeOk(r.ps[p], p0, since, r.tick - 1)
  {
    hide Good, Apply, Enabled, Starts;
    if es != [] {
      var k := |es| - 1;
      var v, e := After(w, es[..k]), es[k];
      AgesWhileWaiting(w, es[..k], p, p0, since);
      GoodAfter(w, es[..k]);
      EventAges(v, e, p, p0, since);
    }
  }

  lemma EventAges(w: World, e: Event, p: int, p0: int, since: nat)
    requires Good(w) && Enabled(w, e) && w.algo == Prio && 0 <= p < |w.ps| && w.ps[p].state == Ready
    requires AgeOk(w.ps[p], p0, since, w.tick - 1) && p !in Starts(w, e) && e != Kill(p) && !e.Choose?
    ensures var r := Apply(w, e);
            && r.algo == Prio && p < |r.ps| && r.ps[p].state == Ready && r.ps[p].lastReady == w.ps[p].lastReady
            && AgeOk(r.ps[p], p0, since, r.tick - 1)
  {
    if e.Pass? {
      hide Good, Enabled, Passed, Starts;
      var r := Passed(w, e.pick, e.answer);
      PassAges(w, e.pick, e.answer, p, p0, since);
      PassWaits(w, e.pick, e.answer, p);
      PassSteady(w, e.pick, e.answer);
      PassedWork(w, e.pick, e.answer);
      AgeSooner(r.ps[p], p0, since, w.tick, r.tick - 1);
    } else {
      hide Good, Enabled, Apply, AgeOk;
      OthersWait(w, e, p);
    }
  }

  /** The passes of a history that age a process READY since the given tick: those that begin a multiple of five ticks later. */
  ghost function Agings(w: World, es: seq<Event>, ready: nat): nat {
    if es == [] then 0
    else
      var k := |es| - 1;
      var now := After(w, es[..k]).tick;
      Agings(w, es[..k], ready) + if es[k].Pass? && ready < now && (now - ready) % 5 == 0 then 1 else 0
  }

  lemma PassAgesExactly(w: World, pick: int, a: Answer, p: int)
    requires Good(w) && Enabled(w, Pass(pick, a)) && w.algo == Prio && 0 <= p < |w.ps| && w.ps[p].state == Ready
    requires p !in Starts(w, Pass(pick, a))
    ensures var r, ready := Passed(w, pick, a), w.ps[p].lastReady;
            && p < |r.ps| && r.ps[p].state == Ready && r.ps[p].lastReady == ready && r.algo == Prio
            && r.ps[p].priority ==
               if ready < w.tick && (w.tick - ready) % 5 == 0 then Max(0, w.ps[p].priority - 1) else w.ps[p].priority
  {
    PreparedAges(w, p);
    InRange(w, p);
    hide Good, Prepared, Passed, Enabled, Starts;
    PassWaits(w, pick, a, p);
    PassSteady(w, pick, a);
  }

  /** Exactly how far a process ages while it waits: one point in every such pass, down to 0. Several passes may begin at the
      same tick, and each of them ages. */
  lemma {:induction false} AgesExactly(w: World, es: seq<Event>, p: int)
    requires Good(w) && Possible(w, es) && w.algo == Prio && 0 <= p < |w.ps| && w.ps[p].state == Ready
    requires p !in StartLog(w, es) && forall k :: 0 <= k < |es| ==> es[k] != Kill(p) && !es[k].Choose?
    ensures var r := After(w, es);
            && r.algo == Prio && p < |r.ps| && r.ps[p].state == Ready && r.ps[p].lastReady == w.ps[p].lastReady
            && r.ps[p].priority == Max(0, w.ps[p].priority - Agings(w, es, w.ps[p].lastReady))
  {
    hide Good, Apply, Enabled, Starts;
    if es == [] {
      InRange(w, p);
    } else {
      var k := |es| - 1;
      var v, e := After(w, es[..k]), es[k];
      AgesExactly(w, es[..k], p);
      GoodAfter(w, es[..k]);
      EventAgesExactly(v, e, p);
    }
  }

  lemma EventAgesExactly(w: World, e: Event, p: int)
    requires Good(w) && Enabled(w, e) && w.algo == Prio && 0 <= p < |w.ps| && w.ps[p].state == Ready
    requires p !in Starts(w, e) && e != Kill(p) && !e.Choose?
    ensures var r, ready := Apply(w, e), w.ps[p].lastReady;
            && p < |r.ps| && r.ps[p].state == Ready && r.ps[p].lastReady == ready && r.algo == Prio
            && r.ps[p].priority ==
               if e.Pass? && ready < w.tick && (w.tick - ready) % 5 == 0 then Max(0, w.ps[p].priority - 1) else w.ps[p].priority
  {
    if e.Pass? {
      hide Good, Enabled, Passed, Starts;
      PassAgesExactly(w, e.pick, e.answer, p);
    } else {
      hide Good, Enabled, Apply;
      OthersWait(w, e, p);
    }
  }

  /** Aging has kept up with every READY process since the policy was chosen. */
  ghost predicate Aged(w: World, since: nat) {
    w.algo == Prio ==>
      since <= w.tick && forall p :: 0 <= p < |w.ps| ==> AgeOk(w.ps[p], MAX_PRIO, since, w.tick - 1)
  }

  lemma PassAged(w: World, pick: int, a: Answer, since: nat)
    requires Good(w) && Enabled(w, Pass(pick, a)) && Aged(w, since)
    ensures Aged(Passed(w, pick, a), since)
  {
    hide Good, Enabled, Passed, Starts, Prepared, AgeOk;
    var r := Passed(w, pick, a);
    PassSteady(w, pick, a);
    PassedWork(w, pick, a);
    GoodPassed(w, pick, a);
    forall p | w.algo == Prio && 0 <= p < |r.ps|
      ensures AgeOk(r.ps[p], MAX_PRIO, since, r.tick - 1)
    {
      PassWaits(w, pick, a, p);
      InRange(r, p);
      if r.ps[p].state != Ready {
        NotReadyAge(r.ps[p], since, r.tick - 1);
      } else if w.ps[p].state == Ready && p !in Starts(w, Pass(pick, a)) {
        PassAges(w, pick, a, p, MAX_PRIO, since);
        AgeSooner(r.ps[p], MAX_PRIO, since, w.tick, r.tick - 1);
      } else {
        AgeJoined(r.ps[p], since, r.tick - 1);
      }
    }
  }

  lemma NotReadyAge(c: Pcb, since: nat, aged: int)
    requires c.state != Ready
    ensures AgeOk(c, MAX_PRIO, since, aged)
  {
  }

  lemma InRange(w: World, p: int)
    requires Good(w) && 0 <= p < |w.ps|
    ensures MIN_PRIO <= w.ps[p].priority <= MAX_PRIO && w.ps[p].lastReady <= w.tick
  {
    BlockAt(w, p);
  }

  /** The tick at which the present policy was chosen. */
  ghost function Since(w: World, es: seq<Event>): nat {
    if es == [] then w.tick
    else if es[|es| - 1].Choose? then After(w, es[..|es| - 1]).tick
    else Since(w, es[..|es| - 1])
  }

  /** Who is READY after a request was so before, or is the process launched. */
  lemma RequestBlock(w: World, e: Event, p: int)
    requires Good(w) && !e.Pass? && 0 <= p < |Apply(w, e).ps| && Apply(w, e).ps[p].state == Ready
    ensures var r := Apply(w, e); if p < |w.ps| then r.ps[p] == w.ps[p] else r.ps[p].lastReady == w.tick
  {
    hide LinedUpTo, Appended;
  }

  lemma RequestSame(w: World, e: Event)
    requires !e.Pass?
    ensures Apply(w, e).tick == w.tick && (e.Choose? || Apply(w, e).algo == w.algo)
  {
    hide LinedUpTo, Appended;
  }

  lemma EventAged(w: World, e: Event, since: nat)
    requires Good(w) && Enabled(w, e) && Aged(w, since)
    ensures Aged(Apply(w, e), if e.Choose? then w.tick else since)
  {
    if e.Pass? {
      hide Good, Enabled, Passed, Aged;
      PassAged(w, e.pick, e.answer, since);
    } else {
      hide Good, Enabled, Apply, AgeOk;
      var r := Apply(w, e);
      GoodApply(w, e);
      RequestSame(w, e);
      forall p | 0 <= p < |r.ps| && r.algo == Prio
        ensures AgeOk(r.ps[p], MAX_PRIO, if e.Choose? then w.tick else since, r.tick - 1)
      {
        InRange(r, p);
        if r.ps[p].state != Ready {
          NotReadyAge(r.ps[p], if e.Choose? then w.tick else since, r.tick - 1);
        } else {
          RequestBlock(w, e, p);
          if e.Choose? {
            AgeJoined(r.ps[p], w.tick, r.tick - 1);
          } else if |w.ps| <= p {
            AgeJoined(r.ps[p], since, r.tick - 1);
          }
        }
      }
    }
  }

  lemma NotYetAged(w: World)
    requires Good(w)
    ensures Aged(w, w.tick)
  {
    hide Good, AgeOk;
    forall p | 0 <= p < |w.ps|
      ensures AgeOk(w.ps[p], MAX_PRIO, w.tick, w.tick - 1)
    {
      InRange(w, p);
      AgeJoined(w.ps[p], w.tick, w.tick - 1);
    }
  }

  /** Over every history aging keeps up with everybody. */
  lemma {:induction false} StaysAged(w: World, es: seq<Event>)
    requires Good(w) && Possible(w, es)
    ensures Aged(After(w, es), Since(w, es))
  {
    hide Good, Aged, Apply, Enabled;
    if es == [] {
      NotYetAged(w);
    } else {
      var k := |es| - 1;
      StaysAged(w, es[..k]);
      GoodAfter(w, es[..k]);
      EventAged(After(w, es[..k]), es[k], Since(w, es[..k]));
    }
  }

  /** Whoever has been READY for 195 ticks under the policy is passed over only for processes READY no later. */
  lemma NotPassedOver(w: World, pick: int, a: Answer, since: nat, p: int)
    requires Good(w) && Enabled(w, Pass(pick, a)) && w.algo == Prio && Aged(w, since)
    requires 0 <= p < |w.ps| && w.ps[p].state == Ready && Max(w.ps[p].lastReady, since) + 195 <= w.tick
    ensures var v := Prepared(w);
            Starts(w, Pass(pick, a)) != [] ==>
              && 0 <= pick < |v.ps| && v.ps[pick].state == Ready && v.ps[pick].priority == MIN_PRIO
              && v.ps[pick].lastReady <= w.ps[p].lastReady
  {
    PassAges(w, pick, a, p, MAX_PRIO, since);
    PreparedWaits(w, p);
    hide Sound, Prepared, AtHead;
    var v := Prepared(w);
    AgedOut(v.ps[p], MAX_PRIO, since, w.tick);
    PreparedPrio(w);
    if v.current < 0 && !Nobody(v) {
      InRange(v, pick);
      assert !PrioHeap.Less(v.ps, p, pick);
    }
  }

  lemma PreparedPrio(w: World)
    requires Good(w)
    ensures Good(Prepared(w)) && Prepared(w).algo == w.algo && |Prepared(w).ps| == |w.ps|
  {
    PreparedBlocks(w);
  }

  // ----- how long a process waits in all -----

  /** The other processes READY no later than p. */
  ghost function Ahead(ps: seq<Pcb>, p: int): (S: set<int>)
    requires 0 <= p < |ps|
    ensures forall x :: x in S <==> 0 <= x < |ps| && x != p && ps[x].state == Ready && ps[x].lastReady <= ps[p].lastReady
  {
    set x | 0 <= x < |ps| && x != p && ps[x].state == Ready && ps[x].lastReady <= ps[p].lastReady
  }

  lemma AheadFits(w: World, p: int)
    requires Good(w) && 0 <= p < |w.ps| && w.ps[p].state == Ready
    ensures |Ahead(w.ps, p)| + 1 + (if 0 <= w.current then 1 else 0) <= |w.ps|
  {
    var S := Ahead(w.ps, p) + {p};
    assert Ahead(w.ps, p) == S - {p};
    SubsetSize(if 0 <= w.current then S + {w.current} else S, Below(|w.ps|));
  }

  /** Aged to the top, p can still be dispatched in time. */
  ghost predicate OldInTime(w: World, since: nat, p: int)
    requires 0 <= p < |w.ps|
  {
    var top := Max(w.ps[p].lastReady, since) + 195;
    w.ps[p].state == Ready && top <= w.tick ==>
      w.tick + |Ahead(w.ps, p)| * w.quantum + Slack(w) <= top + |w.ps| * w.quantum
  }

  ghost predicate Patient(w: World, since: nat) {
    w.algo == Prio ==> Charged(w) && forall p :: 0 <= p < |w.ps| ==> OldInTime(w, since, p)
  }

  /** What it is for: nobody waits longer than aging takes, and then a quantum for every process. */
  lemma PatientMeans(w: World, since: nat, p: int)
    requires Good(w) && w.algo == Prio && Patient(w, since) && 0 <= p < |w.ps| && w.ps[p].state == Ready
    ensures w.tick <= Max(w.ps[p].lastReady, since) + 195 + |w.ps| * w.quantum
  {
    hide Good, Slack;
    assert OldInTime(w, since, p);
    TimesLe(0, |Ahead(w.ps, p)|, w.quantum);
    TimesLe(0, |w.ps|, w.quantum);
  }

  /** Just aged to the top. */
  lemma JustOld(w: World, since: nat, p: int)
    requires Good(w) && 0 <= p < |w.ps| && w.tick <= Max(w.ps[p].lastReady, since) + 195 && Slack(w) <= w.quantum
    ensures OldInTime(w, since, p)
  {
    if w.ps[p].state == Ready {
      AheadFits(w, p);
      hide Good, Ahead, Slack;
      Times(|Ahead(w.ps, p)|, |w.ps|, w.quantum);
    }
  }

  /** Those ahead of a process aged to the top get fewer by one with every dispatch. */
  lemma FewerAhead(w: World, pick: int, a: Answer, since: nat, p: int)
    requires Good(w) && Enabled(w, Pass(pick, a)) && w.algo == Prio && Aged(w, since)
    requires 0 <= p < |w.ps| && w.ps[p].state == Ready && Max(w.ps[p].lastReady, since) + 195 <= w.tick
    requires p !in Starts(w, Pass(pick, a)) && |Passed(w, pick, a).ps| == |w.ps|
    ensures var r, started := Passed(w, pick, a), Starts(w, Pass(pick, a));
            |Ahead(r.ps, p)| + |started| <= |Ahead(w.ps, p)| && |started| <= 1
  {
    hide Good, Enabled, Passed, Prepared, Nobody;
    var r, started := Passed(w, pick, a), Starts(w, Pass(pick, a));
    PassWaits(w, pick, a, p);
    NotPassedOver(w, pick, a, since, p);
    PreparedPrio(w);
    if started != [] {
      PreparedWaits(w, pick);
      assert pick in Ahead(w.ps, p);
    }
    var S := set x | x in started;
    forall x | x in Ahead(r.ps, p)
      ensures x in Ahead(w.ps, p) - S
    {
      PassWaits(w, pick, a, x);
    }
    assert S == if started == [] then {} else {pick};
    SubsetSize(Ahead(r.ps, p), Ahead(w.ps, p) - S);
  }

  lemma PassPatient(w: World, pick: int, a: Answer, since: nat, p: int)
    requires Good(w) && Enabled(w, Pass(pick, a)) && w.algo == Prio && Aged(w, since) && Patient(w, since)
    requires 0 <= p < |Passed(w, pick, a).ps|
    ensures OldInTime(Passed(w, pick, a), since, p)
  {
    hide Good, Enabled, Passed, Prepared, Nobody, Starts, Slack, Aged, Ahead;
    var r, started := Passed(w, pick, a), Starts(w, Pass(pick, a));
    PassWho(w, pick, a, p);
    PassSpends(w, pick, a);
    GoodPassed(w, pick, a);
    assert OldInTime(w, since, p);
    if r.ps[p].state == Ready && Max(r.ps[p].lastReady, since) + 195 <= r.tick {
      if w.tick < Max(r.ps[p].lastReady, since) + 195 {
        SlackFits(r);
        JustOld(r, since, p);
      } else {
        FewerAhead(w, pick, a, since, p);
        ReadyNotIdle(w, p);
        Cheaper(|Ahead(r.ps, p)|, |started|, |Ahead(w.ps, p)|, w.quantum);
      }
    }
  }

  lemma Cheaper(m: nat, s: nat, n: nat, q: nat)
    requires m + s <= n && s <= 1
    ensures m * q + (if s == 0 then 0 else q) <= n * q
  {
    if s == 0 {
      TimesLe(m, n, q);
    } else {
      Times(m, n, q);
    }
  }

  lemma SlackFits(w: World)
    ensures Slack(w) <= w.quantum
  {
  }

  lemma ReadyNotIdle(w: World, p: int)
    requires Good(w) && 0 <= p < |w.ps| && w.ps[p].state == Ready
    ensures !Nobody(Prepared(w))
  {
    NobodyIff(w);
    assert Runnable(w.ps[p], w.tick);
  }

  /** Fewer ahead, less of the quantum left, more processes to count. */
  lemma Easier(w: World, r: World, since: nat, p: int)
    requires 0 <= p < |w.ps| <= |r.ps| && OldInTime(w, since, p) && r.tick == w.tick && r.quantum == w.quantum
    requires r.ps[p] == w.ps[p] && Slack(r) <= Slack(w)
    requires r.ps[p].state == Ready && Max(r.ps[p].lastReady, since) + 195 <= r.tick ==> Ahead(r.ps, p) <= Ahead(w.ps, p)
    ensures OldInTime(r, since, p)
  {
    hide Slack, Ahead;
    if r.ps[p].state == Ready && Max(r.ps[p].lastReady, since) + 195 <= r.tick {
      SubsetSize(Ahead(r.ps, p), Ahead(w.ps, p));
      TimesLe(|Ahead(r.ps, p)|, |Ahead(w.ps, p)|, w.quantum);
      TimesLe(|w.ps|, |r.ps|, w.quantum);
    }
  }

  lemma EventPatient(w: World, e: Event, since: nat)
    requires Good(w) && Enabled(w, e) && w.algo == Prio && Aged(w, since) && Patient(w, since) && !e.Choose? && !e.Slice?
    ensures Apply(w, e).algo == Prio && Apply(w, e).quantum == w.quantum && Patient(Apply(w, e), since)
  {
    hide Passed, Enabled, OldInTime, LinedUpTo, Appended, Aged, Sound;
    var r := Apply(w, e);
    if e.Pass? {
      PassSteady(w, e.pick, e.answer);
      PassSpends(w, e.pick, e.answer);
      forall p | 0 <= p < |r.ps|
        ensures OldInTime(r, since, p)
      {
        PassPatient(w, e.pick, e.answer, since, p);
      }
    } else {
      GoodApply(w, e);
      forall p | 0 <= p < |r.ps|
        ensures OldInTime(r, since, p)
      {
        if p == |w.ps| {
          JustOld(r, since, p);
        } else if r.ps[p] == w.ps[p] {
          RequestAhead(w, e, p);
          Easier(w, r, since, p);
        } else {
          Gone(r, since, p);
        }
      }
    }
  }

  lemma Gone(w: World, since: nat, p: int)
    requires 0 <= p < |w.ps| && w.ps[p].state != Ready
    ensures OldInTime(w, since, p)
  {
  }

  /** A request puts nobody ahead of a process that waits. */
  lemma RequestAhead(w: World, e: Event, p: int)
    requires Good(w) && !e.Pass? && !e.Choose? && !e.Slice? && 0 <= p < |w.ps| <= |Apply(w, e).ps|
    requires Apply(w, e).ps[p] == w.ps[p]
    ensures w.ps[p].state == Ready && w.ps[p].lastReady < w.tick ==> Ahead(Apply(w, e).ps, p) <= Ahead(w.ps, p)
  {
    hide LinedUpTo, Appended;
  }

  /** From any state in which the scheduler knows who is running, the priority policy lets nobody wait longer, whoever is
      launched, ended or asked to make room. */
  lemma {:induction false} StaysPatient(w: World, es: seq<Event>)
    requires Good(w) && w.algo == Prio && Charged(w) && Possible(w, es)
    requires forall k :: 0 <= k < |es| ==> !es[k].Choose? && !es[k].Slice?
    ensures var r := After(w, es);
            r.algo == Prio && r.quantum == w.quantum && Aged(r, w.tick) && Patient(r, w.tick)
  {
    if es == [] {
      NotYetAged(w);
      forall p | 0 <= p < |w.ps|
        ensures OldInTime(w, w.tick, p)
      {
      }
    } else {
      hide Good, Aged, Patient, Apply, Enabled;
      var k := |es| - 1;
      StaysPatient(w, es[..k]);
      GoodAfter(w, es[..k]);
      EventAged(After(w, es[..k]), es[k], w.tick);
      EventPatient(After(w, es[..k]), es[k], w.tick);
    }
  }
}
