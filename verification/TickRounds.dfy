/** How many ticks runtime_step consumes, and when the CPU may idle. */
module TickRounds {
  import opened Proc
  import opened Sched
  import opened Accounting
  import opened TickSpec
  import opened TickFacts
  import opened TickWork

  /** As long as passes consume no tick, each takes a unit of work. */
  lemma {:induction false} WorkUsed(w: World, es: seq<Event>)
    requires Good(w) && Possible(w, es) && forall k :: 0 <= k < |es| ==> es[k].Pass?
    requires After(w, es).tick == w.tick
    ensures Good(After(w, es)) && |After(w, es).ps| == |After(w, es).ss| == |w.ps| == |w.ss|
    ensures WorkOf(After(w, es)) + |es| <= WorkOf(w) && BoundOf(After(w, es)) <= BoundOf(w)
  {
    hide Good, Passed, Enabled, Work, Bound;
    GoodSizes(w);
    if es != [] {
      var k := |es| - 1;
      var v := After(w, es[..k]);
      GoodAfter(w, es[..k]);
      NeverBack(w, es[..k]);
      PassedWork(v, es[k].pick, es[k].answer);
      GoodPassed(v, es[k].pick, es[k].answer);
      WorkUsed(w, es[..k]);
    }
  }

  lemma {:induction false} NeverBack(w: World, es: seq<Event>)
    requires Good(w) && Possible(w, es) && forall k :: 0 <= k < |es| ==> es[k].Pass?
    ensures w.tick <= After(w, es).tick
  {
    hide Good, Passed, Enabled, Work, Bound;
    if es != [] {
      var k := |es| - 1;
      GoodAfter(w, es[..k]);
      NeverBack(w, es[..k]);
      PassedWork(After(w, es[..k]), es[k].pick, es[k].answer);
    }
  }

  /** With few enough instructions left, a round consumes its tick. */
  lemma RoundConsumes(env: (nat, seq<Pcb>) -> Answer, w: World, es: seq<Event>)
    requires Good(w) && Round(env, w, es)
    ensures var r := After(w, es);
            && Good(r) && |r.ps| == |r.ss| && |w.ps| == |w.ss| && BoundOf(r) <= BoundOf(w)
            && w.tick <= r.tick <= w.tick + 1
            && (BoundOf(w) < MAX_GUARD ==> r.tick == w.tick + 1)
  {
    hide Good, Passed, Enabled, Work, Bound, AnsweredBy, After, Possible;
    GoodSizes(w);
    var k := |es| - 1;
    var v := After(w, es[..k]);
    Prefix(w, es, k);
    assert es[..k] + [es[k]] == es;
    OneMore(w, es[..k], es[k]);
    WorkUsed(w, es[..k]);
    PassedWork(v, es[k].pick, es[k].answer);
    GoodPassed(v, es[k].pick, es[k].answer);
    WorkBounded(w);
  }

  /** runtime_step consumes at most the ticks asked for, and exactly these if the instructions left are few enough. */
  lemma {:induction false} RoundsConsume(env: (nat, seq<Pcb>) -> Answer, w: World, n: nat, es: seq<Event>)
    requires Good(w) && Rounds(env, w, n, es)
    ensures var r := After(w, es);
            && Possible(w, es) && Good(r) && |r.ps| == |r.ss| && |w.ps| == |w.ss| && BoundOf(r) <= BoundOf(w)
            && w.tick <= r.tick <= w.tick + n
            && (BoundOf(w) < MAX_GUARD ==> r.tick == w.tick + n)
  {
    hide Good, Round, After, Possible, Bound;
    GoodSizes(w);
    Nothing(w);
    if 0 < n {
      var k :| 0 <= k <= |es| && Rounds(env, w, n - 1, es[..k]) && Round(env, After(w, es[..k]), es[k..]);
      RoundsConsume(env, w, n - 1, es[..k]);
      RoundConsumes(env, After(w, es[..k]), es[k..]);
      RoundPossible(env, After(w, es[..k]), es[k..]);
      GoOn(w, es[..k], es[k..]);
      assert es[..k] + es[k..] == es;
    }
  }

  lemma RoundPossible(env: (nat, seq<Pcb>) -> Answer, w: World, es: seq<Event>)
    requires Round(env, w, es)
    ensures Possible(w, es)
  {
  }

  // ----- idling -----

  /** Somebody can run: is running, READY, or due to wake. */
  ghost predicate CanRun(w: World) {
    0 <= w.current || exists p :: 0 <= p < |w.ps| && Runnable(w.ps[p], w.tick)
  }

  /** The idle ticks of a history are exactly the passes in which nobody could run. */
  ghost function IdlePasses(w: World, es: seq<Event>): nat {
    if es == [] then 0
    else
      var k := |es| - 1;
      IdlePasses(w, es[..k]) + if es[k].Pass? && !CanRun(After(w, es[..k])) then 1 else 0
  }

  lemma {:induction false} NoIdleWaste(w: World, es: seq<Event>)
    requires Good(w) && Possible(w, es)
    ensures After(w, es).idle == w.idle + IdlePasses(w, es)
  {
    hide Good, Passed, Enabled, Runnable;
    if es != [] {
      var k := |es| - 1;
      var v, e := After(w, es[..k]), es[k];
      GoodAfter(w, es[..k]);
      NoIdleWaste(w, es[..k]);
      if e.Pass? {
        IdlesIff(v, e.pick, e.answer);
      } else {
        RequestIdle(v, e);
      }
    }
  }

  lemma RequestIdle(w: World, e: Event)
    requires !e.Pass?
    ensures Apply(w, e).idle == w.idle
  {
    hide LinedUpTo, Appended;
  }
}
