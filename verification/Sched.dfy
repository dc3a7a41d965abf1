/** Ready queues of the four policies (sched.c). */
module Sched {
  import opened Sequences
  import opened Rings
  import opened Proc
  import PrioHeap

  datatype Algo = Fcfs | RoundRobin | Prio | Mlfq

  const AGING_INTERVAL: nat := 5

  /** The ready queues, without the ring arithmetic. */
  datatype Queues = Queues(algo: Algo, rr: seq<int>, heap: seq<int>, levels: seq<seq<int>>)

  /** The queues that keep an order: one line for FCFS and round robin, one for each level of MLFQ. */
  datatype Lines = Lines(line: seq<int>, levels: seq<seq<int>>)

  ghost function NoLines(): Lines {
    Lines([], [[], [], [], []])
  }

  /** pid takes its place at the end of the line that its policy keeps it in. The priority policy keeps no line. */
  ghost function Appended(algo: Algo, n: Lines, level: nat, pid: int): Lines {
    match algo
    case Prio => n
    case Mlfq => if level < |n.levels| then n.(levels := n.levels[level := n.levels[level] + [pid]]) else n
    case _ => n.(line := n.line + [pid])
  }

  /** The first level with somebody in it; the number of levels if there is none. */
  ghost function FirstLevel(levels: seq<seq<int>>): (l: nat)
    ensures l <= |levels| && (forall k :: 0 <= k < l ==> levels[k] == []) && (l < |levels| ==> levels[l] != [])
  {
    if levels == [] || levels[0] != [] then 0 else 1 + FirstLevel(levels[1..])
  }

  /** pid is first: at the head of the line, or of the first level with somebody in it. */
  ghost predicate AtHead(algo: Algo, n: Lines, pid: int) {
    match algo
    case Prio => true
    case Mlfq => var l := FirstLevel(n.levels); l < |n.levels| && n.levels[l][0] == pid
    case _ => n.line != [] && n.line[0] == pid
  }

  /** What is left when the first one is taken. */
  ghost function Popped(algo: Algo, n: Lines): Lines {
    match algo
    case Prio => n
    case Mlfq =>
      var l := FirstLevel(n.levels);
      if l < |n.levels| then n.(levels := n.levels[l := n.levels[l][1..]]) else n
    case _ => if n.line == [] then n else n.(line := n.line[1..])
  }

  ghost function AtLevel(ps: seq<Pcb>, S: set<int>, l: nat): (r: set<int>)
    ensures forall p :: p in r <==> p in S && 0 <= p < |ps| && ps[p].level == l
  {
    set p | p in S && 0 <= p < |ps| && ps[p].level == l
  }

  /** The active policy's queues hold every process of S exactly once and nothing else; under MLFQ each in the
      queue of its level. */
  ghost predicate HoldsSet(q: Queues, ps: seq<Pcb>, S: set<int>) {
    && (forall p :: p in S ==> 0 <= p < |ps|)
    && match q.algo
       case Prio => multiset(q.heap) == multiset(S)
       case Mlfq =>
         && |q.levels| == LEVELS
         && (forall p :: p in S ==> ps[p].level < LEVELS)
         && forall l :: 0 <= l < LEVELS ==> multiset(q.levels[l]) == multiset(AtLevel(ps, S, l))
       case _ => multiset(q.rr) == multiset(S)
  }

  /** The queues hold exactly the READY processes. */
  ghost predicate Holds(q: Queues, ps: seq<Pcb>) {
    HoldsSet(q, ps, ReadySet(ps))
  }

  /** q' is q with pid added where the policy wants it. */
  ghost predicate Added(q: Queues, ps: seq<Pcb>, pid: int, q': Queues) {
    && q'.algo == q.algo
    && match q.algo
       case Prio => multiset(q'.heap) == multiset(q.heap) + multiset{pid}
       case Mlfq =>
         && 0 <= pid < |ps| && ps[pid].level < |q.levels|
         && q'.levels == q.levels[ps[pid].level := q.levels[ps[pid].level] + [pid]]
       case _ => q'.rr == q.rr + [pid]
  }

  lemma AddOne(s: seq<int>, S: set<int>, x: int)
    requires multiset(s) == multiset(S) && x !in S
    ensures multiset(s + [x]) == multiset(S + {x})
    ensures multiset(s) + multiset{x} == multiset(S + {x})
  {
  }

  lemma AddedLevels(q: Queues, ps: seq<Pcb>, S: set<int>, pid: int, q': Queues)
    requires q.algo == Mlfq && HoldsSet(q, ps, S) && 0 <= pid < |ps| && pid !in S && Added(q, ps, pid, q')
    ensures HoldsSet(q', ps, S + {pid})
  {
    forall l | 0 <= l < LEVELS
      ensures multiset(q'.levels[l]) == multiset(AtLevel(ps, S + {pid}, l))
    {
      if l == ps[pid].level {
        AddOne(q.levels[l], AtLevel(ps, S, l), pid);
        assert AtLevel(ps, S + {pid}, l) == AtLevel(ps, S, l) + {pid};
      } else {
        assert AtLevel(ps, S + {pid}, l) == AtLevel(ps, S, l);
      }
    }
  }

  lemma AddedHolds(q: Queues, ps: seq<Pcb>, S: set<int>, pid: int, q': Queues)
    requires HoldsSet(q, ps, S) && 0 <= pid < |ps| && pid !in S && Added(q, ps, pid, q')
    ensures HoldsSet(q', ps, S + {pid})
  {
    match q.algo {
      case Mlfq => AddedLevels(q, ps, S, pid, q');
      case Prio =>
        AddOne(q.heap, S, pid);
      case _ =>
        AddOne(q.rr, S, pid);
    }
  }

  /** Members of a list that is, as a multiset, a set. */
  lemma SetList(s: seq<int>, S: set<int>)
    requires multiset(s) == multiset(S)
    ensures forall x :: x in s <==> x in S
    ensures NoDuplicates(s)
  {
    forall x
      ensures x in s <==> x in S
    {
      assert x in s <==> x in multiset(s);
    }
    forall i, j | 0 <= i < j < |s|
      ensures s[i] != s[j]
    {
      var x := s[i];
      assert s == s[..i] + [x] + s[i + 1..j] + [s[j]] + s[j + 1..];
      assert multiset(s)[x] <= 1;
    }
  }

  lemma RoomFor(s: seq<int>, S: set<int>, n: nat, pid: int)
    requires multiset(s) == multiset(S) && (forall x :: x in S ==> 0 <= x < n) && 0 <= pid < n && pid !in S
    ensures pid !in s && |s| < n
  {
    SetList(s, S);
    assert |s| == |multiset(s)| == |S|;
    SubsetSize(S + {pid}, Below(n));
  }

  // ----- rings of processes -----

  predicate IsReady(ps: seq<Pcb>, pid: int) {
    0 <= pid < |ps| && ps[pid].state == Ready
  }

  method QueuePush(r: Ring<int>, pid: int) returns (r': Ring<int>, ok: bool)
    requires RingOk(r, MAX_PROCS)
    ensures RingOk(r', MAX_PROCS)
    ensures ok <==> r.len < MAX_PROCS && pid !in Contents(r)
    ensures Contents(r') == if ok then Contents(r) + [pid] else Contents(r)
  {
    if MAX_PROCS <= r.len {
      return r, false;
    }
    var i := 0;
    while i < r.len
      invariant 0 <= i <= r.len && pid !in Contents(r)[..i]
    {
      if r.buf[Wrap(MAX_PROCS, r.head + i)] == pid {
        assert Contents(r)[i] == pid;
        return r, false;
      }
      i := i + 1;
    }
    assert Contents(r)[..i] == Contents(r);
    PushContents(r, pid);
    r', ok := Push(r, pid), true;
  }

  /** Pops up to and including the first READY entry; negative when there is none. */
  method QueuePop(r: Ring<int>, ps: seq<Pcb>) returns (r': Ring<int>, pid: int)
    requires RingOk(r, MAX_PROCS)
    ensures RingOk(r', MAX_PROCS)
    ensures pid < 0 ==> pid == -1 && Contents(r') == [] && forall i :: 0 <= i < r.len ==> !IsReady(ps, Contents(r)[i])
    ensures 0 <= pid ==>
              var k := r.len - r'.len - 1;
              && 0 <= k < r.len && Contents(r)[k] == pid && IsReady(ps, pid) && Contents(r') == Contents(r)[k + 1..]
              && forall i :: 0 <= i < k ==> !IsReady(ps, Contents(r)[i])
  {
    r' := r;
    ghost var n := 0;
    while 0 < r'.len
      invariant RingOk(r', MAX_PROCS) && r'.len == r.len - n && Contents(r') == Contents(r)[n..]
      invariant forall i :: 0 <= i < n ==> !IsReady(ps, Contents(r)[i])
    {
      pid := r'.buf[r'.head];
      PopContents(r');
      assert Contents(r)[n] == pid;
      r' := Pop(r');
      if IsReady(ps, pid) {
        return;
      }
      n := n + 1;
    }
    pid := -1;
  }

  lemma Skipped(h: seq<int>, skipped: seq<int>)
    ensures multiset(h) == multiset(skipped) ==> forall x :: x in h ==> x in skipped
  {
    if multiset(h) == multiset(skipped) {
      forall x | x in h
        ensures x in skipped
      {
        assert x in multiset(h);
      }
    }
  }

  /** Pops roots until one is READY; negative when none is. */
  method HeapPop(h: seq<int>, ps: seq<Pcb>) returns (h': seq<int>, pid: int, ghost skipped: seq<int>)
    requires PrioHeap.AllSlots(h, ps)
    ensures PrioHeap.AllSlots(h', ps) && (PrioHeap.Ordered(h, ps) ==> PrioHeap.Ordered(h', ps))
    ensures forall x :: x in skipped ==> !IsReady(ps, x)
    ensures pid < 0 ==> pid == -1 && h' == [] && multiset(h) == multiset(skipped)
    ensures 0 <= pid ==> IsReady(ps, pid) && multiset(h) == multiset(h') + multiset{pid} + multiset(skipped)
    ensures h != [] && IsReady(ps, h[0]) ==> pid == h[0] && skipped == []
  {
    h', skipped := h, [];
    while h' != []
      invariant PrioHeap.AllSlots(h', ps) && (PrioHeap.Ordered(h, ps) ==> PrioHeap.Ordered(h', ps))
      invariant multiset(h) == multiset(h') + multiset(skipped) && forall x :: x in skipped ==> !IsReady(ps, x)
      invariant if skipped == [] then h' == h else h != [] && !IsReady(ps, h[0])
      decreases |h'|
    {
      ghost var before := h';
      assert |multiset(before)| == |before|;
      h', pid := PrioHeap.PopRoot(h', ps);
      assert |multiset(h')| == |h'|;
      if IsReady(ps, pid) {
        return;
      }
      skipped := skipped + [pid];
    }
    pid := -1;
  }

  // ----- dispatch -----

  /** pid is the process the policy dispatches from queues q, and q' is what remains. */
  ghost predicate Picked(q: Queues, ps: seq<Pcb>, pid: int, q': Queues) {
    && q'.algo == q.algo
    && 0 <= pid < |ps| && ps[pid].state == Ready
    && match q.algo
       case Prio =>
         && multiset(q.heap) == multiset(q'.heap) + multiset{pid}
         && q.heap != [] && q.heap[0] == pid
       case Mlfq =>
         exists l :: 0 <= l < |q.levels| && PickedAt(q.levels, l, pid, q'.levels)
       case _ => q.rr != [] && pid == q.rr[0] && q'.rr == q.rr[1..]
  }

  /** Queues before level l are empty, and the head of queue l is taken. */
  ghost predicate PickedAt(levels: seq<seq<int>>, l: nat, pid: int, levels': seq<seq<int>>) {
    && l < |levels| && levels[l] != [] && levels[l][0] == pid
    && (forall k :: 0 <= k < l ==> levels[k] == [])
    && levels' == levels[l := levels[l][1..]]
  }

  lemma {:induction false} FirstIs(levels: seq<seq<int>>, l: nat)
    requires l < |levels| && levels[l] != [] && forall k :: 0 <= k < l ==> levels[k] == []
    ensures FirstLevel(levels) == l
  {
  }

  lemma RemoveOne(S: set<int>, x: int, m: multiset<int>)
    requires multiset(S) == m + multiset{x}
    ensures m == multiset(S - {x})
  {
    forall y
      ensures m[y] == multiset(S - {x})[y]
    {
      assert multiset(S)[y] == (m + multiset{x})[y];
    }
  }

  lemma TakeHead(s: seq<int>, S: set<int>)
    requires multiset(s) == multiset(S) && s != []
    ensures s[0] in S && multiset(s[1..]) == multiset(S - {s[0]})
  {
    SetList(s, S);
    var x := s[0];
    assert x in s;
    assert s == [x] + s[1..];
    RemoveOne(S, x, multiset(s[1..]));
  }

  lemma PickedLevels(q: Queues, ps: seq<Pcb>, S: set<int>, pid: int, q': Queues)
    requires q.algo == Mlfq && HoldsSet(q, ps, S) && Picked(q, ps, pid, q')
    ensures HoldsSet(q', ps, S - {pid})
  {
    var l :| 0 <= l < |q.levels| && PickedAt(q.levels, l, pid, q'.levels);
    TakeHead(q.levels[l], AtLevel(ps, S, l));
    forall k | 0 <= k < LEVELS
      ensures multiset(q'.levels[k]) == multiset(AtLevel(ps, S - {pid}, k))
    {
      if k == l {
        assert AtLevel(ps, S - {pid}, k) == AtLevel(ps, S, k) - {pid};
      } else {
        assert AtLevel(ps, S - {pid}, k) == AtLevel(ps, S, k);
      }
    }
  }

  /** After a dispatch the queues hold all the others. */
  lemma PickedHolds(q: Queues, ps: seq<Pcb>, S: set<int>, pid: int, q': Queues)
    requires HoldsSet(q, ps, S) && Picked(q, ps, pid, q')
    ensures HoldsSet(q', ps, S - {pid})
  {
    match q.algo {
      case Mlfq => PickedLevels(q, ps, S, pid, q');
      case Prio =>
        RemoveOne(S, pid, multiset(q'.heap));
      case _ => TakeHead(q.rr, S);
    }
  }

  lemma HeapSlots(q: Queues, ps: seq<Pcb>, S: set<int>)
    requires HoldsSet(q, ps, S)
    ensures q.algo == Prio ==> PrioHeap.AllSlots(q.heap, ps)
  {
    if q.algo == Prio {
      SetList(q.heap, S);
      forall i | 0 <= i < |q.heap|
        ensures 0 <= q.heap[i] < |ps|
      {
        var x := q.heap[i];
        assert x in q.heap;
      }
    }
  }

  /** Blocks may change as long as the processes of S keep their level. */
  lemma HoldsOther(q: Queues, ps: seq<Pcb>, ps': seq<Pcb>, S: set<int>)
    requires HoldsSet(q, ps, S) && |ps| <= |ps'|
    requires forall p :: p in S ==> ps'[p].level == ps[p].level
    ensures HoldsSet(q, ps', S)
  {
    forall l: nat
      ensures AtLevel(ps', S, l) == AtLevel(ps, S, l)
    {
    }
  }

  ghost predicate ProcRing(r: Ring<int>) {
    RingOk(r, MAX_PROCS)
  }

  ghost function Items(r: Ring<int>): seq<int>
    requires ProcRing(r)
  {
    Contents(r)
  }

  ghost function AllContents(rs: seq<Ring<int>>): (s: seq<seq<int>>)
    requires forall l :: 0 <= l < |rs| ==> ProcRing(rs[l])
    ensures |s| == |rs| && forall l :: 0 <= l < |rs| ==> s[l] == Items(rs[l])
  {
    seq(|rs|, l requires 0 <= l < |rs| => Items(rs[l]))
  }

  ghost function NoQueues(algo: Algo): Queues {
    Queues(algo, [], [], [[], [], [], []])
  }

  class Scheduler {
    var algo: Algo
    var quantum: nat
    var consumed: nat
    var current: int
    var rr: Ring<int>
    var heap: seq<int>
    var mlfq: seq<Ring<int>>
    var lastBoost: nat

    ghost predicate Valid()
      reads this
    {
      && 0 < quantum
      && RingOk(rr, MAX_PROCS)
      && |mlfq| == LEVELS
      && forall l :: 0 <= l < LEVELS ==> ProcRing(mlfq[l])
    }

    ghost function Lists(): (q: Queues)
      requires Valid()
      reads this
    {
      Queues(algo, Contents(rr), heap, AllContents(mlfq))
    }

    ghost function InLine(): Lines
      requires Valid()
      reads this
    {
      Lines(Contents(rr), AllContents(mlfq))
    }

    constructor (algo: Algo, quantum: nat)
      ensures Valid() && Lists() == NoQueues(algo) && InLine() == NoLines()
      ensures current == -1 && consumed == 0 && lastBoost == 0
      ensures this.quantum == if quantum == 0 then 1 else quantum
    {
      this.algo := algo;
      this.quantum := if quantum == 0 then 1 else quantum;
      consumed, current, lastBoost := 0, -1, 0;
      rr := NoneReady();
      heap := [];
      mlfq := [NoneReady(), NoneReady(), NoneReady(), NoneReady()];
      new;
      assert AllContents(mlfq) == NoQueues(algo).levels;
    }

    static function NoneReady(): (r: Ring<int>)
      ensures RingOk(r, MAX_PROCS) && Contents(r) == []
    {
      Ring(seq(MAX_PROCS, i => 0), 0, 0)
    }

    /** sched_init on an existing scheduler: everything but policy and quantum is reset, the boost clock too. */
    method Reset(algo: Algo)
      requires Valid()
      modifies this
      ensures Valid() && Lists() == NoQueues(algo) && InLine() == NoLines()
      ensures quantum == old(quantum) && current == -1 && consumed == 0 && lastBoost == 0
    {
      this.algo := algo;
      consumed, current, lastBoost := 0, -1, 0;
      rr := NoneReady();
      heap := [];
      mlfq := [NoneReady(), NoneReady(), NoneReady(), NoneReady()];
      assert AllContents(mlfq) == NoQueues(algo).levels;
    }

    /** Adds a process to the queue its policy keeps it in. */
    method Enqueue(ps: seq<Pcb>, pid: int, ghost S: set<int>)
      requires Valid() && |ps| <= MAX_PROCS && 0 <= pid < |ps| && ps[pid].level < LEVELS
      requires HoldsSet(Lists(), ps, S) && pid !in S
      requires algo == Prio ==> PrioHeap.AllSlots(heap, ps)
      modifies `rr, `heap, `mlfq
      ensures Valid() && Added(old(Lists()), ps, pid, Lists()) && HoldsSet(Lists(), ps, S + {pid})
      ensures InLine() == Appended(algo, old(InLine()), ps[pid].level, pid)
      ensures algo == Prio ==> PrioHeap.AllSlots(heap, ps)
      ensures algo == Prio && PrioHeap.Ordered(old(heap), ps) ==> PrioHeap.Ordered(heap, ps)
    {
      var ok;
      if algo == Prio {
        RoomFor(heap, S, |ps|, pid);
        heap, ok := PrioHeap.Push(heap, ps, pid);
      } else if algo == Mlfq {
        var level := if LEVELS <= ps[pid].level then LEVELS - 1 else ps[pid].level;
        assert Lists().levels[level] == Contents(mlfq[level]);
        RoomFor(Contents(mlfq[level]), AtLevel(ps, S, level), |ps|, pid);
        var r;
        r, ok := QueuePush(mlfq[level], pid);
        mlfq := mlfq[level := r];
        assert AllContents(mlfq) == old(AllContents(mlfq))[level := Contents(r)];
      } else {
        RoomFor(Contents(rr), S, |ps|, pid);
        rr, ok := QueuePush(rr, pid);
      }
      AddedHolds(old(Lists()), ps, S, pid, Lists());
    }

    /** Takes the process to dispatch out of the queues; negative exactly when no process is READY. */
    method PickNext(ps: seq<Pcb>) returns (pid: int)
      requires Valid() && Holds(Lists(), ps) && (algo == Prio ==> PrioHeap.AllSlots(heap, ps))
      modifies `rr, `heap, `mlfq, `current, `consumed
      ensures Valid() && (algo == Prio ==> PrioHeap.AllSlots(heap, ps))
      ensures pid < 0 <==> ReadySet(ps) == {}
      ensures pid < 0 ==> pid == -1 && Holds(Lists(), ps) && InLine() == old(InLine())
      ensures 0 <= pid ==> Picked(old(Lists()), ps, pid, Lists())
      ensures 0 <= pid ==> AtHead(algo, old(InLine()), pid) && InLine() == Popped(algo, old(InLine()))
      ensures current == pid && consumed == 0
    {
      ghost var q := Lists();
      if algo == Prio {
        SetList(heap, ReadySet(ps));
        if heap != [] {
          var root := heap[0];
          assert root in heap;
        }
        ghost var skipped;
        heap, pid, skipped := HeapPop(heap, ps);
        Skipped(q.heap, skipped);
      } else if algo == Mlfq {
        pid := PickLevel(ps);
      } else {
        SetList(Contents(rr), ReadySet(ps));
        if 0 < rr.len {
          var first := Contents(rr)[0];
          assert first in Contents(rr);
        }
        rr, pid := QueuePop(rr, ps);
        assert pid < 0 ==> q.rr == [];
      }
      if pid < 0 && algo != Mlfq {
        NothingReady(ReadySet(ps), if algo == Prio then q.heap else q.rr, ps);
      }
      current := pid;
      consumed := 0;
    }

    static lemma NothingReady(S: set<int>, s: seq<int>, ps: seq<Pcb>)
      requires multiset(s) == multiset(S) && forall x :: x in s ==> !IsReady(ps, x)
      requires forall x :: x in S ==> IsReady(ps, x)
      ensures S == {}
    {
      SetList(s, S);
      assert forall x :: x in S ==> x in s;
      assert forall x :: x !in S;
    }

    method PickLevel(ps: seq<Pcb>) returns (pid: int)
      requires Valid() && algo == Mlfq && Holds(Lists(), ps)
      modifies `mlfq
      ensures Valid()
      ensures pid < 0 <==> ReadySet(ps) == {}
      ensures pid < 0 ==> pid == -1 && Lists() == old(Lists())
      ensures 0 <= pid ==> Picked(old(Lists()), ps, pid, Lists())
      ensures 0 <= pid ==> AtHead(Mlfq, old(InLine()), pid) && InLine() == Popped(Mlfq, old(InLine()))
    {
      ghost var q := Lists();
      var l := 0;
      while l < LEVELS
        invariant 0 <= l <= LEVELS && Valid() && Lists() == q
        invariant forall k :: 0 <= k < l ==> q.levels[k] == []
      {
        SetList(q.levels[l], AtLevel(ps, ReadySet(ps), l));
        assert q.levels[l] == Items(mlfq[l]);
        if 0 < mlfq[l].len {
          var first := Contents(mlfq[l])[0];
          assert first in q.levels[l];
        }
        var r;
        r, pid := QueuePop(mlfq[l], ps);
        mlfq := mlfq[l := r];
        assert AllContents(mlfq) == q.levels[l := Items(r)];
        if 0 <= pid {
          assert PickedAt(q.levels, l, pid, Lists().levels);
          FirstIs(q.levels, l);
          assert pid in ReadySet(ps);
          return;
        }
        assert q.levels[l] == [];
        assert AllContents(mlfq) == q.levels;
        l := l + 1;
      }
      forall p | p in ReadySet(ps)
        ensures false
      {
        assert p in AtLevel(ps, ReadySet(ps), ps[p].level);
        SetList(q.levels[ps[p].level], AtLevel(ps, ReadySet(ps), ps[p].level));
      }
      assert ReadySet(ps) == {};
      pid := -1;
    }

    method OnTick(pid: int)
      modifies `consumed
      ensures consumed == if current == pid then old(consumed) + 1 else old(consumed)
    {
      if current == pid {
        consumed := consumed + 1;
      }
    }

    /** Whether the running process must give way: never under FCFS; at the end of its quantum; under the
        priority policy also when a READY process comes before it. */
    method ShouldPreempt(ps: seq<Pcb>, pid: int) returns (b: bool)
      requires Valid() && 0 <= pid < |ps| && (algo == Prio ==> PrioHeap.AllSlots(heap, ps))
      ensures algo == Fcfs ==> !b
      ensures algo in {RoundRobin, Mlfq} ==> (b <==> quantum <= consumed)
      ensures algo == Prio ==> (b <==> quantum <= consumed
                                       || exists i :: 0 <= i < |heap| && PrioHeap.Less(ps, heap[i], pid))
    {
      if algo == Fcfs {
        return false;
      }
      if algo == Prio {
        var i := 0;
        while i < |heap|
          invariant 0 <= i <= |heap| && forall k :: 0 <= k < i ==> !PrioHeap.Less(ps, heap[k], pid)
        {
          if PrioHeap.Less(ps, heap[i], pid) {
            return true;
          }
          i := i + 1;
        }
      }
      b := quantum <= consumed;
    }
  }
}
