/** The binary heap of the priority policy (sched.c): process slots ordered by priority, then by how long they
    have been ready. */
module PrioHeap {
  import opened Proc

  ghost predicate AllSlots(h: seq<int>, ps: seq<Pcb>) {
    forall i :: 0 <= i < |h| ==> 0 <= h[i] < |ps|
  }

  predicate Less(ps: seq<Pcb>, a: int, b: int)
    requires 0 <= a < |ps| && 0 <= b < |ps|
  {
    if ps[a].priority != ps[b].priority then ps[a].priority < ps[b].priority
    else ps[a].lastReady < ps[b].lastReady
  }

  function Parent(i: nat): (p: nat)
    requires 0 < i
    ensures p < i
  {
    (i - 1) / 2
  }

  /** No entry comes before its parent. */
  ghost predicate Ordered(h: seq<int>, ps: seq<Pcb>)
    requires AllSlots(h, ps)
  {
    forall i :: 0 < i < |h| ==> !Less(ps, h[i], h[Parent(i)])
  }

  /** The root of an ordered heap is a least entry: none has a better priority, and none of the same has been READY longer. */
  lemma {:induction false} RootIsLeast(h: seq<int>, ps: seq<Pcb>, i: nat)
    requires AllSlots(h, ps) && Ordered(h, ps) && i < |h|
    ensures !Less(ps, h[i], h[0])
    ensures ps[h[0]].priority < ps[h[i]].priority
            || (ps[h[0]].priority == ps[h[i]].priority && ps[h[0]].lastReady <= ps[h[i]].lastReady)
  {
    if 0 < i {
      RootIsLeast(h, ps, Parent(i));
    }
  }

  function Swap(h: seq<int>, i: nat, j: nat): (r: seq<int>)
    requires i < |h| && j < |h|
    ensures |r| == |h|
  {
    h[i := h[j]][j := h[i]]
  }

  lemma SwapKeeps(h: seq<int>, ps: seq<Pcb>, i: nat, j: nat)
    requires i < |h| && j < |h| && AllSlots(h, ps)
    ensures multiset(Swap(h, i, j)) == multiset(h) && AllSlots(Swap(h, i, j), ps)
  {
  }

  /** Ordered but for entry i, which may come before its parent; its children do not come before that parent. */
  ghost predicate OrderedButUp(h: seq<int>, ps: seq<Pcb>, i: nat)
    requires AllSlots(h, ps)
  {
    && (forall k :: 0 < k < |h| && k != i ==> !Less(ps, h[k], h[Parent(k)]))
    && (0 < i < |h| ==> forall k :: 0 < k < |h| && Parent(k) == i ==> !Less(ps, h[k], h[Parent(i)]))
  }

  lemma SiftUp(h: seq<int>, ps: seq<Pcb>, i: nat)
    requires AllSlots(h, ps) && OrderedButUp(h, ps, i) && 0 < i < |h| && Less(ps, h[i], h[Parent(i)])
    ensures AllSlots(Swap(h, i, Parent(i)), ps) && OrderedButUp(Swap(h, i, Parent(i)), ps, Parent(i))
    ensures multiset(Swap(h, i, Parent(i))) == multiset(h)
  {
    var j := Parent(i);
    var r := Swap(h, i, j);
    SwapKeeps(h, ps, i, j);
    forall k | 0 < k < |r| && k != j
      ensures !Less(ps, r[k], r[Parent(k)])
    {
      assert k != i && Parent(k) != i && Parent(k) != j ==> r[k] == h[k] && r[Parent(k)] == h[Parent(k)];
    }
  }

  method Push(h0: seq<int>, ps: seq<Pcb>, pid: int) returns (h: seq<int>, ok: bool)
    requires AllSlots(h0, ps) && 0 <= pid < |ps|
    ensures ok <==> |h0| < MAX_PROCS && pid !in h0
    ensures !ok ==> h == h0
    ensures AllSlots(h, ps)
    ensures ok ==> multiset(h) == multiset(h0) + multiset{pid}
    ensures ok && Ordered(h0, ps) ==> Ordered(h, ps)
  {
    h := h0;
    if MAX_PROCS <= |h0| || pid in h0 {
      return h, false;
    }
    h := h + [pid];
    var i: nat := |h0|;
    ghost var good := Ordered(h0, ps);
    assert forall k :: 0 <= k < |h0| ==> h[k] == h0[k];
    while 0 < i
      invariant i < |h| == |h0| + 1 && AllSlots(h, ps)
      invariant multiset(h) == multiset(h0) + multiset{pid}
      invariant good ==> OrderedButUp(h, ps, i)
    {
      var parent := Parent(i);
      if !Less(ps, h[i], h[parent]) {
        break;
      }
      if good {
        SiftUp(h, ps, i);
      }
      SwapKeeps(h, ps, i, parent);
      h := Swap(h, i, parent);
      i := parent;
    }
    ok := true;
  }

  /** Ordered but for the children of i, which may come before it; they do not come before its parent. */
  ghost predicate OrderedButDown(h: seq<int>, ps: seq<Pcb>, i: nat)
    requires AllSlots(h, ps)
  {
    && (forall k :: 0 < k < |h| && Parent(k) != i ==> !Less(ps, h[k], h[Parent(k)]))
    && (0 < i < |h| ==> forall k :: 0 < k < |h| && Parent(k) == i ==> !Less(ps, h[k], h[Parent(i)]))
  }

  lemma SiftDown(h: seq<int>, ps: seq<Pcb>, i: nat, best: nat)
    requires AllSlots(h, ps) && OrderedButDown(h, ps, i) && i < best < |h| && Parent(best) == i
    requires Less(ps, h[best], h[i])
    requires forall k :: 0 < k < |h| && Parent(k) == i ==> !Less(ps, h[k], h[best])
    ensures AllSlots(Swap(h, i, best), ps) && OrderedButDown(Swap(h, i, best), ps, best)
  {
    var r := Swap(h, i, best);
    SwapKeeps(h, ps, i, best);
    forall k | 0 < k < |r| && Parent(k) != best
      ensures !Less(ps, r[k], r[Parent(k)])
    {
      if k != i && k != best && Parent(k) != i {
        assert r[k] == h[k] && r[Parent(k)] == h[Parent(k)];
      }
    }
    forall k | 0 < k < |r| && Parent(k) == best
      ensures !Less(ps, r[k], r[Parent(best)])
    {
      assert r[k] == h[k] && !Less(ps, h[k], h[Parent(k)]);
    }
  }

  /** The least of entry i and its children. */
  method Best(h: seq<int>, ps: seq<Pcb>, i: nat) returns (best: nat)
    requires AllSlots(h, ps) && i < |h|
    ensures best == i || (i < best < |h| && Parent(best) == i && Less(ps, h[best], h[i]))
    ensures forall k :: 0 < k < |h| && Parent(k) == i ==> !Less(ps, h[k], h[best])
  {
    var l := i * 2 + 1;
    var r := l + 1;
    best := i;
    if l < |h| && Less(ps, h[l], h[best]) {
      best := l;
    }
    if r < |h| && Less(ps, h[r], h[best]) {
      best := r;
    }
    forall k | 0 < k < |h| && Parent(k) == i
      ensures k == l || k == r
    {
    }
  }

  /** Lets the entry at the root sink to its place. */
  method Sink(h0: seq<int>, ps: seq<Pcb>) returns (h: seq<int>)
    requires AllSlots(h0, ps)
    ensures AllSlots(h, ps) && multiset(h) == multiset(h0)
    ensures OrderedButDown(h0, ps, 0) ==> Ordered(h, ps)
  {
    h := h0;
    if h == [] {
      return;
    }
    ghost var good := OrderedButDown(h0, ps, 0);
    var i: nat := 0;
    while true
      invariant i < |h| == |h0| && AllSlots(h, ps) && multiset(h) == multiset(h0)
      invariant good ==> OrderedButDown(h, ps, i)
      decreases |h0| - i
    {
      var best := Best(h, ps, i);
      if best == i {
        if good {
          Settled(h, ps, i);
        }
        return;
      }
      if good {
        SiftDown(h, ps, i, best);
      }
      SwapKeeps(h, ps, i, best);
      h := Swap(h, i, best);
      i := best;
    }
  }

  lemma Settled(h: seq<int>, ps: seq<Pcb>, i: nat)
    requires AllSlots(h, ps) && OrderedButDown(h, ps, i) && i < |h|
    requires forall k :: 0 < k < |h| && Parent(k) == i ==> !Less(ps, h[k], h[i])
    ensures Ordered(h, ps)
  {
  }

  /** Removes the root and restores the order. */
  method PopRoot(h0: seq<int>, ps: seq<Pcb>) returns (h: seq<int>, top: int)
    requires AllSlots(h0, ps) && h0 != []
    ensures top == h0[0] && AllSlots(h, ps) && multiset(h0) == multiset(h) + multiset{top}
    ensures Ordered(h0, ps) ==> Ordered(h, ps)
  {
    hide Ordered, OrderedButDown, AllSlots;
    top := h0[0];
    var n := |h0| - 1;
    RemoveRoot(h0, ps);
    RemoveOrder(h0, ps);
    h := Sink(h0[0 := h0[n]][..n], ps);
  }

  lemma RemoveRoot(h: seq<int>, ps: seq<Pcb>)
    requires AllSlots(h, ps) && h != []
    ensures var n := |h| - 1;
            var r := h[0 := h[n]][..n];
            AllSlots(r, ps) && multiset(h) == multiset(r) + multiset{h[0]}
  {
    var n := |h| - 1;
    var r := h[0 := h[n]][..n];
    if n == 0 {
      assert h == [h[0]];
    } else {
      assert h == [h[0]] + h[1..n] + [h[n]];
      assert r == [h[n]] + h[1..n];
    }
  }

  lemma RemoveOrder(h: seq<int>, ps: seq<Pcb>)
    requires AllSlots(h, ps) && h != []
    ensures var n := |h| - 1;
            var r := h[0 := h[n]][..n];
            AllSlots(r, ps) && (Ordered(h, ps) ==> OrderedButDown(r, ps, 0))
  {
    var n := |h| - 1;
    var r := h[0 := h[n]][..n];
    if Ordered(h, ps) {
      forall k | 0 < k < |r| && Parent(k) != 0
        ensures !Less(ps, r[k], r[Parent(k)])
      {
        assert r[k] == h[k] && r[Parent(k)] == h[Parent(k)];
      }
    }
  }
}
