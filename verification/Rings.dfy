/** Fixed-size ring buffers: an array, the place of the oldest entry, and a length. They refine sequences. */
module Rings {
  import opened Sequences

  datatype Ring<T> = Ring(buf: seq<T>, head: nat, len: nat)

  ghost predicate RingOk<T>(r: Ring<T>, capacity: nat) {
    |r.buf| == capacity && r.head < capacity && r.len <= capacity
  }

  /** The entries, oldest first. */
  function Contents<T>(r: Ring<T>): (s: seq<T>)
    requires r.head < |r.buf| && r.len <= |r.buf|
    ensures |s| == r.len
  {
    seq(r.len, i requires 0 <= i < r.len => r.buf[Wrap(|r.buf|, r.head + i)])
  }

  function Push<T>(r: Ring<T>, x: T): Ring<T>
    requires r.head < |r.buf| && r.len < |r.buf|
  {
    Ring(r.buf[Wrap(|r.buf|, r.head + r.len) := x], r.head, r.len + 1)
  }

  function Pop<T>(r: Ring<T>): Ring<T>
    requires r.head < |r.buf| && 0 < r.len <= |r.buf|
  {
    Ring(r.buf, Wrap(|r.buf|, r.head + 1), r.len - 1)
  }

  /** Pushing appends at the young end. */
  lemma PushContents<T>(r: Ring<T>, x: T)
    requires r.head < |r.buf| && r.len < |r.buf|
    ensures Contents(Push(r, x)) == Contents(r) + [x]
  {
    var r' := Push(r, x);
    forall i | 0 <= i < r.len
      ensures Contents(r')[i] == Contents(r)[i]
    {
      assert Wrap(|r.buf|, r.head + i) != Wrap(|r.buf|, r.head + r.len);
    }
  }

  /** Popping removes the oldest entry, which is the one at the head. */
  lemma PopContents<T>(r: Ring<T>)
    requires r.head < |r.buf| && 0 < r.len <= |r.buf|
    ensures Contents(r)[0] == r.buf[r.head] && Contents(Pop(r)) == Contents(r)[1..]
  {
    var r' := Pop(r);
    assert Wrap(|r.buf|, r.head + 0) == r.head;
    forall i | 0 <= i < r.len - 1
      ensures Contents(r')[i] == Contents(r)[i + 1]
    {
      assert Wrap(|r.buf|, r'.head + i) == Wrap(|r.buf|, r.head + (i + 1));
    }
  }

  /** The places are those of modular arithmetic. */
  lemma PlacesAreModular<T>(r: Ring<T>, x: T)
    requires r.head < |r.buf| && r.len <= |r.buf|
    ensures r.len < |r.buf| ==> Push(r, x).buf == r.buf[(r.head + r.len) % |r.buf| := x]
    ensures 0 < r.len ==> Pop(r).head == (r.head + 1) % |r.buf|
    ensures forall i :: 0 <= i < r.len ==> Contents(r)[i] == r.buf[(r.head + i) % |r.buf|]
  {
    if r.len < |r.buf| {
      WrapIsModulo(|r.buf|, r.head + r.len);
    }
    WrapIsModulo(|r.buf|, r.head + 1);
    forall i | 0 <= i < r.len
      ensures Contents(r)[i] == r.buf[(r.head + i) % |r.buf|]
    {
      WrapIsModulo(|r.buf|, r.head + i);
    }
  }
}
