/** `RingLog`: the bounded in-memory log behind the observability endpoints.
    The source keeps a `deque(maxlen=capacity)`; here the same FIFO with
    eviction is a circular array with a start index and a length. */
module Buffers {

  /** The last `min(|s|, n)` elements of `s`, in their original order. */
  function Window<T>(s: seq<T>, n: nat): (r: seq<T>)
    ensures |r| == if |s| <= n then |s| else n
    ensures r == s[|s| - |r|..]
  {
    if |s| <= n then s else s[|s| - n..]
  }

  /** Appending to a window and cutting back to `n` is the same as cutting the
      whole history: the log never needs anything it has already evicted. */
  lemma {:induction false} WindowAppend<T>(h: seq<T>, x: T, n: nat)
    ensures Window(Window(h, n) + [x], n) == Window(h + [x], n)
  {
    var w := Window(h, n);
    if |h| > n {
      assert |w| == n;
      if n > 0 {
        assert (w + [x])[1..] == h[|h| - n + 1..] + [x];
        assert (h + [x])[|h| + 1 - n..] == h[|h| - n + 1..] + [x];
      } else {
        assert Window(w + [x], n) == [];
      }
    }
  }

  /** One more item: a window with room grows by it, a full window drops
      its oldest item and takes it last. */
  lemma WindowStep<T>(h: seq<T>, x: T, n: nat)
    requires n > 0
    ensures |Window(h, n)| < n ==> Window(h + [x], n) == Window(h, n) + [x]
    ensures |Window(h, n)| == n ==> Window(h + [x], n) == Window(h, n)[1..] + [x]
  {
    WindowAppend(h, x, n);
    var w := Window(h, n);
    if |w| == n {
      assert (w + [x])[1..] == w[1..] + [x];
    }
  }

  /** A window of a window is the smaller window. */
  lemma {:induction false} WindowOfWindow<T>(s: seq<T>, n: nat, m: nat)
    requires m <= n
    ensures Window(Window(s, n), m) == Window(s, m)
  {
    var w := Window(s, n);
    if |s| > m {
      assert w[|w| - m..] == s[|s| - m..];
    }
  }

  /** The array index of the `i`-th stored entry, counted from the oldest, in
      a circular array of `capacity` slots whose oldest entry is at `start`. */
  function Slot(start: nat, i: nat, capacity: nat): (k: nat)
    requires start < capacity && i < capacity
    ensures k < capacity
  {
    if start + i < capacity then start + i else start + i - capacity
  }

  /** `contents` sits in the circular buffer `buf` from slot `start` on. */
  ghost predicate Stored<T>(contents: seq<T>, buf: seq<T>, start: nat)
  {
    && |contents| <= |buf| && (|buf| > 0 ==> start < |buf|)
    && forall i {:trigger contents[i]} :: 0 <= i < |contents| ==> contents[i] == buf[Slot(start, i, |buf|)]
  }

  /** Writing the slot after the last entry stores one entry more. */
  lemma StoredAppend<T>(contents: seq<T>, buf: seq<T>, start: nat, item: T)
    requires Stored(contents, buf, start) && |contents| < |buf|
    ensures Stored(contents + [item], buf[Slot(start, |contents|, |buf|) := item], start)
  {
    var next := Slot(start, |contents|, |buf|);
    var buf' := buf[next := item];
    forall i | 0 <= i < |contents| ensures (contents + [item])[i] == buf'[Slot(start, i, |buf|)] {
      assert Slot(start, i, |buf|) != next;
    }
  }

  /** Overwriting the oldest entry of a full buffer and moving `start` on
      drops that entry and stores the new one last. */
  lemma StoredRotate<T>(contents: seq<T>, buf: seq<T>, start: nat, start': nat, item: T)
    requires Stored(contents, buf, start) && |contents| == |buf| > 0
    requires start' == if start + 1 == |buf| then 0 else start + 1
    ensures Stored(contents[1..] + [item], buf[start := item], start')
  {
    var n := |buf|;
    var c', buf' := contents[1..] + [item], buf[start := item];
    forall i | 0 <= i < n ensures c'[i] == buf'[Slot(start', i, n)] {
      if i < n - 1 {
        assert Slot(start', i, n) == Slot(start, i + 1, n);
        assert Slot(start', i, n) != start;
      } else {
        assert Slot(start', i, n) == start;
      }
    }
  }

  class RingLog<T(0)> {
    /** `self.capacity`: the deque's `maxlen`, fixed at construction. */
    const capacity: nat
    var data: array<T>
    var start: nat
    var len: nat

    /** The entries currently stored, oldest first (`list(self._dq)`). */
    ghost var Contents: seq<T>
    /** Every item ever passed to `add`, oldest first. */
    ghost var History: seq<T>
    ghost var Repr: set<object>

    ghost predicate Valid()
      reads this, Repr
      ensures Valid() ==> this in Repr
    {
      Repr == {this, data} &&
      data.Length == capacity &&
      len <= capacity &&
      (capacity == 0 ==> start == 0) &&
      (capacity > 0 ==> start < capacity) &&
      |Contents| == len &&
      Stored(Contents, data[..], start) &&
      Contents == Window(History, capacity)
    }

    /** `RingLog(capacity)`: an empty log. (A negative capacity makes the deque
        constructor raise, so the capacity is a natural number.) */
    constructor (capacity: nat)
      ensures Valid() && fresh(Repr)
      ensures this.capacity == capacity
      ensures Contents == [] && History == []
    {
      this.capacity := capacity;
      data := new T[capacity];
      start, len := 0, 0;
      Contents, History := [], [];
      Repr := {this, data};
      new;
      assert Stored(Contents, data[..], start);
    }

    /** `add(item)`: appends `item`; when the log is full the oldest entry is
        dropped first. With capacity 0 nothing is ever stored. */
    method Add(item: T)
      requires Valid()
      modifies Repr
      ensures Valid() && Repr == old(Repr)
      ensures History == old(History) + [item]
      ensures capacity == 0 ==> Contents == []
      ensures 0 < capacity && |old(Contents)| < capacity ==> Contents == old(Contents) + [item]
      ensures 0 < capacity && |old(Contents)| == capacity ==> Contents == old(Contents)[1..] + [item]
    {
      if capacity == 0 {
        WindowAppend(History, item, capacity);
        History := History + [item];
        return;
      }
      WindowStep(History, item, capacity);
      ghost var before := Contents;
      if len < capacity {
        ghost var buf := data[..];
        StoredAppend(before, buf, start, item);
        var next := Slot(start, len, capacity);
        data[next] := item;
        assert data[..] == buf[next := item];
        len := len + 1;
        Contents := before + [item];
        assert Stored(Contents, data[..], start);
      } else {
        ghost var buf := data[..];
        var oldStart := start;
        var newStart := if oldStart + 1 == capacity then 0 else oldStart + 1;
        StoredRotate(before, buf, oldStart, newStart, item);
        data[oldStart] := item;
        assert data[..] == buf[oldStart := item];
        start := newStart;
        Contents := before[1..] + [item];
        assert Stored(Contents, data[..], start);
      }
      History := History + [item];
    }

    /** `latest(limit)`: nothing for a limit of zero or less, otherwise the
        newest `min(limit, len)` entries, oldest first. */
    method Latest(limit: int) returns (r: seq<T>)
      requires Valid()
      ensures limit <= 0 ==> r == []
      ensures limit > 0 ==> |r| == (if limit < |Contents| then limit else |Contents|)
      ensures limit > 0 ==> r == Contents[|Contents| - |r|..]
    {
      if limit <= 0 {
        return [];
      }
      // list(self._dq)
      var all := [];
      var i := 0;
      while i < len
        invariant 0 <= i <= len
        invariant all == Contents[..i]
      {
        assert data[Slot(start, i, capacity)] == data[..][Slot(start, i, capacity)];
        all := all + [data[Slot(start, i, capacity)]];
        i := i + 1;
      }
      r := Window(all, limit);
    }

    /** `len(log)`: the number of entries stored. */
    method Length() returns (n: nat)
      requires Valid()
      ensures n == |Contents|
      ensures n <= capacity
      ensures n == if |History| < capacity then |History| else capacity
    {
      n := len;
    }
  }
}
