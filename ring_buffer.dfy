/** The bounded sample accumulator of the speech pipeline (`RingBuffer` in
    voicekeyboard/stt.py): a deque of non-empty 1-D chunks plus a running
    sample count, evicting from the oldest end on append. */
module RingBuffers {

  import opened Options

  /** The logical sample stream: the chunks concatenated in arrival order. */
  function Flatten<T>(chunks: seq<seq<T>>): seq<T>
  {
    if chunks == [] then [] else chunks[0] + Flatten(chunks[1..])
  }

  /** Sum of the chunk lengths (what `_length` is meant to track). */
  function TotalLength<T>(chunks: seq<seq<T>>): nat
  {
    if chunks == [] then 0 else |chunks[0]| + TotalLength(chunks[1..])
  }

  /** The newest `k` samples of `s`, or all of `s` when it is shorter. */
  function Newest<T>(s: seq<T>, k: nat): seq<T>
  {
    if |s| <= k then s else s[|s| - k..]
  }

  lemma {:induction false} TotalLengthIsFlattenLength<T>(chunks: seq<seq<T>>)
    ensures TotalLength(chunks) == |Flatten(chunks)|
  {
    if chunks != [] {
      TotalLengthIsFlattenLength(chunks[1..]);
    }
  }

  lemma {:induction false} FlattenAppend<T>(chunks: seq<seq<T>>, a: seq<T>)
    ensures Flatten(chunks + [a]) == Flatten(chunks) + a
    ensures TotalLength(chunks + [a]) == TotalLength(chunks) + |a|
  {
    if chunks == [] {
      assert [a][1..] == [];
    } else {
      assert (chunks + [a])[1..] == chunks[1..] + [a];
      FlattenAppend(chunks[1..], a);
    }
  }

  /** `chunks` holds the newest `TotalLength(chunks)` samples of `full`. */
  ghost predicate HoldsSuffix<T>(chunks: seq<seq<T>>, full: seq<T>)
  {
    TotalLength(chunks) <= |full| && Flatten(chunks) == full[|full| - TotalLength(chunks)..]
  }

  /** Dropping the oldest chunk of a suffix of `full` leaves a suffix that
      is shorter by that chunk's length. */
  lemma PopOldest<T>(chunks: seq<seq<T>>, full: seq<T>)
    requires chunks != [] && HoldsSuffix(chunks, full)
    ensures TotalLength(chunks[1..]) == TotalLength(chunks) - |chunks[0]|
    ensures HoldsSuffix(chunks[1..], full)
  {
    TotalLengthIsFlattenLength(chunks);
    TotalLengthIsFlattenLength(chunks[1..]);
    assert Flatten(chunks) == chunks[0] + Flatten(chunks[1..]);
  }

  /** Cutting the first `need` samples off the oldest chunk (fewer than it
      holds) leaves a suffix of `full` that is `need` samples shorter, with
      a non-empty oldest chunk. */
  lemma TrimOldest<T>(chunks: seq<seq<T>>, need: nat, full: seq<T>)
    requires chunks != [] && need < |chunks[0]| && HoldsSuffix(chunks, full)
    ensures TotalLength([chunks[0][need..]] + chunks[1..]) == TotalLength(chunks) - need
    ensures HoldsSuffix([chunks[0][need..]] + chunks[1..], full)
  {
    var trimmed := [chunks[0][need..]] + chunks[1..];
    var rest := Flatten(chunks[1..]);
    assert trimmed[0] == chunks[0][need..] && trimmed[1..] == chunks[1..];
    TotalLengthIsFlattenLength(chunks);
    TotalLengthIsFlattenLength(trimmed);
    assert Flatten(trimmed) == chunks[0][need..] + rest;
    assert Flatten(chunks) == chunks[0] + rest;
    assert (chunks[0] + rest)[need..] == chunks[0][need..] + rest;
  }

  /** A suffix that is either all of `full` or exactly `k` long, and no
      longer than `k`, is the newest-`k` window of `full`. */
  lemma SuffixIsNewest<T>(chunks: seq<seq<T>>, full: seq<T>, k: nat)
    requires HoldsSuffix(chunks, full) && TotalLength(chunks) <= k
    requires TotalLength(chunks) == |full| || TotalLength(chunks) == k
    ensures Flatten(chunks) == Newest(full, k)
  {
    if TotalLength(chunks) == |full| {
      assert full[0..] == full;
    }
  }

  /** `Newest` holds exactly the last `min(k, |s|)` elements, in order. */
  lemma NewestIsSuffix<T>(s: seq<T>, k: nat)
    ensures |Newest(s, k)| == if |s| <= k then |s| else k
    ensures forall i :: 0 <= i < |Newest(s, k)| ==>
              Newest(s, k)[i] == s[|s| - |Newest(s, k)| + i]
  {
  }

  /** Appending to an already-bounded window and bounding again gives the
      same window as bounding the whole stream: appends compose. */
  lemma NewestOfAppend<T>(s: seq<T>, a: seq<T>, k: nat)
    ensures Newest(Newest(s, k) + a, k) == Newest(s + a, k)
  {
    if |s| > k {
      var t := s[|s| - k..];
      assert t + a == (s + a)[|s| - k..];
      if a == [] {
        assert s + a == s;
        assert t + a == t;
      } else {
        assert (t + a)[|a|..] == (s + a)[|s| + |a| - k..];
      }
    }
  }

  /** The window after appending `cs` one chunk at a time to a buffer of
      capacity `k` that currently holds `s`. */
  function AfterAppends<T>(k: nat, s: seq<T>, cs: seq<seq<T>>): seq<T>
    decreases |cs|
  {
    if cs == [] then s else AfterAppends(k, Newest(s + cs[0], k), cs[1..])
  }

  lemma FlattenCons<T>(cs: seq<seq<T>>, s: seq<T>)
    requires cs != []
    ensures s + Flatten(cs) == (s + cs[0]) + Flatten(cs[1..])
  {
    assert Flatten(cs) == cs[0] + Flatten(cs[1..]);
  }

  /** For every sequence of appended chunks the buffer holds exactly the
      newest `k` samples of the whole stream (or all of it if shorter). */
  lemma {:induction false} AfterAppendsIsNewest<T>(k: nat, s: seq<T>, cs: seq<seq<T>>)
    requires |s| <= k
    ensures AfterAppends(k, s, cs) == Newest(s + Flatten(cs), k)
    decreases |cs|
  {
    if cs == [] {
      assert s + Flatten(cs) == s;
    } else {
      var s' := Newest(s + cs[0], k);
      assert AfterAppends(k, s, cs) == AfterAppends(k, s', cs[1..]);
      AfterAppendsIsNewest(k, s', cs[1..]);
      NewestOfAppend(s + cs[0], Flatten(cs[1..]), k);
      FlattenCons(cs, s);
    }
  }

  class RingBuffer<T> {
    const capacity: int
    var chunks: seq<seq<T>>
    var length: int

    /** Every stored chunk is non-empty, `length` is the sum of their
        lengths, and it never exceeds the capacity, which is at least 1. */
    ghost predicate Valid()
      reads this
    {
      && capacity >= 1
      && (forall i :: 0 <= i < |chunks| ==> |chunks[i]| > 0)
      && length == TotalLength(chunks)
      && length <= capacity
    }

    /** The capacity is clamped to at least one sample. */
    constructor (capacity: int)
      ensures Valid()
      ensures this.capacity == if capacity < 1 then 1 else capacity
      ensures chunks == [] && length == 0
    {
      this.capacity := if capacity < 1 then 1 else capacity;
      chunks := [];
      length := 0;
    }

    method Clear()
      requires Valid()
      modifies this
      ensures Valid()
      ensures chunks == [] && length == 0
    {
      chunks := [];
      length := 0;
    }

    /** The contiguous view of the buffered samples, empty when no chunk is
        stored; its length is the running count. */
    function Concat(): (r: seq<T>)
      reads this
      ensures |r| == TotalLength(chunks)
      ensures chunks == [] ==> r == []
    {
      TotalLengthIsFlattenLength(chunks);
      Flatten(chunks)
    }

    /** `None` and empty chunks are ignored; otherwise the buffer keeps the
        newest `capacity` samples of its old contents followed by `arr`. */
    method Append(arr: Option<seq<T>>)
      requires Valid()
      modifies this
      ensures Valid()
      ensures arr.None? || arr.value == [] ==> chunks == old(chunks) && length == old(length)
      ensures arr.Some? ==> Concat() == Newest(old(Concat()) + arr.value, capacity)
    {
      if arr.None? {
        return;
      }
      var a := arr.value;
      var n := |a|;
      if n <= 0 {
        return;
      }
      ghost var full := Flatten(chunks) + a;
      FlattenAppend(chunks, a);
      TotalLengthIsFlattenLength(chunks);
      assert full[|full| - (length + n)..] == full;
      chunks, length := Evict(chunks + [a], length + n, capacity, full);
    }
  }

  /** The eviction loop of `append`: while the count is over capacity, pop
      the oldest chunk if what remains still fills the capacity, otherwise
      trim it to fit and stop. The result holds exactly the newest
      `capacity` samples of `full`, in non-empty chunks. */
  method Evict<T>(chunks: seq<seq<T>>, length: int, capacity: int, ghost full: seq<T>)
    returns (cs: seq<seq<T>>, len: int)
    requires capacity >= 1
    requires forall i :: 0 <= i < |chunks| ==> |chunks[i]| > 0
    requires length == TotalLength(chunks) == |full| && HoldsSuffix(chunks, full)
    ensures forall i :: 0 <= i < |cs| ==> |cs[i]| > 0
    ensures len == TotalLength(cs) <= capacity
    ensures Flatten(cs) == Newest(full, capacity)
  {
    cs, len := chunks, length;
    while len > capacity && |cs| > 0
      invariant forall i :: 0 <= i < |cs| ==> |cs[i]| > 0
      invariant len == TotalLength(cs)
      invariant HoldsSuffix(cs, full)
      invariant len == |full| || len >= capacity
      decreases |cs|
    {
      var left := cs[0];
      if len - |left| >= capacity {
        PopOldest(cs, full);
        cs, len := cs[1..], len - |left|;
      } else {
        // The trim removes fewer samples than the oldest chunk holds.
        var need := len - capacity;
        if need > 0 {
          TrimOldest(cs, need, full);
          cs, len := [left[need..]] + cs[1..], len - need;
        }
        break;
      }
    }
    SuffixIsNewest(cs, full, capacity);
  }

  /** Two appends within capacity (no eviction) and two that overflow it. */
  method AppendScenarios()
  {
    var small := new RingBuffer<int>(10);
    small.Append(Some([1, 2, 3]));
    small.Append(Some([4, 5]));
    assert small.Concat() == [1, 2, 3, 4, 5];

    var rb := new RingBuffer<int>(5);
    rb.Append(Some([1, 2, 3]));
    rb.Append(Some([4, 5, 6]));
    assert rb.Concat() == [2, 3, 4, 5, 6];

    var cleared := new RingBuffer<int>(4);
    cleared.Append(Some([1, 2, 3]));
    cleared.Clear();
    assert cleared.Concat() == [];
  }
}
