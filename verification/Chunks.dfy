/** Cutting a sequence into parts and joining them again, with the uint32
    arithmetic of types/part_set.go:166-180. */
module Chunks {

  const TWO_32 := 0x1_0000_0000

  /** The number of parts: the length is cast to uint32 and the sum wraps. */
  function TotalParts(len: nat, size: nat): nat
    requires 0 < size < TWO_32
  {
    (len % TWO_32 + size - 1) % TWO_32 / size
  }

  lemma {:induction false} QuotientTimes(s: nat, size: nat)
    requires size > 0
    ensures s / size * size <= s < s / size * size + size
  {
  }

  lemma {:induction false} StepTimes(i: nat, n: nat, size: nat)
    requires i < n
    ensures i * size + size == (i + 1) * size <= n * size
  {
    if i + 1 < n { StepTimes(i, n - 1, size); }
  }

  /** No product wraps and no slice is out of bounds, whatever the length. */
  lemma {:induction false} SliceBounds(len: nat, size: nat, i: nat)
    requires 0 < size < TWO_32 && i < TotalParts(len, size)
    ensures i * size < len && (i + 1) * size == i * size + size < TWO_32
  {
    var s := (len % TWO_32 + size - 1) % TWO_32;
    QuotientTimes(s, size);
    StepTimes(i, TotalParts(len, size), size);
  }

  function Min(a: int, b: int): int { if a < b then a else b }

  /** Part `i` of the data. */
  function Chunk<T>(data: seq<T>, size: nat, i: nat): seq<T>
    requires 0 < size < TWO_32 && i < TotalParts(|data|, size)
  {
    SliceBounds(|data|, size, i);
    data[i * size..Min(|data|, (i + 1) * size)]
  }

  function Split<T>(data: seq<T>, size: nat): (parts: seq<seq<T>>)
    requires 0 < size < TWO_32
    ensures |parts| == TotalParts(|data|, size)
  {
    seq(TotalParts(|data|, size), i requires 0 <= i < TotalParts(|data|, size) => Chunk(data, size, i))
  }

  /** The loop that slices the data. */
  method CutUp<T>(data: seq<T>, size: nat) returns (parts: seq<seq<T>>)
    requires 0 < size < TWO_32
    ensures parts == Split(data, size)
  {
    var total := TotalParts(|data|, size);
    parts := [];
    for i := 0 to total
      invariant |parts| == i && forall k :: 0 <= k < i ==> parts[k] == Chunk(data, size, k)
    {
      var part := Slice(data, size, i);
      parts := parts + [part];
    }
  }

  function Uint32(x: nat): (r: nat)
    ensures r < TWO_32 && (x < TWO_32 ==> r == x)
  {
    x % TWO_32
  }

  /** One slice, at uint32 positions. */
  method Slice<T>(data: seq<T>, size: nat, i: nat) returns (part: seq<T>)
    requires 0 < size < TWO_32 && i < TotalParts(|data|, size)
    ensures part == Chunk(data, size, i)
  {
    SliceBounds(|data|, size, i);
    part := data[Uint32(i * size)..Min(|data|, Uint32((i + 1) * size))];
  }

  /** The parts from `i` on, joined. */
  function JoinFrom<T>(parts: seq<seq<T>>, i: nat): seq<T>
    decreases |parts| - i
  {
    if i >= |parts| then [] else parts[i] + JoinFrom(parts, i + 1)
  }

  lemma {:induction false} JoinSnoc<T>(parts: seq<seq<T>>, last: seq<T>, i: nat)
    requires i <= |parts|
    ensures JoinFrom(parts + [last], i) == JoinFrom(parts, i) + last
    decreases |parts| - i
  {
    if i < |parts| {
      JoinSnoc(parts, last, i + 1);
    } else {
      assert JoinFrom(parts + [last], i + 1) == [];
    }
  }

  lemma {:induction false} JoinShift<T>(parts: seq<seq<T>>, i: nat)
    requires i < |parts|
    ensures JoinFrom(parts, i + 1) == JoinFrom(parts[1..], i)
    decreases |parts| - i
  {
    if i + 1 < |parts| { JoinShift(parts, i + 1); }
  }

  function Rest<T>(data: seq<T>, from: nat, end: nat): seq<T>
    requires end <= |data|
  {
    if from <= end then data[from..end] else []
  }

  lemma {:induction false} CutAt<T>(data: seq<T>, a: nat, b: nat, c: nat)
    requires a < b && a < c && (if b <= |data| then b <= c <= |data| else c == |data|)
    ensures data[a..Min(|data|, b)] + Rest(data, b, c) == Rest(data, a, c)
  {
  }

  /** Parts that meet at `cuts`, joined from part `i` on. */
  lemma {:induction false} JoinCuts<T>(data: seq<T>, parts: seq<seq<T>>, cuts: seq<nat>, i: nat)
    requires |cuts| == |parts| + 1 && i <= |parts|
    requires forall k :: 0 <= k < |parts| ==> cuts[k] < |data| && cuts[k] < cuts[k + 1]
    requires forall k :: 0 <= k < |parts| ==> parts[k] == data[cuts[k]..Min(|data|, cuts[k + 1])]
    ensures JoinFrom(parts, i) == Rest(data, cuts[i], Min(|data|, cuts[|parts|]))
    decreases |parts| - i
  {
    if i < |parts| {
      JoinCuts(data, parts, cuts, i + 1);
      Ordered(cuts, i + 1, |parts|);
      CutAt(data, cuts[i], cuts[i + 1], Min(|data|, cuts[|parts|]));
    }
  }

  lemma {:induction false} Ordered(cuts: seq<nat>, i: nat, n: nat)
    requires i <= n < |cuts| && forall k :: 0 <= k < n ==> cuts[k] < cuts[k + 1]
    ensures cuts[i] <= cuts[n]
  {
    if i < n { Ordered(cuts, i, n - 1); }
  }

  function Times(size: nat, i: nat): nat { i * size }

  function Cuts(n: nat, size: nat): seq<nat> { seq(n + 1, i requires 0 <= i => Times(size, i)) }

  lemma {:induction false} JoinOfSplit<T>(data: seq<T>, size: nat)
    requires 0 < size < TWO_32
    ensures JoinFrom(Split(data, size), 0) == data[..Min(|data|, TotalParts(|data|, size) * size)]
  {
    var n := TotalParts(|data|, size);
    var parts, cuts := Split(data, size), Cuts(n, size);
    forall k | 0 <= k < n
      ensures cuts[k] < |data| && cuts[k] < cuts[k + 1] && parts[k] == data[cuts[k]..Min(|data|, cuts[k + 1])]
    {
      SliceBounds(|data|, size, k);
      assert cuts[k] == Times(size, k) && cuts[k + 1] == Times(size, k + 1);
    }
    JoinCuts(data, parts, cuts, 0);
    assert cuts[0] == Times(size, 0) == 0 && cuts[n] == Times(size, n);
  }

  /** How far the parts reach. */
  lemma {:induction false} Reach(len: nat, size: nat)
    requires 0 < size < TWO_32
    ensures TotalParts(len, size) * size >= len <==> len + size - 1 < TWO_32
  {
    WrappedSum(len, size);
    QuotientTimes((len % TWO_32 + size - 1) % TWO_32, size);
  }

  lemma {:induction false} WrappedSum(len: nat, size: nat)
    requires 0 < size < TWO_32
    ensures var s := (len % TWO_32 + size - 1) % TWO_32;
            if len + size - 1 < TWO_32 then s == len + size - 1 else s < len
  {
  }

  /** The parts make up the data again exactly when the rounded-up length is
      below 2^32. */
  lemma {:induction false} SplitIsLossless<T>(data: seq<T>, size: nat)
    requires 0 < size < TWO_32
    ensures JoinFrom(Split(data, size), 0) == data <==> |data| + size - 1 < TWO_32
  {
    JoinOfSplit(data, size);
    Reach(|data|, size);
    if |data| + size - 1 < TWO_32 {
      assert data[..|data|] == data;
    }
  }

  /** One byte short of 2^32, in parts of the size used for blocks: nothing is left. */
  lemma {:induction false} LongDataIsLost<T>(data: seq<T>)
    requires |data| == 0xffff_ffff
    ensures Split(data, 65536) == [] && JoinFrom(Split(data, 65536), 0) != data
  {
    assert TotalParts(0xffff_ffff, 65536) == 0;
  }
}
