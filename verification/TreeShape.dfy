/** The Merkle tree over `n` leaves, before any byte is looked at: where it
    splits, what is hashed at each node, its root, its audit paths.  A digester
    maps a node to its digest; items and digests may be of any type. */
module TreeShape {
  import opened Basics

  /** What gets hashed: nothing, an item, or two digests. */
  datatype Node<A, T> = Empty | Leaf(item: A) | Inner(left: T, right: T)

  type Digester<!A, !T> = Node<A, T> -> T

  // ---------------------------------------------------------------- splitting

  /** math/bits.Len: the number of bits needed to write `n`. */
  function BitLen(n: nat): nat
  {
    if n == 0 then 0 else 1 + BitLen(n / 2)
  }

  /** getSplitPoint as the source computes it; it panics below 1. */
  function GetSplitPoint(length: nat): nat
    requires length >= 1
  {
    BitLenBounds(length);
    var k := Pow2(BitLen(length) - 1);
    if k == length then k / 2 else k
  }

  lemma {:induction false} BitLenBounds(n: nat)
    requires n > 0
    ensures BitLen(n) > 0 && Pow2(BitLen(n) - 1) <= n < Pow2(BitLen(n))
  {
    if n > 1 {
      BitLenBounds(n / 2);
    } else {
      assert BitLen(1) == 1 && Pow2(1) == 2;
    }
  }

  /** The same number by halving: this is the form the tree proofs use. */
  function SplitPoint(n: nat): (k: nat)
    requires n >= 2
    ensures 0 < k < n
  {
    if n == 2 then 1 else 2 * SplitPoint((n + 1) / 2)
  }

  lemma {:induction false} Pow2Increasing(a: nat, b: nat)
    requires a < b
    ensures 2 * Pow2(a) <= Pow2(b)
  {
    if a + 1 < b { Pow2Increasing(a, b - 1); }
  }

  lemma {:induction false} SplitPointIsPow2(n: nat) returns (e: nat)
    requires n >= 2
    ensures SplitPoint(n) == Pow2(e) < n <= 2 * Pow2(e)
  {
    if n == 2 {
      e := 0;
    } else {
      e := SplitPointIsPow2((n + 1) / 2);
      e := e + 1;
    }
  }

  lemma {:induction false} SplitPointIs(n: nat, k: nat, e: nat)
    requires k < n <= 2 * k && k == Pow2(e)
    ensures n >= 2 && SplitPoint(n) == k
  {
    var a := SplitPointIsPow2(n);
    if a < e { Pow2Increasing(a, e); } else if e < a { Pow2Increasing(e, a); }
  }

  /** "getSplitPoint returns the largest power of 2 less than length". */
  lemma {:induction false} SplitPointIsLargest(n: nat)
    requires n >= 2
    ensures GetSplitPoint(n) == SplitPoint(n) < n
    ensures exists e: nat :: SplitPoint(n) == Pow2(e)
    ensures forall e: nat :: Pow2(e) < n ==> Pow2(e) <= SplitPoint(n)
  {
    var a := SplitPointIsPow2(n);
    forall e: nat | Pow2(e) < n ensures Pow2(e) <= SplitPoint(n) {
      if a < e { Pow2Increasing(a, e); } else if e < a { Pow2Increasing(e, a); }
    }
    BitLenBounds(n);
    var b := BitLen(n) - 1;
    if Pow2(b) == n { b := b - 1; }
    assert GetSplitPoint(n) == Pow2(b) < n <= 2 * Pow2(b);
    if a < b { Pow2Increasing(a, b); } else if b < a { Pow2Increasing(b, a); }
  }

  // -------------------------------------------------------------------- roots

  /** hashFromByteSlices. */
  function Root<A, T>(d: Digester<A, T>, items: seq<A>): T
    decreases |items|, 1
  {
    d(RootNode(d, items))
  }

  function RootNode<A, T>(d: Digester<A, T>, items: seq<A>): Node<A, T>
    decreases |items|, 0
  {
    if |items| == 0 then Empty
    else if |items| == 1 then Leaf(items[0])
    else
      var k := SplitPoint(|items|);
      Inner(Root(d, items[..k]), Root(d, items[k..]))
  }

  /** Every node hashed while computing `Root(d, items)`. */
  ghost function TreeNodes<A, T>(d: Digester<A, T>, items: seq<A>): set<Node<A, T>>
    decreases |items|
  {
    {RootNode(d, items)} +
    if |items| < 2 then {}
    else
      var k := SplitPoint(|items|);
      TreeNodes(d, items[..k]) + TreeNodes(d, items[k..])
  }

  /** Two distinct nodes with one digest. */
  ghost predicate NodeCollision<A, T>(d: Digester<A, T>, x: Node<A, T>, y: Node<A, T>) {
    x != y && d(x) == d(y)
  }

  lemma SameHalves<A>(xs: seq<A>, k: nat, ys: seq<A>, l: nat)
    requires k <= |xs| && l <= |ys|
    requires xs[..k] == ys[..l] && xs[k..] == ys[l..]
    ensures xs == ys
  {
    assert xs == xs[..k] + xs[k..] && ys == ys[..l] + ys[l..];
  }

  /** The root commits to the whole list, its length included: lists with one
      root are equal, or `x` and `y`, hashed by the two computations, collide. */
  lemma {:induction false} RootBinding<A, T>(d: Digester<A, T>, xs: seq<A>, ys: seq<A>)
    returns (x: Node<A, T>, y: Node<A, T>)
    requires Root(d, xs) == Root(d, ys)
    ensures xs == ys || (x in TreeNodes(d, xs) && y in TreeNodes(d, ys) && NodeCollision(d, x, y))
    decreases |xs|
  {
    x, y := RootNode(d, xs), RootNode(d, ys);
    if x == y && |xs| >= 2 {
      var k, l := SplitPoint(|xs|), SplitPoint(|ys|);
      if xs[..k] != ys[..l] {
        x, y := RootBinding(d, xs[..k], ys[..l]);
      } else if xs[k..] != ys[l..] {
        x, y := RootBinding(d, xs[k..], ys[l..]);
      } else {
        SameHalves(xs, k, ys, l);
      }
    }
  }

  // ------------------------------------------------------------------ folding

  /** The recursive tree over the digests `row[lo..hi]`. */
  function Fold<T>(inner: (T, T) -> T, row: seq<T>, lo: nat, hi: nat): T
    requires lo < hi <= |row|
    decreases hi - lo
  {
    if hi - lo == 1 then row[lo]
    else
      var mid := lo + SplitPoint(hi - lo);
      inner(Fold(inner, row, lo, mid), Fold(inner, row, mid, hi))
  }

  function InnerDigest<A, T>(d: Digester<A, T>): (T, T) -> T {
    (left, right) => d(Inner(left, right))
  }

  function LeafDigests<A, T>(d: Digester<A, T>, items: seq<A>): (row: seq<T>)
    ensures |row| == |items|
  {
    seq(|items|, i requires 0 <= i < |items| => d(Leaf(items[i])))
  }

  lemma {:induction false} RootIsFold<A, T>(d: Digester<A, T>, items: seq<A>, lo: nat, hi: nat)
    requires lo < hi <= |items|
    ensures Root(d, items[lo..hi]) == Fold(InnerDigest(d), LeafDigests(d, items), lo, hi)
    decreases hi - lo
  {
    if hi - lo >= 2 {
      var mid := lo + SplitPoint(hi - lo);
      RootIsFold(d, items, lo, mid);
      RootIsFold(d, items, mid, hi);
      assert items[lo..hi][..mid - lo] == items[lo..mid];
      assert items[lo..hi][mid - lo..] == items[mid..hi];
    }
  }

  /** One round of pairing neighbours; an odd last node is carried up. */
  function Level<T>(inner: (T, T) -> T, row: seq<T>): (up: seq<T>)
    ensures |up| == (|row| + 1) / 2
  {
    seq((|row| + 1) / 2, j requires 0 <= j < (|row| + 1) / 2 => Paired(inner, row, j))
  }

  function Paired<T>(inner: (T, T) -> T, row: seq<T>, j: nat): T
    requires j < (|row| + 1) / 2
  {
    if 2 * j + 1 < |row| then inner(row[2 * j], row[2 * j + 1]) else row[2 * j]
  }

  /** Where the pairs `..b` of a row end. */
  function PairsEnd<T>(row: seq<T>, b: nat): nat {
    if 2 * b <= |row| then 2 * b else |row|
  }

  /** Pairing one level does not change the tree above it, although the
      recursion splits at powers of two and the pairing runs left to right. */
  lemma {:induction false} FoldLevel<T>(inner: (T, T) -> T, row: seq<T>, a: nat, b: nat)
    requires a < b <= (|row| + 1) / 2
    ensures Fold(inner, Level(inner, row), a, b) == Fold(inner, row, 2 * a, PairsEnd(row, b))
    decreases b - a
  {
    if b - a == 1 {
      FoldPair(inner, row, a);
    } else {
      var m, end := a + SplitPoint(b - a), PairsEnd(row, b);
      FoldLevel(inner, row, a, m);
      FoldLevel(inner, row, m, b);
      SplitDoubles(end - 2 * a, b - a);
      FoldHalves(inner, Level(inner, row), a, m, b, row, 2 * a, 2 * m, end);
    }
  }

  lemma {:induction false} FoldPair<T>(inner: (T, T) -> T, row: seq<T>, a: nat)
    requires a < (|row| + 1) / 2
    ensures Fold(inner, Level(inner, row), a, a + 1) == Fold(inner, row, 2 * a, PairsEnd(row, a + 1))
  {
  }

  lemma {:induction false} FoldHalves<T>(inner: (T, T) -> T, row: seq<T>, lo: nat, mid: nat, hi: nat,
                                         row': seq<T>, lo': nat, mid': nat, hi': nat)
    requires lo + 2 <= hi <= |row| && mid == lo + SplitPoint(hi - lo)
    requires lo' + 2 <= hi' <= |row'| && mid' == lo' + SplitPoint(hi' - lo')
    requires Fold(inner, row, lo, mid) == Fold(inner, row', lo', mid')
    requires Fold(inner, row, mid, hi) == Fold(inner, row', mid', hi')
    ensures Fold(inner, row, lo, hi) == Fold(inner, row', lo', hi')
  {
  }

  lemma {:induction false} SplitDoubles(n: nat, half: nat)
    requires n >= 3 && (n == 2 * half || n == 2 * half - 1)
    ensures SplitPoint(n) == 2 * SplitPoint(half)
  {
    assert (n + 1) / 2 == half;
  }

  // -------------------------------------------------------------- audit paths

  /** computeHashFromAunts; `None` is the source's nil. */
  function HashFromAunts<A, T>(d: Digester<A, T>, index: int, total: int, leafHash: T, aunts: seq<T>): Option<T>
    decreases total
  {
    if index >= total || index < 0 || total <= 0 then None
    else if total == 1 then (if aunts == [] then Some(leafHash) else None)
    else if aunts == [] then None
    else
      var k := SplitPoint(total);
      var aunt, rest := aunts[|aunts| - 1], aunts[..|aunts| - 1];
      if index < k then
        match HashFromAunts(d, index, k, leafHash, rest)
        case None => None
        case Some(left) => Some(d(Inner(left, aunt)))
      else
        match HashFromAunts(d, index - k, total - k, leafHash, rest)
        case None => None
        case Some(right) => Some(d(Inner(aunt, right)))
  }

  /** The audit path of item `i`, from its sibling up to a child of the root. */
  function AuntsOf<A, T>(d: Digester<A, T>, items: seq<A>, i: nat): seq<T>
    requires i < |items|
    decreases |items|
  {
    if |items| == 1 then []
    else
      var k := SplitPoint(|items|);
      if i < k then AuntsOf(d, items[..k], i) + [Root(d, items[k..])]
      else AuntsOf(d, items[k..], i - k) + [Root(d, items[..k])]
  }

  lemma {:induction false} AuntsStep<A, T>(d: Digester<A, T>, index: nat, total: nat, leafHash: T, rest: seq<T>,
                                           aunt: T, half: T)
    requires 2 <= total && index < total
    requires var k := SplitPoint(total);
             Some(half) == if index < k then HashFromAunts(d, index, k, leafHash, rest)
                           else HashFromAunts(d, index - k, total - k, leafHash, rest)
    ensures HashFromAunts(d, index, total, leafHash, rest + [aunt])
         == Some(if index < SplitPoint(total) then d(Inner(half, aunt)) else d(Inner(aunt, half)))
  {
    assert (rest + [aunt])[..|rest|] == rest;
  }

  /** Completeness: the audit path of every item leads to the root. */
  lemma {:induction false} AuntsGiveRoot<A, T>(d: Digester<A, T>, items: seq<A>, i: nat)
    requires i < |items|
    ensures HashFromAunts(d, i, |items|, d(Leaf(items[i])), AuntsOf(d, items, i)) == Some(Root(d, items))
    decreases |items|
  {
    if |items| >= 2 {
      var k := SplitPoint(|items|);
      var leaf := d(Leaf(items[i]));
      if i < k {
        AuntsGiveRoot(d, items[..k], i);
        assert items[..k][i] == items[i];
        AuntsStep(d, i, |items|, leaf, AuntsOf(d, items[..k], i), Root(d, items[k..]), Root(d, items[..k]));
      } else {
        AuntsGiveRoot(d, items[k..], i - k);
        assert items[k..][i - k] == items[i];
        AuntsStep(d, i, |items|, leaf, AuntsOf(d, items[k..], i - k), Root(d, items[..k]), Root(d, items[k..]));
      }
    }
  }

  /** A path leads somewhere exactly if it is as long as the audit path is. */
  lemma {:induction false} PathLength<A, T>(d: Digester<A, T>, items: seq<A>, index: int, leafHash: T, aunts: seq<T>)
    ensures HashFromAunts(d, index, |items|, leafHash, aunts).Some? <==>
      0 <= index < |items| && |aunts| == |AuntsOf(d, items, index)|
    decreases |items|
  {
    if 0 <= index < |items| && |items| >= 2 {
      var k := SplitPoint(|items|);
      if aunts != [] {
        var rest := aunts[..|aunts| - 1];
        if index < k {
          PathLength(d, items[..k], index, leafHash, rest);
        } else {
          PathLength(d, items[k..], index - k, leafHash, rest);
        }
      }
    }
  }

  /** The last node hashed by `HashFromAunts` on the digest of `leaf`. */
  ghost function TopNode<A, T>(d: Digester<A, T>, index: int, total: int, leaf: A, aunts: seq<T>): Node<A, T>
    requires HashFromAunts(d, index, total, d(Leaf(leaf)), aunts).Some?
  {
    if total == 1 then Leaf(leaf)
    else
      var k := SplitPoint(total);
      var aunt, rest := aunts[|aunts| - 1], aunts[..|aunts| - 1];
      if index < k then Inner(HashFromAunts(d, index, k, d(Leaf(leaf)), rest).value, aunt)
      else Inner(aunt, HashFromAunts(d, index - k, total - k, d(Leaf(leaf)), rest).value)
  }

  /** Every node hashed while checking a path for `leaf`. */
  ghost function PathNodes<A, T>(d: Digester<A, T>, index: int, total: int, leaf: A, aunts: seq<T>): set<Node<A, T>>
    requires HashFromAunts(d, index, total, d(Leaf(leaf)), aunts).Some?
    decreases total
  {
    {TopNode(d, index, total, leaf, aunts)} +
    if total == 1 then {}
    else
      var k := SplitPoint(total);
      var rest := aunts[..|aunts| - 1];
      if index < k then PathNodes(d, index, k, leaf, rest)
      else PathNodes(d, index - k, total - k, leaf, rest)
  }

  lemma {:induction false} TopNodeHashes<A, T>(d: Digester<A, T>, index: int, total: int, leaf: A, aunts: seq<T>)
    requires HashFromAunts(d, index, total, d(Leaf(leaf)), aunts).Some?
    ensures HashFromAunts(d, index, total, d(Leaf(leaf)), aunts) == Some(d(TopNode(d, index, total, leaf, aunts)))
    ensures TopNode(d, index, total, leaf, aunts) in PathNodes(d, index, total, leaf, aunts)
  {
  }

  /** `leaf` is one of the items, and the item at `index` if `total` is right. */
  ghost predicate Found<A>(items: seq<A>, index: int, total: int, leaf: A) {
    leaf in items && (total == |items| ==> 0 <= index < |items| && items[index] == leaf)
  }

  lemma FoundInHalf<A>(items: seq<A>, l: nat, index: int, k: int, total: int, leaf: A)
    requires l <= |items| && (total == |items| ==> k == l)
    ensures index < k && Found(items[..l], index, k, leaf) ==> Found(items, index, total, leaf)
    ensures index >= k && Found(items[l..], index - k, total - k, leaf) ==> Found(items, index, total, leaf)
  {
  }

  /** Soundness: a path that reproduces the root of `items` ends in one of the
      items, at the claimed index when the claimed total is the real one; or
      `x`, hashed by the tree, and `y`, hashed by the check, collide. */
  lemma {:induction false} PathSound<A, T>(d: Digester<A, T>, items: seq<A>, index: int, total: int, leaf: A,
                                           aunts: seq<T>) returns (x: Node<A, T>, y: Node<A, T>)
    requires HashFromAunts(d, index, total, d(Leaf(leaf)), aunts) == Some(Root(d, items))
    ensures || Found(items, index, total, leaf)
            || (x in TreeNodes(d, items) && y in PathNodes(d, index, total, leaf, aunts) && NodeCollision(d, x, y))
    decreases total
  {
    TopNodeHashes(d, index, total, leaf, aunts);
    x, y := RootNode(d, items), TopNode(d, index, total, leaf, aunts);
    if x == y && total != 1 {
      var k, l, rest := SplitPoint(total), SplitPoint(|items|), aunts[..|aunts| - 1];
      FoundInHalf(items, l, index, k, total, leaf);
      if index < k {
        x, y := PathSound(d, items[..l], index, k, leaf, rest);
      } else {
        x, y := PathSound(d, items[l..], index - k, total - k, leaf, rest);
      }
    }
  }

  /** The total is not bound by the root: the path of the second of two items
      is also a path for index 2 of 3. */
  lemma {:induction false} PathForOtherTotal<A, T>(d: Digester<A, T>, a: A, b: A)
    ensures HashFromAunts(d, 2, 3, d(Leaf(b)), AuntsOf(d, [a, b], 1)) == Some(Root(d, [a, b]))
  {
    var items := [a, b];
    assert SplitPoint(3) == 2 && SplitPoint(2) == 1;
    assert items[..1] == [a] && items[1..] == [b];
    assert Root(d, [a]) == d(Leaf(a)) && Root(d, [b]) == d(Leaf(b));
    assert AuntsOf(d, [b], 0) == [];
    assert AuntsOf(d, items, 1) == [] + [d(Leaf(a))];
    AuntsStep(d, 2, 3, d(Leaf(b)), [], d(Leaf(a)), d(Leaf(b)));
  }
}
