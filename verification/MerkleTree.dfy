/** crypto/merkle/hash.go and crypto/merkle/tree.go: the Merkle tree hash of
    section 2.1 of RFC 6962 over bytes, recursive and in-place iterative. */
module MerkleTree {
  import opened Basics
  import opened TreeShape

  type ByteNode = Node<Bytes, Bytes>

  /** The hash input of a node; the prefixes 0x00 and 0x01 keep leaves and inner
      nodes apart. */
  function Encode(n: ByteNode): Bytes {
    match n
    case Empty => []
    case Leaf(item) => [0] + item
    case Inner(left, right) => [1] + left + right
  }

  /** emptyHash, leafHash and innerHash. */
  function Sha(h: HashFn): Digester<Bytes, Bytes> {
    (n: ByteNode) => h(Encode(n))
  }

  /** HashFromByteSlices. */
  function MerkleRoot(h: HashFn, items: seq<Bytes>): Bytes {
    Root(Sha(h), items)
  }

  lemma {:induction false} RootHashes(h: HashFn, items: seq<Bytes>)
    ensures MerkleRoot(h, items) == h(Encode(RootNode(Sha(h), items)))
  {
    assert Sha(h)(RootNode(Sha(h), items)) == h(Encode(RootNode(Sha(h), items)));
  }

  /** The equations of section 2.1 of RFC 6962: the split is at the largest power of
      two below the length. */
  lemma {:induction false} RootEquations(h: HashFn, items: seq<Bytes>)
    ensures |items| == 0 ==> MerkleRoot(h, items) == h([])
    ensures |items| == 1 ==> MerkleRoot(h, items) == h([0] + items[0])
    ensures forall k, e: nat :: 0 < k < |items| <= 2 * k && k == Pow2(e) ==>
      MerkleRoot(h, items) == h([1] + MerkleRoot(h, items[..k]) + MerkleRoot(h, items[k..]))
  {
    RootHashes(h, items);
    forall k, e: nat | 0 < k < |items| <= 2 * k && k == Pow2(e)
      ensures MerkleRoot(h, items) == h([1] + MerkleRoot(h, items[..k]) + MerkleRoot(h, items[k..]))
    {
      SplitPointIs(|items|, k, e);
    }
  }

  /** A node whose input can be decoded: one child has the digest size. */
  ghost predicate Decodable(n: ByteNode) {
    n.Inner? ==> |n.left| == HASH_SIZE || |n.right| == HASH_SIZE
  }

  lemma EncodeInjective(x: ByteNode, y: ByteNode)
    requires Encode(x) == Encode(y)
    requires x.Inner? ==> |x.left| == |x.right| == HASH_SIZE
    requires Decodable(y)
    ensures x == y
  {
    var e := Encode(x);
    match x
    case Empty =>
      assert |e| == 0;
    case Leaf(item) =>
      assert e[0] == 0 && e[1..] == item;
      assert y.Leaf? && Encode(y)[1..] == y.item;
    case Inner(left, right) =>
      assert e[0] == 1;
      assert y.Inner? && |y.left| == |left|;
      assert e[1..33] == left && e[33..] == right;
      assert Encode(y)[1..33] == y.left && Encode(y)[33..] == y.right;
  }

  ghost predicate Wide(d: Digester<Bytes, Bytes>) {
    forall n: ByteNode :: |d(n)| == HASH_SIZE
  }

  lemma ShaIsWide(h: HashFn)
    requires FixedWidth(h)
    ensures Wide(Sha(h))
  {
    forall n: ByteNode ensures |Sha(h)(n)| == HASH_SIZE {
      assert Sha(h)(n) == h(Encode(n));
    }
  }

  lemma {:induction false} TreeNodesWide(d: Digester<Bytes, Bytes>, items: seq<Bytes>, n: ByteNode)
    requires Wide(d) && n in TreeNodes(d, items)
    ensures n.Inner? ==> |n.left| == |n.right| == HASH_SIZE
    decreases |items|
  {
    if n == RootNode(d, items) {
      if |items| >= 2 {
        var k := SplitPoint(|items|);
        assert Root(d, items[..k]) == d(RootNode(d, items[..k])) && Root(d, items[k..]) == d(RootNode(d, items[k..]));
      }
    } else {
      var k := SplitPoint(|items|);
      if n in TreeNodes(d, items[..k]) {
        TreeNodesWide(d, items[..k], n);
      } else {
        TreeNodesWide(d, items[k..], n);
      }
    }
  }

  /** The Merkle root commits to the list of items and to its length: two lists
      with one root are equal, or two strings hashed for them collide. */
  lemma {:induction false} MerkleRootBinding(h: HashFn, xs: seq<Bytes>, ys: seq<Bytes>)
    returns (x: ByteNode, y: ByteNode)
    requires FixedWidth(h) && MerkleRoot(h, xs) == MerkleRoot(h, ys)
    ensures || xs == ys
            || (x in TreeNodes(Sha(h), xs) && y in TreeNodes(Sha(h), ys) && Collision(h, Encode(x), Encode(y)))
  {
    x, y := RootBinding(Sha(h), xs, ys);
    if xs != ys {
      ShaIsWide(h);
      TreeNodesWide(Sha(h), xs, x);
      TreeNodesWide(Sha(h), ys, y);
      if Encode(x) == Encode(y) { EncodeInjective(x, y); }
    }
  }

  /** HashFromByteSlicesIterative: the same root, computed by overwriting one
      array of digests level by level. */
  method HashFromByteSlicesIterative(h: HashFn, input: seq<Bytes>) returns (root: Bytes)
    ensures root == MerkleRoot(h, input)
  {
    root := IterativeRoot(Sha(h), input);
  }

  method IterativeRoot<T(0)>(d: Digester<Bytes, T>, input: seq<Bytes>) returns (root: T)
    ensures root == Root(d, input)
  {
    var items := new T[|input|](i requires 0 <= i < |input| => d(Leaf(input[i])));
    var size := |input|;
    if size == 0 { return d(Empty); }
    ghost var row := LeafDigests(d, input);
    RootIsFold(d, input, 0, size);
    assert input[0..size] == input;
    while size > 1
      invariant 0 < size <= items.Length
      invariant row == items[..size]
      invariant Fold(InnerDigest(d), row, 0, size) == Root(d, input)
    {
      FoldLevel(InnerDigest(d), row, 0, (size + 1) / 2);
      size := PairInPlace(d, items, size);
      row := Level(InnerDigest(d), row);
    }
    root := items[0];
  }

  /** The inner loop: the write position trails the read position, so no digest
      is overwritten before it is read. */
  method PairInPlace<T>(d: Digester<Bytes, T>, items: array<T>, size: nat) returns (wp: nat)
    requires 2 <= size <= items.Length
    modifies items
    ensures wp == (size + 1) / 2
    ensures items[..wp] == Level(InnerDigest(d), old(items[..size]))
  {
    ghost var row := items[..size];
    var rp := 0;
    wp := 0;
    while rp < size
      invariant rp == PairsEnd(row, wp)
      invariant wp <= (size + 1) / 2
      invariant forall j :: 0 <= j < wp ==> items[j] == Level(InnerDigest(d), row)[j]
      invariant forall j :: rp <= j < size ==> items[j] == row[j]
    {
      assert Level(InnerDigest(d), row)[wp] == Paired(InnerDigest(d), row, wp);
      if rp + 1 < size {
        items[wp] := d(Inner(items[rp], items[rp + 1]));
        rp := rp + 2;
      } else {
        items[wp] := items[rp];
        rp := rp + 1;
      }
      wp := wp + 1;
    }
  }
}
