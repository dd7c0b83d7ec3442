/** crypto/merkle/proof.go: inclusion proofs, the audit paths of section 2.1.1
    of RFC 6962. */
module MerkleProof {
  import opened Basics
  import opened TreeShape
  import opened MerkleTree

  datatype Proof = Proof(total: int, index: int, leafHash: Bytes, aunts: seq<Bytes>)

  datatype ProofError = NegativeTotal | NegativeIndex | WrongLeafHash | WrongRootHash

  /** Proof.Verify: the error, if any.  bytes.Equal takes a nil hash for an empty one. */
  function Verify(h: HashFn, p: Proof, rootHash: Bytes, leaf: Bytes): Option<ProofError>
  {
    if p.total < 0 then Some(NegativeTotal)
    else if p.index < 0 then Some(NegativeIndex)
    else if p.leafHash != Sha(h)(Leaf(leaf)) then Some(WrongLeafHash)
    else
      var computed := HashFromAunts(Sha(h), p.index, p.total, p.leafHash, p.aunts);
      if (if computed.Some? then computed.value else []) != rootHash then Some(WrongRootHash)
      else None
  }

  /** Each error exactly in its case, in the order of the checks. */
  lemma {:induction false} VerifyErrors(h: HashFn, p: Proof, rootHash: Bytes, leaf: Bytes)
    ensures var err := Verify(h, p, rootHash, leaf);
      var computed := HashFromAunts(Sha(h), p.index, p.total, h([0] + leaf), p.aunts);
      && (err == Some(NegativeTotal) <==> p.total < 0)
      && (err == Some(NegativeIndex) <==> p.total >= 0 && p.index < 0)
      && (err == Some(WrongLeafHash) <==> p.total >= 0 && p.index >= 0 && p.leafHash != h([0] + leaf))
      && (err == None <==>
            && p.total >= 0 && p.index >= 0 && p.leafHash == h([0] + leaf)
            && (computed == Some(rootHash) || (computed == None && rootHash == [])))
  {
    assert Sha(h)(Leaf(leaf)) == h(Encode(Leaf(leaf)));
  }

  function ProofOf(h: HashFn, items: seq<Bytes>, i: nat): Proof
    requires i < |items|
  {
    Proof(|items|, i, Sha(h)(Leaf(items[i])), AuntsOf(Sha(h), items, i))
  }

  /** The audit paths of section 2.1.1 of RFC 6962: the path within the half that
      holds the item, followed by the root of the other half. */
  lemma {:induction false} PathEquations(h: HashFn, items: seq<Bytes>, i: nat, k: nat, e: nat)
    requires i < |items|
    ensures var p := ProofOf(h, items, i); p.index == i && p.total == |items| && p.leafHash == h([0] + items[i])
    ensures |items| == 1 ==> ProofOf(h, items, i).aunts == []
    ensures 0 < k < |items| <= 2 * k && k == Pow2(e) ==>
      ProofOf(h, items, i).aunts ==
      if i < k then ProofOf(h, items[..k], i).aunts + [MerkleRoot(h, items[k..])]
      else ProofOf(h, items[k..], i - k).aunts + [MerkleRoot(h, items[..k])]
  {
    assert Sha(h)(Leaf(items[i])) == h(Encode(Leaf(items[i])));
    if 0 < k < |items| <= 2 * k && k == Pow2(e) { SplitPointIs(|items|, k, e); }
  }

  /** The digest a path carries upwards has the digest size, whatever the aunts. */
  lemma {:induction false} PathNodesDecodable(d: Digester<Bytes, Bytes>, index: int, total: int, leaf: Bytes,
                                              aunts: seq<Bytes>, n: ByteNode)
    requires Wide(d) && HashFromAunts(d, index, total, d(Leaf(leaf)), aunts).Some?
    requires n in PathNodes(d, index, total, leaf, aunts)
    ensures Decodable(n)
    decreases total
  {
    if total != 1 {
      var k, rest := SplitPoint(total), aunts[..|aunts| - 1];
      var i, t := if index < k then index else index - k, if index < k then k else total - k;
      TopNodeHashes(d, i, t, leaf, rest);
      if n != TopNode(d, index, total, leaf, aunts) {
        PathNodesDecodable(d, i, t, leaf, rest, n);
      }
    }
  }

  /** Soundness of Proof.Verify against the root of `items`: the leaf is one of
      the items, at the claimed index when the claimed total is the real one; or
      two strings, one hashed for the tree and one by the check, collide.
      Nothing is assumed about the number or the lengths of the aunts. */
  lemma {:induction false} VerifySound(h: HashFn, items: seq<Bytes>, p: Proof, leaf: Bytes)
    returns (x: ByteNode, y: ByteNode)
    requires FixedWidth(h)
    requires Verify(h, p, MerkleRoot(h, items), leaf) == None
    ensures HashFromAunts(Sha(h), p.index, p.total, Sha(h)(Leaf(leaf)), p.aunts).Some?
    ensures || Found(items, p.index, p.total, leaf)
            || (&& x in TreeNodes(Sha(h), items)
                && y in PathNodes(Sha(h), p.index, p.total, leaf, p.aunts)
                && Collision(h, Encode(x), Encode(y)))
  {
    ShaIsWide(h);
    x, y := PathSound(Sha(h), items, p.index, p.total, leaf, p.aunts);
    if !Found(items, p.index, p.total, leaf) {
      TreeNodesWide(Sha(h), items, x);
      PathNodesDecodable(Sha(h), p.index, p.total, leaf, p.aunts, y);
      if Encode(x) == Encode(y) { EncodeInjective(x, y); }
    }
  }

  /** Why the total has to be checked by the caller: the proof of the second of
      two items also passes as a proof for index 2 of 3. */
  lemma {:induction false} TotalIsNotBound(h: HashFn, a: Bytes, b: Bytes)
    ensures Verify(h, ProofOf(h, [a, b], 1), MerkleRoot(h, [a, b]), b) == None
    ensures Verify(h, ProofOf(h, [a, b], 1).(total := 3, index := 2), MerkleRoot(h, [a, b]), b) == None
  {
    ProofVerifies(h, [a, b], 1);
    PathForOtherTotal(Sha(h), a, b);
  }

  /** An empty root hash is no root: it accepts exactly the proofs whose path
      cannot be followed, since a nil digest equals an empty one. */
  lemma {:induction false} EmptyRootAcceptsBrokenPaths(h: HashFn, p: Proof, leaf: Bytes)
    requires FixedWidth(h) && p.total >= 0 && p.index >= 0 && p.leafHash == Sha(h)(Leaf(leaf))
    ensures Verify(h, p, [], leaf) == None <==>
            HashFromAunts(Sha(h), p.index, p.total, p.leafHash, p.aunts) == None
  {
    ShaIsWide(h);
    if HashFromAunts(Sha(h), p.index, p.total, p.leafHash, p.aunts).Some? {
      TopNodeHashes(Sha(h), p.index, p.total, leaf, p.aunts);
    }
  }

  // ------------------------------------------------ proofs from linked nodes

  /** ProofNode: `left` and `right` are siblings, not children. */
  class ProofNode<T> {
    const hash: T
    var parent: ProofNode?<T>
    var left: ProofNode?<T>
    var right: ProofNode?<T>

    constructor (hash: T)
      ensures this.hash == hash && IsTop()
    {
      this.hash := hash;
      parent, left, right := null, null, null;
    }

    /** Exactly one sibling, with digest `aunt`. */
    ghost predicate HasSibling(aunt: T)
      reads this
    {
      && (left == null) != (right == null)
      && (left != null ==> left.hash == aunt)
      && (right != null ==> right.hash == aunt)
    }

    ghost predicate IsTop()
      reads this
    {
      parent == null && left == null && right == null
    }
  }

  /** `path` climbs parent links from `leaf` to `root`, meeting the siblings `aunts`. */
  ghost predicate IsTrail<T>(path: seq<ProofNode<T>>, leaf: ProofNode<T>, root: ProofNode<T>, aunts: seq<T>)
    reads path
  {
    && |path| == |aunts| + 1
    && path[0] == leaf
    && path[|aunts|] == root
    && forall j :: 0 <= j < |aunts| ==> path[j].parent == path[j + 1] && path[j].HasSibling(aunts[j])
  }

  /** Hanging the top of a trail under a new root lengthens the trail by one. */
  lemma {:induction false} ExtendTrail<T>(path: seq<ProofNode<T>>, leaf: ProofNode<T>, top: ProofNode<T>,
                                          root: ProofNode<T>, aunts: seq<T>, aunt: T)
    requires IsTrail(path, leaf, top, aunts) && top.parent == root && top.HasSibling(aunt)
    ensures IsTrail(path + [root], leaf, root, aunts + [aunt])
  {
  }

  /** FlattenAunts: walks the parent links to the root. */
  method FlattenAunts<T>(leaf: ProofNode<T>, ghost path: seq<ProofNode<T>>, ghost root: ProofNode<T>,
                         ghost aunts: seq<T>)
    returns (inner: seq<T>)
    requires IsTrail(path, leaf, root, aunts) && root.IsTop()
    ensures inner == aunts
  {
    inner := [];
    var spn: ProofNode?<T> := leaf;
    ghost var j := 0;
    while spn != null
      invariant 0 <= j <= |path|
      invariant j < |path| ==> spn == path[j] && inner == aunts[..j]
      invariant j == |path| ==> spn == null && inner == aunts
      decreases |path| - j
    {
      if spn.left != null {
        inner := inner + [spn.left.hash];
      } else if spn.right != null {
        inner := inner + [spn.right.hash];
      }
      spn := spn.parent;
      j := j + 1;
    }
  }

  /** What trailsFromByteSlices hands to its caller: within `nodes`, one trail
      per item, all ending in one top node that carries the root. */
  ghost predicate AreTrails<A, T>(d: Digester<A, T>, items: seq<A>, trails: seq<ProofNode<T>>, root: ProofNode<T>,
                                  paths: seq<seq<ProofNode<T>>>, nodes: set<ProofNode<T>>)
    reads nodes
  {
    && |trails| == |paths| == |items|
    && root in nodes && root.IsTop() && root.hash == Root(d, items)
    && forall i :: 0 <= i < |items| ==> ItemTrail(d, items, i, trails[i], root, paths[i], nodes)
  }

  ghost predicate ItemTrail<A, T>(d: Digester<A, T>, items: seq<A>, i: nat, leaf: ProofNode<T>, root: ProofNode<T>,
                                  path: seq<ProofNode<T>>, nodes: set<ProofNode<T>>)
    requires i < |items|
    reads nodes
  {
    && leaf.hash == d(Leaf(items[i]))
    && (forall j :: 0 <= j < |path| ==> path[j] in nodes)
    && IsTrail(path, leaf, root, AuntsOf(d, items, i))
  }

  /** trailsFromByteSlices: builds both halves, then links their two tops as
      siblings under a new root, which completes every trail of both halves. */
  method TrailsFromByteSlices<A, T>(d: Digester<A, T>, items: seq<A>)
    returns (trails: seq<ProofNode<T>>, root: ProofNode<T>,
             ghost paths: seq<seq<ProofNode<T>>>, ghost nodes: set<ProofNode<T>>)
    ensures AreTrails(d, items, trails, root, paths, nodes)
    ensures fresh(nodes)
    decreases |items|
  {
    if |items| == 0 {
      root := new ProofNode(d(Empty));
      trails, paths, nodes := [], [], {root};
    } else if |items| == 1 {
      root := new ProofNode(d(Leaf(items[0])));
      trails, paths, nodes := [root], [[root]], {root};
    } else {
      SplitPointIsLargest(|items|);
      var k := GetSplitPoint(|items|);
      var lefts, leftRoot, leftPaths, leftNodes := TrailsFromByteSlices(d, items[..k]);
      var rights, rightRoot, rightPaths, rightNodes := TrailsFromByteSlices(d, items[k..]);
      root, paths := LinkHalves(d, items, k, lefts, leftRoot, leftPaths, leftNodes,
                                rights, rightRoot, rightPaths, rightNodes);
      trails, nodes := lefts + rights, leftNodes + rightNodes + {root};
    }
  }

  method LinkHalves<A, T>(d: Digester<A, T>, ghost items: seq<A>, ghost k: nat,
                          ghost lefts: seq<ProofNode<T>>, leftRoot: ProofNode<T>,
                          ghost leftPaths: seq<seq<ProofNode<T>>>, ghost leftNodes: set<ProofNode<T>>,
                          ghost rights: seq<ProofNode<T>>, rightRoot: ProofNode<T>,
                          ghost rightPaths: seq<seq<ProofNode<T>>>, ghost rightNodes: set<ProofNode<T>>)
    returns (root: ProofNode<T>, ghost paths: seq<seq<ProofNode<T>>>)
    requires |items| >= 2 && k == SplitPoint(|items|)
    requires AreTrails(d, items[..k], lefts, leftRoot, leftPaths, leftNodes)
    requires AreTrails(d, items[k..], rights, rightRoot, rightPaths, rightNodes)
    requires leftNodes !! rightNodes
    modifies leftRoot, rightRoot
    ensures AreTrails(d, items, lefts + rights, root, paths, leftNodes + rightNodes + {root})
    ensures fresh(root)
  {
    root := new ProofNode(d(Inner(leftRoot.hash, rightRoot.hash)));
    leftRoot.parent := root;
    leftRoot.right := rightRoot;
    rightRoot.parent := root;
    rightRoot.left := leftRoot;
    forall i | 0 <= i < k
      ensures ItemTrail(d, items[..k], i, lefts[i], leftRoot, leftPaths[i], leftNodes)
    {
      assert old(ItemTrail(d, items[..k], i, lefts[i], leftRoot, leftPaths[i], leftNodes));
    }
    forall i | 0 <= i < |items| - k
      ensures ItemTrail(d, items[k..], i, rights[i], rightRoot, rightPaths[i], rightNodes)
    {
      assert old(ItemTrail(d, items[k..], i, rights[i], rightRoot, rightPaths[i], rightNodes));
    }
    paths := JoinTrails(d, items, k, lefts, leftRoot, leftPaths, leftNodes,
                        rights, rightRoot, rightPaths, rightNodes, root);
  }

  ghost function Lengthened<T>(paths: seq<seq<ProofNode<T>>>, root: ProofNode<T>): seq<seq<ProofNode<T>>> {
    seq(|paths|, i requires 0 <= i < |paths| => paths[i] + [root])
  }

  lemma {:induction false} JoinTrails<A, T>(d: Digester<A, T>, items: seq<A>, k: nat,
                                            lefts: seq<ProofNode<T>>, leftRoot: ProofNode<T>,
                                            leftPaths: seq<seq<ProofNode<T>>>, leftNodes: set<ProofNode<T>>,
                                            rights: seq<ProofNode<T>>, rightRoot: ProofNode<T>,
                                            rightPaths: seq<seq<ProofNode<T>>>, rightNodes: set<ProofNode<T>>,
                                            root: ProofNode<T>)
    returns (paths: seq<seq<ProofNode<T>>>)
    requires |items| >= 2 && k == SplitPoint(|items|)
    requires |lefts| == |leftPaths| == k && |rights| == |rightPaths| == |items| - k
    requires forall i :: 0 <= i < k ==> ItemTrail(d, items[..k], i, lefts[i], leftRoot, leftPaths[i], leftNodes)
    requires forall i :: 0 <= i < |items| - k ==>
               ItemTrail(d, items[k..], i, rights[i], rightRoot, rightPaths[i], rightNodes)
    requires leftRoot.parent == root && leftRoot.HasSibling(Root(d, items[k..]))
    requires rightRoot.parent == root && rightRoot.HasSibling(Root(d, items[..k]))
    requires root.IsTop() && root.hash == Root(d, items)
    ensures AreTrails(d, items, lefts + rights, root, paths, leftNodes + rightNodes + {root})
  {
    var nodes := leftNodes + rightNodes + {root};
    paths := Lengthened(leftPaths, root) + Lengthened(rightPaths, root);
    forall i | 0 <= i < |items|
      ensures ItemTrail(d, items, i, (lefts + rights)[i], root, paths[i], nodes)
    {
      if i < k {
        ExtendTrail(leftPaths[i], lefts[i], leftRoot, root, AuntsOf(d, items[..k], i), Root(d, items[k..]));
      } else {
        ExtendTrail(rightPaths[i - k], rights[i - k], rightRoot, root,
                    AuntsOf(d, items[k..], i - k), Root(d, items[..k]));
      }
    }
  }

  /** ProofsFromByteSlices: the root and, for every item, a proof that Verify
      accepts; each proof is the audit path of its item. */
  method ProofsFromByteSlices(h: HashFn, items: seq<Bytes>) returns (rootHash: Bytes, proofs: seq<Proof>)
    ensures rootHash == MerkleRoot(h, items)
    ensures |proofs| == |items|
    ensures forall i :: 0 <= i < |items| ==>
              proofs[i] == ProofOf(h, items, i) && Verify(h, proofs[i], rootHash, items[i]) == None
  {
    var trails, root, paths, nodes := TrailsFromByteSlices(Sha(h), items);
    rootHash := root.hash;
    proofs := [];
    for i := 0 to |items|
      invariant AreTrails(Sha(h), items, trails, root, paths, nodes)
      invariant |proofs| == i
      invariant forall j :: 0 <= j < i ==> proofs[j] == ProofOf(h, items, j)
    {
      assert ItemTrail(Sha(h), items, i, trails[i], root, paths[i], nodes);
      var aunts := FlattenAunts(trails[i], paths[i], root, AuntsOf(Sha(h), items, i));
      proofs := proofs + [Proof(|items|, i, trails[i].hash, aunts)];
    }
    forall i | 0 <= i < |items| ensures Verify(h, proofs[i], rootHash, items[i]) == None {
      ProofVerifies(h, items, i);
    }
  }

  /** Completeness: the audit path of every item passes Verify. */
  lemma {:induction false} ProofVerifies(h: HashFn, items: seq<Bytes>, i: nat)
    requires i < |items|
    ensures Verify(h, ProofOf(h, items, i), MerkleRoot(h, items), items[i]) == None
  {
    AuntsGiveRoot(Sha(h), items, i);
  }
}
