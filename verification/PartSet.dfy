/** types/part_set.go: a block cut into parts that carry Merkle proofs, put
    together again from parts arriving in any order. */
module PartSet {
  import opened Basics
  import opened Rotation
  import opened MerkleTree
  import opened MerkleProof
  import opened TreeShape
  import opened Chunks

  datatype Part = Part(index: nat, bytes: Bytes, proof: Proof)

  datatype PartError = UnexpectedIndex | InvalidProof

  /** The fields of a PartSet. */
  datatype Parts = Parts(total: nat, hash: Bytes, parts: seq<Option<Part>>, bits: seq<bool>, count: int, byteSize: int)

  /** NewPartSetFromHeader. */
  function NoParts(total: nat, hash: Bytes): Parts {
    Parts(total, hash, seq(total, i => None), seq(total, i => false), 0, 0)
  }

  function AllParts(hash: Bytes, parts: seq<Part>, byteSize: int): Parts {
    Parts(|parts|, hash, seq(|parts|, i requires 0 <= i < |parts| => Some(parts[i])), seq(|parts|, i => true),
          |parts|, byteSize)
  }

  function SizeAt(parts: seq<Option<Part>>, i: nat): nat
    requires i < |parts|
  {
    if parts[i].Some? then |parts[i].value.bytes| else 0
  }

  function BytesIn(parts: seq<Option<Part>>, n: nat): nat
    requires n <= |parts|
  {
    if n == 0 then 0 else BytesIn(parts, n - 1) + SizeAt(parts, n - 1)
  }

  /** A part held at `i` says so and has a proof that verifies. */
  predicate Proven(h: HashFn, hash: Bytes, p: Part, i: nat) {
    p.index == i && Verify(h, p.proof, hash, p.bytes) == None
  }

  /** The bit array, the count and the size are those of the parts held. */
  ghost predicate Exact(h: HashFn, s: Parts) {
    && |s.parts| == |s.bits| == s.total
    && (forall i :: 0 <= i < s.total ==> s.bits[i] == s.parts[i].Some?)
    && (forall i :: 0 <= i < s.total && s.parts[i].Some? ==> Proven(h, s.hash, s.parts[i].value, i))
    && s.count == Count(s.bits, s.total)
    && s.byteSize == BytesIn(s.parts, s.total)
  }

  /** AddPart. */
  function Add(h: HashFn, s: Parts, p: Part): (Parts, bool, Option<PartError>)
    requires |s.parts| == |s.bits| == s.total
  {
    if p.index >= s.total then (s, false, Some(UnexpectedIndex))
    else if s.parts[p.index].Some? then (s, false, None)
    else if Verify(h, p.proof, s.hash, p.bytes) != None then (s, false, Some(InvalidProof))
    else
      var parts, bits := s.parts[p.index := Some(p)], s.bits[p.index := true];
      (Parts(s.total, s.hash, parts, bits, s.count + 1, s.byteSize + |p.bytes|), true, None)
  }

  /** What AddPart answers, and what it changes: the answer is a flag and an error,
      and only an accepted part is stored, counted and weighed. */
  lemma {:induction false} AddAnswers(h: HashFn, s: Parts, p: Part)
    requires |s.parts| == |s.bits| == s.total
    ensures var (t, added, err) := Add(h, s, p);
      && (err == Some(UnexpectedIndex) <==> p.index >= s.total)
      && (err == Some(InvalidProof) <==>
            p.index < s.total && s.parts[p.index].None? && Verify(h, p.proof, s.hash, p.bytes) != None)
      && (added <==> p.index < s.total && s.parts[p.index].None? && Verify(h, p.proof, s.hash, p.bytes) == None)
      && (added ==> err.None?) && (!added ==> t == s)
      && (added ==>
            && t.total == s.total && t.hash == s.hash && t.count == s.count + 1 && t.byteSize == s.byteSize + |p.bytes|
            && |t.parts| == |t.bits| == s.total && t.parts[p.index] == Some(p) && t.bits[p.index]
            && forall i :: 0 <= i < s.total && i != p.index ==> t.parts[i] == s.parts[i] && t.bits[i] == s.bits[i])
  {
  }

  lemma {:induction false} BytesGrow(parts: seq<Option<Part>>, n: nat, i: nat, p: Part)
    requires n <= |parts| && i < |parts| && parts[i].None?
    ensures BytesIn(parts[i := Some(p)], n) == BytesIn(parts, n) + if i < n then |p.bytes| else 0
  {
    if n > 0 { BytesGrow(parts, n - 1, i, p); }
  }

  lemma {:induction false} AddKeepsExact(h: HashFn, s: Parts, p: Part)
    requires Exact(h, s)
    ensures Exact(h, Add(h, s, p).0)
  {
    if Add(h, s, p).1 {
      BytesGrow(s.parts, s.total, p.index, p);
      MaskGrow(seq(s.total, i => 0), s.bits, s.total, p.index);
    }
  }

  lemma {:induction false} NothingIn(parts: seq<Option<Part>>, n: nat)
    requires n <= |parts| && forall i :: 0 <= i < n ==> parts[i].None?
    ensures BytesIn(parts, n) == 0
  {
    if n > 0 { NothingIn(parts, n - 1); }
  }

  lemma {:induction false} NoPartsExact(h: HashFn, total: nat, hash: Bytes)
    ensures Exact(h, NoParts(total, hash))
  {
    var s := NoParts(total, hash);
    NothingIn(s.parts, total);
    NothingMarked(seq(total, i => 0), s.bits, total);
  }

  /** IsComplete means that no part is missing. */
  lemma {:induction false} CompleteMeansAll(h: HashFn, s: Parts)
    requires Exact(h, s)
    ensures s.count == s.total <==> forall i :: 0 <= i < s.total ==> s.parts[i].Some?
  {
    CountAtMost(s.bits, s.total);
    if forall i :: 0 <= i < s.total ==> s.parts[i].Some? {
      SumAll(seq(s.total, i => 0), s.bits, s.total);
    }
  }

  class PartSet {
    const h: HashFn
    const total: nat
    const hash: Bytes
    var parts: seq<Option<Part>>
    var partsBitArray: seq<bool>
    var count: int
    var byteSize: int

    ghost function Value(): Parts
      reads this
    {
      Parts(total, hash, parts, partsBitArray, count, byteSize)
    }

    ghost predicate Valid()
      reads this
    {
      Exact(h, Value())
    }

    constructor FromHeader(h: HashFn, total: nat, hash: Bytes)
      ensures Valid() && this.h == h && Value() == NoParts(total, hash)
    {
      this.h, this.total, this.hash := h, total, hash;
      parts := seq(total, i => None);
      partsBitArray := seq(total, i => false);
      count, byteSize := 0, 0;
      new;
      NoPartsExact(h, total, hash);
    }

    constructor Filled(h: HashFn, hash: Bytes, parts: seq<Part>, byteSize: int)
      ensures this.h == h && this.total == |parts| && this.hash == hash
      ensures Value() == AllParts(hash, parts, byteSize)
    {
      this.h, this.total, this.hash := h, |parts|, hash;
      this.parts := seq(|parts|, i requires 0 <= i < |parts| => Some(parts[i]));
      partsBitArray := seq(|parts|, i => true);
      count, this.byteSize := |parts|, byteSize;
    }

    method AddPart(p: Part) returns (added: bool, err: Option<PartError>)
      requires Valid()
      modifies this
      ensures Valid() && (Value(), added, err) == Add(h, old(Value()), p)
    {
      AddKeepsExact(h, Value(), p);
      if p.index >= total { return false, Some(UnexpectedIndex); }
      if parts[p.index].Some? { return false, None; }
      if Verify(h, p.proof, hash, p.bytes) != None { return false, Some(InvalidProof); }
      parts := parts[p.index := Some(p)];
      partsBitArray := partsBitArray[p.index := true];
      count := count + 1;
      byteSize := byteSize + |p.bytes|;
      return true, None;
    }

    method IsComplete() returns (complete: bool)
      requires Valid()
      ensures complete <==> forall i :: 0 <= i < total ==> parts[i].Some?
    {
      CompleteMeansAll(h, Value());
      complete := count == total;
    }

    /** The source panics on an incomplete set, and on one without parts. */
    method GetReader() returns (r: PartSetReader<byte>)
      requires Valid() && count == total > 0
      ensures fresh(r) && AllHeld(parts) && r.Remaining() == JoinFrom(BytesHeld(parts), 0)
    {
      CompleteMeansAll(h, Value());
      r := new PartSetReader(BytesHeld(parts));
    }
  }

  ghost predicate AllHeld(parts: seq<Option<Part>>) { forall i :: 0 <= i < |parts| ==> parts[i].Some? }

  function BytesHeld(parts: seq<Option<Part>>): seq<Bytes>
    requires AllHeld(parts)
  {
    seq(|parts|, i requires 0 <= i < |parts| => parts[i].value.bytes)
  }

  // ------------------------------------------------------------ from the data

  /** Part `i` of the items, with its proof. */
  function PartOf(h: HashFn, items: seq<Bytes>, i: nat): Part
    requires i < |items|
  {
    Part(i, items[i], ProofOf(h, items, i))
  }

  function PartsOf(h: HashFn, items: seq<Bytes>): seq<Part> {
    seq(|items|, i requires 0 <= i < |items| => PartOf(h, items, i))
  }

  /** NewPartSetFromData: the parts of the data, all there; the size is exact
      when the parts make up the data. */
  method NewPartSetFromData(h: HashFn, data: Bytes, partSize: nat) returns (ps: PartSet)
    requires 0 < partSize < TWO_32
    ensures ps.h == h
    ensures var items := Split(data, partSize); ps.Value() == AllParts(MerkleRoot(h, items), PartsOf(h, items), |data|)
    ensures ps.Valid() <==> |data| + partSize - 1 < TWO_32
  {
    var partsBytes := CutUp(data, partSize);
    var root, proofs := ProofsFromByteSlices(h, partsBytes);
    var parts := Numbered(h, partsBytes, proofs);
    ps := new PartSet.Filled(h, root, parts, |data|);
    ExactIfCovered(h, data, partSize);
  }

  lemma {:induction false} ExactIfCovered(h: HashFn, data: Bytes, partSize: nat)
    requires 0 < partSize < TWO_32
    ensures var items := Split(data, partSize);
      Exact(h, AllParts(MerkleRoot(h, items), PartsOf(h, items), |data|)) <==> |data| + partSize - 1 < TWO_32
  {
    var items := Split(data, partSize);
    SplitIsLossless(data, partSize);
    JoinOfSplit(data, partSize);
    AllPartsExact(h, items);
    assert |JoinFrom(items, 0)| == |data| ==> JoinFrom(items, 0) == data;
  }

  method Numbered(h: HashFn, items: seq<Bytes>, proofs: seq<Proof>) returns (parts: seq<Part>)
    requires |proofs| == |items| && forall i :: 0 <= i < |items| ==> proofs[i] == ProofOf(h, items, i)
    ensures parts == PartsOf(h, items)
  {
    parts := [];
    for i := 0 to |items|
      invariant |parts| == i && forall k :: 0 <= k < i ==> parts[k] == PartOf(h, items, k)
    {
      parts := parts + [Part(i, items[i], proofs[i])];
    }
  }

  lemma {:induction false} SizeOfJoin(items: seq<Bytes>, held: seq<Option<Part>>, n: nat)
    requires n <= |items| == |held| && forall i :: 0 <= i < |items| ==> held[i].Some? && held[i].value.bytes == items[i]
    ensures BytesIn(held, n) + |JoinFrom(items, n)| == |JoinFrom(items, 0)|
  {
    if n > 0 { SizeOfJoin(items, held, n - 1); }
  }

  lemma {:induction false} AllPartsExact(h: HashFn, items: seq<Bytes>)
    ensures Exact(h, AllParts(MerkleRoot(h, items), PartsOf(h, items), |JoinFrom(items, 0)|))
  {
    var s := AllParts(MerkleRoot(h, items), PartsOf(h, items), |JoinFrom(items, 0)|);
    forall i | 0 <= i < |items| ensures Proven(h, s.hash, s.parts[i].value, i) {
      ProofVerifies(h, items, i);
    }
    SumAll(seq(|items|, i => 0), s.bits, |items|);
    SizeOfJoin(items, s.parts, |items|);
  }

  // -------------------------------------------------------- any order, repeats

  /** The parts at `ks`, in that order, added to a set made from the header. */
  ghost function AddAll(h: HashFn, items: seq<Bytes>, ks: seq<nat>, n: nat): (s: Parts)
    requires n <= |ks| && forall j :: 0 <= j < |ks| ==> ks[j] < |items|
    ensures |s.parts| == |s.bits| == s.total == |items|
  {
    if n == 0 then NoParts(|items|, MerkleRoot(h, items))
    else Add(h, AddAll(h, items, ks, n - 1), PartOf(h, items, ks[n - 1])).0
  }

  lemma {:induction false} AddGenuine(h: HashFn, items: seq<Bytes>, s: Parts, k: nat)
    requires k < |items| == |s.parts| == |s.bits| == s.total && s.hash == MerkleRoot(h, items)
    requires s.parts[k].Some? ==> s.parts[k] == Some(PartOf(h, items, k))
    ensures var t := Add(h, s, PartOf(h, items, k)).0;
      t.hash == s.hash && t.parts == s.parts[k := Some(PartOf(h, items, k))]
  {
    ProofVerifies(h, items, k);
  }

  /** `i` is among the first `n` of `ks`. */
  predicate Among(ks: seq<nat>, n: nat, i: nat)
    requires n <= |ks|
  {
    n > 0 && (ks[n - 1] == i || Among(ks, n - 1, i))
  }

  lemma {:induction false} AmongAll(ks: seq<nat>, n: nat, i: nat)
    requires n <= |ks|
    ensures Among(ks, n, i) <==> exists j :: 0 <= j < n && ks[j] == i
  {
    if n > 0 { AmongAll(ks, n - 1, i); }
  }

  /** `s` holds the parts at the first `n` of `ks`, and no others. */
  ghost predicate HoldsFirst(h: HashFn, items: seq<Bytes>, s: Parts, ks: seq<nat>, n: nat)
    requires n <= |ks|
  {
    && |s.parts| == |items|
    && forall i :: 0 <= i < |items| ==> s.parts[i] == if Among(ks, n, i) then Some(PartOf(h, items, i)) else None
  }

  lemma {:induction false} HoldsNext(h: HashFn, items: seq<Bytes>, s: Parts, t: Parts, ks: seq<nat>, n: nat)
    requires n < |ks| && ks[n] < |items| && HoldsFirst(h, items, s, ks, n)
    requires t.parts == s.parts[ks[n] := Some(PartOf(h, items, ks[n]))]
    ensures HoldsFirst(h, items, t, ks, n + 1)
  {
  }

  lemma {:induction false} AddAllHolds(h: HashFn, items: seq<Bytes>, ks: seq<nat>, n: nat)
    requires n <= |ks| && forall j :: 0 <= j < |ks| ==> ks[j] < |items|
    ensures var s := AddAll(h, items, ks, n); s.hash == MerkleRoot(h, items) && HoldsFirst(h, items, s, ks, n)
  {
    if n > 0 {
      AddAllHolds(h, items, ks, n - 1);
      var s := AddAll(h, items, ks, n - 1);
      AddGenuine(h, items, s, ks[n - 1]);
      HoldsNext(h, items, s, AddAll(h, items, ks, n), ks, n - 1);
    }
  }

  lemma {:induction false} AddAllExact(h: HashFn, items: seq<Bytes>, ks: seq<nat>, n: nat)
    requires n <= |ks| && forall j :: 0 <= j < |ks| ==> ks[j] < |items|
    ensures Exact(h, AddAll(h, items, ks, n))
  {
    if n == 0 {
      NoPartsExact(h, |items|, MerkleRoot(h, items));
    } else {
      AddAllExact(h, items, ks, n - 1);
      AddKeepsExact(h, AddAll(h, items, ks, n - 1), PartOf(h, items, ks[n - 1]));
    }
  }

  /** Adding genuine parts in any order with any repeats: the accounts are exact,
      exactly the parts added are held, and the set is complete exactly when
      every index has come by. */
  lemma {:induction false} AnyOrder(h: HashFn, items: seq<Bytes>, ks: seq<nat>)
    requires forall j :: 0 <= j < |ks| ==> ks[j] < |items|
    ensures var s := AddAll(h, items, ks, |ks|);
      && Exact(h, s)
      && (forall i :: 0 <= i < |items| ==> s.parts[i] == if i in ks then Some(PartOf(h, items, i)) else None)
      && (s.count == s.total <==> forall i :: 0 <= i < |items| ==> i in ks)
  {
    var s := AddAll(h, items, ks, |ks|);
    AddAllExact(h, items, ks, |ks|);
    AddAllHolds(h, items, ks, |ks|);
    forall i | 0 <= i < |items| ensures Among(ks, |ks|, i) <==> i in ks { AmongAll(ks, |ks|, i); }
    CompleteMeansAll(h, s);
  }

  /** The round trip: once every index has come by, what the parts hold is the
      data, and its size is right. */
  lemma {:induction false} RoundTrip(h: HashFn, data: Bytes, size: nat, ks: seq<nat>)
    requires 0 < size < TWO_32 && |data| + size - 1 < TWO_32
    requires forall j :: 0 <= j < |ks| ==> ks[j] < |Split(data, size)|
    requires forall i :: 0 <= i < |Split(data, size)| ==> i in ks
    ensures var s := AddAll(h, Split(data, size), ks, |ks|);
      s.count == s.total && AllHeld(s.parts) && JoinFrom(BytesHeld(s.parts), 0) == data && s.byteSize == |data|
  {
    var items := Split(data, size);
    var s := AddAll(h, items, ks, |ks|);
    AnyOrder(h, items, ks);
    SplitIsLossless(data, size);
    assert BytesHeld(s.parts) == items;
    SizeOfJoin(items, s.parts, |items|);
  }

  /** `x`, hashed for the tree, and `y`, hashed to check the part, collide. */
  ghost predicate Collides(h: HashFn, items: seq<Bytes>, p: Part, x: ByteNode, y: ByteNode) {
    && HashFromAunts(Sha(h), p.proof.index, p.proof.total, Sha(h)(Leaf(p.bytes)), p.proof.aunts).Some?
    && x in TreeNodes(Sha(h), items)
    && y in PathNodes(Sha(h), p.proof.index, p.proof.total, p.bytes, p.proof.aunts)
    && Collision(h, Encode(x), Encode(y))
  }

  /** The part is what its proof is about. */
  ghost predicate AtProof(items: seq<Bytes>, p: Part) {
    0 <= p.proof.index < |items| && p.bytes == items[p.proof.index]
  }

  /** The proof is for an item equal to item `i`. */
  ghost predicate ProvesEqual(items: seq<Bytes>, p: Part, i: nat) {
    i < |items| && 0 <= p.proof.index < |items| && items[p.proof.index] == items[i]
  }

  /** A part from anywhere whose proof is for the total of the set: it is the part
      of the data at its index exactly if that is also what is at the index of its
      proof, or a string hashed for the tree and one hashed by the check collide. */
  lemma {:induction false} AcceptedIsGenuine(h: HashFn, items: seq<Bytes>, p: Part) returns (x: ByteNode, y: ByteNode)
    requires FixedWidth(h) && p.index < |items| && p.proof.total == |items|
    requires Verify(h, p.proof, MerkleRoot(h, items), p.bytes) == None
    ensures || Collides(h, items, p, x, y)
            || (AtProof(items, p) && (p.bytes == items[p.index] <==> ProvesEqual(items, p, p.index)))
  {
    x, y := VerifySound(h, items, p.proof, p.bytes);
  }

  /** The set holds all its parts, each with a proof for its total. */
  ghost predicate Assembled(h: HashFn, items: seq<Bytes>, s: Parts) {
    && Exact(h, s) && s.hash == MerkleRoot(h, items) && s.total == |items| && AllHeld(s.parts)
    && forall i :: 0 <= i < |items| ==> s.parts[i].value.proof.total == |items|
  }

  lemma {:induction false} AcceptedAt(h: HashFn, items: seq<Bytes>, s: Parts, k: nat)
    returns (x: ByteNode, y: ByteNode)
    requires FixedWidth(h) && Assembled(h, items, s) && k < |items|
    ensures Collides(h, items, s.parts[k].value, x, y) || AtProof(items, s.parts[k].value)
  {
    assert Proven(h, s.hash, s.parts[k].value, k);
    x, y := AcceptedIsGenuine(h, items, s.parts[k].value);
  }

  ghost predicate AllAtProof(items: seq<Bytes>, parts: seq<Option<Part>>, n: nat) {
    n <= |parts| && forall i :: 0 <= i < n ==> parts[i].Some? && AtProof(items, parts[i].value)
  }

  lemma {:induction false} AcceptedUpTo(h: HashFn, items: seq<Bytes>, s: Parts, n: nat)
    returns (k: nat, x: ByteNode, y: ByteNode)
    requires FixedWidth(h) && Assembled(h, items, s) && n <= |items|
    ensures AllAtProof(items, s.parts, n) || (k < |items| && Collides(h, items, s.parts[k].value, x, y))
  {
    k, x, y := 0, Empty, Empty;
    if n > 0 {
      k, x, y := AcceptedUpTo(h, items, s, n - 1);
      if AllAtProof(items, s.parts, n - 1) {
        k := n - 1;
        x, y := AcceptedAt(h, items, s, k);
      }
    }
  }

  /** A complete set of accepted parts holds the items exactly if every proof is
      for an equal item, or some part makes a collision. */
  lemma {:induction false} AssembledIsGenuine(h: HashFn, items: seq<Bytes>, s: Parts)
    returns (k: nat, x: ByteNode, y: ByteNode)
    requires FixedWidth(h) && Assembled(h, items, s)
    ensures || (k < |items| && Collides(h, items, s.parts[k].value, x, y))
            || (&& AllAtProof(items, s.parts, |items|)
                && (BytesHeld(s.parts) == items <==>
                      forall i :: 0 <= i < |items| ==> ProvesEqual(items, s.parts[i].value, i)))
  {
    k, x, y := AcceptedUpTo(h, items, s, |items|);
    if AllAtProof(items, s.parts, |items|) { HeldAre(items, s.parts); }
  }

  lemma {:induction false} HeldAre(items: seq<Bytes>, parts: seq<Option<Part>>)
    requires |parts| == |items| && AllHeld(parts) && AllAtProof(items, parts, |items|)
    ensures BytesHeld(parts) == items <==> forall i :: 0 <= i < |items| ==> ProvesEqual(items, parts[i].value, i)
  {
    forall i | 0 <= i < |items| ensures BytesHeld(parts)[i] == items[i] <==> ProvesEqual(items, parts[i].value, i) {
      assert AtProof(items, parts[i].value);
    }
  }

  /** Parts from anywhere, complete under the header of the data and each with a
      proof for its own index and the total: joined they are the data, and the
      size is right, or some part makes a collision. */
  lemma {:induction false} AssembledIsData(h: HashFn, data: Bytes, size: nat, s: Parts)
    returns (k: nat, x: ByteNode, y: ByteNode)
    requires FixedWidth(h) && 0 < size < TWO_32 && |data| + size - 1 < TWO_32 && Assembled(h, Split(data, size), s)
    requires forall i :: 0 <= i < s.total ==> s.parts[i].value.proof.index == i
    ensures || (k < s.total && Collides(h, Split(data, size), s.parts[k].value, x, y))
            || (JoinFrom(BytesHeld(s.parts), 0) == data && s.byteSize == |data|)
  {
    var items := Split(data, size);
    k, x, y := AssembledIsGenuine(h, items, s);
    if BytesHeld(s.parts) == items {
      SplitIsLossless(data, size);
      assert forall i :: 0 <= i < |items| ==> BytesHeld(s.parts)[i] == s.parts[i].value.bytes;
      SizeOfJoin(items, s.parts, |items|);
    }
  }

  /** A part may sit at another index than its proof shows. */
  lemma {:induction false} IndexIsNotChecked(h: HashFn, a: Bytes, b: Bytes)
    ensures var s := NoParts(2, MerkleRoot(h, [a, b]));
      Add(h, s, Part(0, b, ProofOf(h, [a, b], 1))).1
  {
    ProofVerifies(h, [a, b], 1);
  }

  // ----------------------------------------------------------------- reading

  /** PartSetReader over the bytes of the parts. */
  class PartSetReader<T> {
    const parts: seq<seq<T>>
    var i: nat
    var reader: seq<T>

    /** What is left to read. */
    ghost function Remaining(): seq<T>
      reads this
    {
      reader + JoinFrom(parts, i + 1)
    }

    /** The source panics without parts. */
    constructor (parts: seq<seq<T>>)
      requires |parts| > 0
      ensures this.parts == parts && Remaining() == JoinFrom(parts, 0)
    {
      this.parts := parts;
      i := 0;
      reader := parts[0];
    }

    /** Read into a buffer of `k` elements: as many as are left, and the end is
        reported exactly when they do not fill it.  An empty buffer is told the
        end as soon as one part is used up. */
    method Read(k: nat) returns (out: seq<T>, eof: bool)
      modifies this
      ensures out + Remaining() == old(Remaining())
      ensures k > 0 ==> |out| == Min(k, |old(Remaining())|) && (eof <==> |old(Remaining())| < k)
      ensures k == 0 ==> out == [] && (eof <==> |old(reader)| == 0)
      ensures k <= |old(reader)| ==> i == old(i) && reader == old(reader)[k..]
      decreases if i < |parts| then |parts| - i else 0, k
    {
      var readerLen := |reader|;
      if readerLen >= k {
        out, eof := reader[..k], readerLen == 0;
        reader := reader[k..];
      } else if readerLen > 0 {
        var out1, eof1 := Read(readerLen);
        var out2, eof2 := Read(k - readerLen);
        out, eof := out1 + out2, eof2;
      } else {
        i := i + 1;
        if i >= |parts| { return [], true; }
        reader := parts[i];
        out, eof := Read(k);
      }
    }
  }

  lemma {:induction false} SumGrows(sizes: seq<nat>, m: nat, n: nat)
    requires m <= n <= |sizes|
    ensures Sum(sizes, m) <= Sum(sizes, n)
  {
    if m < n { SumGrows(sizes, m, n - 1); }
  }

  /** Reading through any non-empty buffers, until one is not filled: as much as
      they hold together, and the end is reported exactly when they hold more
      than there is. */
  method ReadThrough<T>(r: PartSetReader<T>, sizes: seq<nat>) returns (out: seq<T>, eof: bool)
    requires forall j :: 0 <= j < |sizes| ==> sizes[j] > 0
    modifies r
    ensures out + r.Remaining() == old(r.Remaining())
    ensures |out| == Min(Sum(sizes, |sizes|), |old(r.Remaining())|)
    ensures eof <==> Sum(sizes, |sizes|) > |old(r.Remaining())|
  {
    out, eof := [], false;
    for j := 0 to |sizes|
      invariant out + r.Remaining() == old(r.Remaining())
      invariant !eof && |out| == Sum(sizes, j)
    {
      var more;
      more, eof := r.Read(sizes[j]);
      SumGrows(sizes, j + 1, |sizes|);
      assert out + more + r.Remaining() == old(r.Remaining());
      out := out + more;
      if eof { return; }
    }
  }

  // -------------------------------------------------------------- end to end

  /** A set made from the header of `full`, and the parts at `ks` added to it. */
  method Collect(full: PartSet, ghost items: seq<Bytes>, ks: seq<nat>) returns (ps: PartSet)
    requires full.Value() == AllParts(MerkleRoot(full.h, items), PartsOf(full.h, items), full.byteSize)
    requires forall j :: 0 <= j < |ks| ==> ks[j] < |items|
    ensures fresh(ps) && ps.Valid() && ps.h == full.h && ps.Value() == AddAll(full.h, items, ks, |ks|)
  {
    ps := new PartSet.FromHeader(full.h, full.total, full.hash);
    for j := 0 to |ks|
      invariant fresh(ps) && ps.Valid() && ps.h == full.h && ps.Value() == AddAll(full.h, items, ks, j)
    {
      assert full.parts[ks[j]] == Some(PartOf(full.h, items, ks[j]));
      var added, err := ps.AddPart(full.parts[ks[j]].value);
    }
  }

  /** From data to data: cut up, sent part by part in any order with any repeats,
      put together from the header, and read through any non-empty buffers.  All
      of the data comes out as soon as the buffers hold more than it. */
  method Transfer(h: HashFn, data: Bytes, partSize: nat, ks: seq<nat>, sizes: seq<nat>) returns (out: Bytes, eof: bool)
    requires data != [] && 0 < partSize < TWO_32 && |data| + partSize - 1 < TWO_32
    requires forall j :: 0 <= j < |ks| ==> ks[j] < |Split(data, partSize)|
    requires forall i :: 0 <= i < |Split(data, partSize)| ==> i in ks
    requires forall j :: 0 <= j < |sizes| ==> sizes[j] > 0
    ensures out <= data && |out| == Min(Sum(sizes, |sizes|), |data|)
    ensures eof <==> Sum(sizes, |sizes|) > |data|
    ensures eof ==> out == data
  {
    ghost var items := Split(data, partSize);
    var full := NewPartSetFromData(h, data, partSize);
    var ps := Collect(full, items, ks);
    RoundTrip(h, data, partSize, ks);
    assert |items| > 0 by { SplitIsLossless(data, partSize); }
    var r := ps.GetReader();
    assert r.Remaining() == data;
    out, eof := ReadThrough(r, sizes);
    Prefix(out, r.Remaining(), data);
  }

  lemma {:induction false} Prefix<T>(a: seq<T>, b: seq<T>, whole: seq<T>)
    requires a + b == whole
    ensures a <= whole && (|a| == |whole| ==> a == whole)
  {
  }
}
