/** The framed, encrypted stream of privval/secret_connection.go:191-277, 457-466:
    one direction of a connection, from the Write of one side over an in-order
    channel to the Read of the other.  Encryption is a pair of functions. */
module SecretConnection {
  import opened Basics
  import opened Chunks
  import opened Int64
  import opened Lists
  import LittleEndian

  const DATA_LEN_SIZE := 4
  const DATA_MAX_SIZE := 1024
  const TOTAL_FRAME_SIZE := DATA_LEN_SIZE + DATA_MAX_SIZE
  const NONCE_SIZE := 12

  datatype Aead = Aead(seal: (Bytes, Bytes) -> Bytes, open: (Bytes, Bytes) -> Option<Bytes>)

  /** What is sealed opens again under the same nonce. */
  ghost predicate Correct(a: Aead) {
    forall nonce, frame :: a.open(nonce, a.seal(nonce, frame)) == Some(frame)
  }

  // ------------------------------------------------------------------- nonces

  /** The nonce of the `c`-th frame: four unused bytes and a counter. */
  function Nonce(c: nat): (n: Bytes)
    ensures |n| == NONCE_SIZE
  {
    [0, 0, 0, 0] + LittleEndian.Encode(c, 8)
  }

  /** Four zero bytes and the counter, least significant byte first. */
  lemma {:induction false} NonceBytes(c: nat, i: nat)
    requires i < NONCE_SIZE
    ensures Nonce(c)[i] as nat == if i < 4 then 0 else c / LittleEndian.Pow256(i - 4) % 256
  {
    if i >= 4 { LittleEndian.EncodeAt(c, 8, i - 4); }
  }

  lemma {:induction false} NoncesDiffer(c: nat, d: nat)
    requires c <= MAX_UINT64 && d <= MAX_UINT64 && Nonce(c) == Nonce(d)
    ensures c == d
  {
    LittleEndian.Widths();
    assert Nonce(c)[4..] == LittleEndian.Encode(c, 8) && Nonce(d)[4..] == LittleEndian.Encode(d, 8);
    LittleEndian.DecodeEncode(c, 8);
    LittleEndian.DecodeEncode(d, 8);
  }

  /** incrNonce, in place; where the source panics, at the largest counter,
      nothing changes. */
  method IncrNonce(nonce: array<byte>) returns (ok: bool)
    requires nonce.Length == NONCE_SIZE
    modifies nonce
    ensures nonce[..4] == old(nonce[..4])
    ensures ok <==> old(LittleEndian.Decode(nonce[4..])) < MAX_UINT64
    ensures ok ==> LittleEndian.Decode(nonce[4..]) == old(LittleEndian.Decode(nonce[4..])) + 1
    ensures !ok ==> nonce[..] == old(nonce[..])
  {
    var counter := LittleEndian.Decode(nonce[4..]);
    LittleEndian.EncodeDecode(nonce[4..]);
    LittleEndian.Widths();
    if counter == MAX_UINT64 { return false; }
    var bytes := LittleEndian.Encode(counter + 1, 8);
    for i := 0 to 8
      invariant forall k :: 0 <= k < 4 ==> nonce[k] == old(nonce[k])
      invariant forall k :: 0 <= k < i ==> nonce[4 + k] == bytes[k]
    {
      nonce[4 + i] := bytes[i];
    }
    assert nonce[4..] == bytes;
    LittleEndian.DecodeEncode(counter + 1, 8);
    ok := true;
  }

  /** On nonces that count frames. */
  method NextNonce(nonce: array<byte>, ghost c: nat) returns (ok: bool)
    requires nonce.Length == NONCE_SIZE && c <= MAX_UINT64 && nonce[..] == Nonce(c)
    modifies nonce
    ensures ok <==> c < MAX_UINT64
    ensures nonce[..] == Nonce(if ok then c + 1 else c)
  {
    LittleEndian.Widths();
    assert nonce[4..] == LittleEndian.Encode(c, 8) by { assert nonce[4..] == Nonce(c)[4..]; }
    LittleEndian.DecodeEncode(c, 8);
    ok := IncrNonce(nonce);
    if ok {
      LittleEndian.EncodeDecode(nonce[4..]);
      assert nonce[..] == nonce[..4] + nonce[4..];
      assert nonce[..4] == [0, 0, 0, 0];
    }
  }

  // ------------------------------------------------------------------- frames

  /** `frame` carries `chunk`; what follows the chunk is arbitrary. */
  ghost predicate Carries(frame: Bytes, chunk: Bytes) {
    && |frame| == TOTAL_FRAME_SIZE && |chunk| <= DATA_MAX_SIZE
    && frame[..DATA_LEN_SIZE] == LittleEndian.Encode(|chunk|, DATA_LEN_SIZE)
    && frame[DATA_LEN_SIZE..DATA_LEN_SIZE + |chunk|] == chunk
  }

  /** Buffers come from a pool with whatever was in them. */
  method GetBuffer(n: nat) returns (buffer: Bytes)
    ensures |buffer| == n
  {
    buffer := seq(n, i => 0);
  }

  method MakeFrame(chunk: Bytes) returns (frame: Bytes)
    requires |chunk| <= DATA_MAX_SIZE
    ensures Carries(frame, chunk)
  {
    frame := GetBuffer(TOTAL_FRAME_SIZE);
    var length := LittleEndian.Encode(|chunk|, DATA_LEN_SIZE);
    frame := length + frame[DATA_LEN_SIZE..];
    frame := frame[..DATA_LEN_SIZE] + chunk + frame[DATA_LEN_SIZE + |chunk|..];
  }

  datatype ReadError = EndOfStream | CannotDecrypt | LengthTooBig

  /** The chunk of any frame, unless its length field is too big. */
  method ParseFrame(frame: Bytes) returns (r: Result<Bytes, ReadError>)
    requires |frame| == TOTAL_FRAME_SIZE
    ensures r.Err? <==> LittleEndian.Decode(frame[..DATA_LEN_SIZE]) > DATA_MAX_SIZE
    ensures r.Ok? ==> Carries(frame, r.value)
  {
    var chunkLength := LittleEndian.Decode(frame[..DATA_LEN_SIZE]);
    if chunkLength > DATA_MAX_SIZE { return Err(LengthTooBig); }
    LittleEndian.EncodeDecode(frame[..DATA_LEN_SIZE]);
    r := Ok(frame[DATA_LEN_SIZE..DATA_LEN_SIZE + chunkLength]);
  }

  /** A frame carries one chunk only, and its length field is its length. */
  lemma {:induction false} CarriesOne(frame: Bytes, chunk: Bytes)
    requires Carries(frame, chunk)
    ensures LittleEndian.Decode(frame[..DATA_LEN_SIZE]) == |chunk|
    ensures forall other :: Carries(frame, other) ==> other == chunk
  {
    LittleEndian.Widths();
    LittleEndian.DecodeEncode(|chunk|, DATA_LEN_SIZE);
    forall other | Carries(frame, other) ensures other == chunk {
      LittleEndian.DecodeEncode(|other|, DATA_LEN_SIZE);
    }
  }

  /** The data in chunks as large as fit into a frame. */
  function ChunksOf(data: Bytes): seq<Bytes>
  {
    if data == [] then []
    else
      var k := Min(DATA_MAX_SIZE, |data|);
      [data[..k]] + ChunksOf(data[k..])
  }

  lemma {:induction false} ChunksAre(data: Bytes, i: nat)
    requires i < |ChunksOf(data)|
    ensures DATA_MAX_SIZE * i < |data|
    ensures ChunksOf(data)[i] == data[DATA_MAX_SIZE * i..Min(|data|, DATA_MAX_SIZE * i + DATA_MAX_SIZE)]
  {
    if i > 0 { ChunksAre(data[DATA_MAX_SIZE..], i - 1); }
  }

  // ------------------------------------------------------------------- stream

  /** Taking the next `k` elements. */
  lemma {:induction false} TakeMore<T>(s: seq<T>, data: seq<T>, n: nat, k: nat)
    requires n + k <= |data|
    ensures s + data[..n] + data[n..][..k] == s + data[..n + k] && data[n..][k..] == data[n + k..]
  {
  }

  /** A sealed frame with the `c`-th nonce that carries `chunk`. */
  ghost predicate IsSealed(a: Aead, sealed: Bytes, c: nat, chunk: Bytes) {
    exists frame :: Carries(frame, chunk) && sealed == a.seal(Nonce(c), frame)
  }

  /** The frames in flight, the first with the `c`-th nonce. */
  ghost predicate InFlight(a: Aead, wire: seq<Bytes>, c: nat, chunks: seq<Bytes>) {
    |wire| == |chunks| && forall i :: 0 <= i < |wire| ==> IsSealed(a, wire[i], c + i, chunks[i])
  }

  lemma {:induction false} InFlightMore(a: Aead, wire: seq<Bytes>, c: nat, chunks: seq<Bytes>, sealed: Bytes, chunk: Bytes)
    requires InFlight(a, wire, c, chunks) && IsSealed(a, sealed, c + |wire|, chunk)
    ensures InFlight(a, wire + [sealed], c, chunks + [chunk])
  {
  }

  lemma {:induction false} InFlightLess(a: Aead, wire: seq<Bytes>, c: nat, chunks: seq<Bytes>)
    requires InFlight(a, wire, c, chunks) && wire != []
    ensures InFlight(a, wire[1..], c + 1, chunks[1..])
  {
    forall i | 0 <= i < |wire| - 1 ensures IsSealed(a, wire[1..][i], c + 1 + i, chunks[1..][i]) {
      assert IsSealed(a, wire[i + 1], c + (i + 1), chunks[i + 1]);
    }
  }

  /** The first `n` nonces, in order. */
  ghost predicate FirstNonces(used: seq<Bytes>, n: nat) {
    |used| == n && forall i :: 0 <= i < n ==> used[i] == Nonce(i)
  }

  /** One direction of a connection: the sender's nonce, the wire, and the
      receiver's nonce and buffer.  `chunks` is what the wire carries; `sent`,
      `received` and `used` record the bytes and the nonces sealed with. */
  class Pipe {
    const aead: Aead
    const sendNonce: array<byte>
    const recvNonce: array<byte>
    var wire: seq<Bytes>
    var recvBuffer: Bytes
    var ended: bool
    ghost var sendCount: nat
    ghost var recvCount: nat
    ghost var chunks: seq<Bytes>
    ghost var sent: Bytes
    ghost var received: Bytes
    ghost var used: seq<Bytes>

    ghost predicate Valid()
      reads this, sendNonce, recvNonce
    {
      NoncesOk() && FramesOk() && received + recvBuffer + JoinFrom(chunks, 0) == sent
    }

    ghost predicate NoncesOk()
      reads this, sendNonce, recvNonce
    {
      && sendNonce != recvNonce && sendNonce.Length == recvNonce.Length == NONCE_SIZE
      && sendCount <= MAX_UINT64 && sendNonce[..] == Nonce(sendCount) && recvNonce[..] == Nonce(recvCount)
      && FirstNonces(used, if ended then sendCount + 1 else sendCount)
    }

    /** Sender minus receiver counter is the number of frames in flight. */
    ghost predicate FramesOk()
      reads this
    {
      Correct(aead) && sendCount - recvCount == |wire| && InFlight(aead, wire, recvCount, chunks)
    }

    constructor (aead: Aead)
      requires Correct(aead)
      ensures Valid() && !ended && fresh(sendNonce) && fresh(recvNonce)
      ensures sent == [] && received == [] && recvBuffer == [] && wire == []
    {
      this.aead := aead;
      sendNonce := new byte[NONCE_SIZE](i => 0);
      recvNonce := new byte[NONCE_SIZE](i => 0);
      wire, recvBuffer, ended := [], [], false;
      sendCount, recvCount, chunks := 0, 0, [];
      sent, received, used := [], [], [];
      new;
      assert Nonce(0) == seq(NONCE_SIZE, i => 0);
      assert sendNonce[..] == Nonce(0) && recvNonce[..] == Nonce(0);
    }

    /** What has been read is a prefix of what has been written, and no nonce was
        sealed with twice. */
    lemma {:induction false} ReadsInOrder()
      requires Valid()
      ensures received <= sent
      ensures sendCount == recvCount + |wire|
      ensures forall i, j {:trigger used[i], used[j]} :: 0 <= i < j < |used| ==> used[i] != used[j]
    {
      PrefixOfWhole(received, recvBuffer, JoinFrom(chunks, 0));
      forall i, j | 0 <= i < j < |used| ensures used[i] != used[j] {
        if used[i] == used[j] { NoncesDiffer(i, j); }
      }
    }

    /** One round of the Write loop.  At the last nonce the source panics after
        sealing: the frame is not written and the session ends. */
    method WriteChunk(chunk: Bytes)
      requires Valid() && !ended && |chunk| <= DATA_MAX_SIZE
      modifies this, sendNonce
      ensures Valid() && received == old(received) && recvBuffer == old(recvBuffer) && recvCount == old(recvCount)
      ensures ended <==> old(sendCount) == MAX_UINT64
      ensures !ended ==> sent == old(sent) + chunk && chunks == old(chunks) + [chunk]
      ensures ended ==> sent == old(sent) && chunks == old(chunks) && wire == old(wire)
    {
      var sealed := SealChunk(chunk);
      var ok := NextNonce(sendNonce, sendCount);
      if ok {
        Enqueue(sealed, chunk);
      } else {
        ended := true;
      }
    }

    /** A sealed frame goes onto the wire. */
    method Enqueue(sealed: Bytes, ghost chunk: Bytes)
      requires FramesOk() && received + recvBuffer + JoinFrom(chunks, 0) == sent
      requires IsSealed(aead, sealed, sendCount, chunk)
      modifies `wire, `sendCount, `chunks, `sent
      ensures FramesOk() && received + recvBuffer + JoinFrom(chunks, 0) == sent
      ensures sendCount == old(sendCount) + 1 && chunks == old(chunks) + [chunk] && sent == old(sent) + chunk
    {
      InFlightMore(aead, wire, recvCount, chunks, sealed, chunk);
      JoinSnoc(chunks, chunk, 0);
      Regroup(received + recvBuffer, JoinFrom(chunks, 0), chunk);
      sendCount := sendCount + 1;
      wire := wire + [sealed];
      chunks := chunks + [chunk];
      sent := sent + chunk;
    }

    /** The frame of a chunk, sealed with the current nonce. */
    method SealChunk(chunk: Bytes) returns (sealed: Bytes)
      requires Valid() && !ended && |chunk| <= DATA_MAX_SIZE
      modifies `used
      ensures IsSealed(aead, sealed, sendCount, chunk) && FirstNonces(used, sendCount + 1)
    {
      var frame := MakeFrame(chunk);
      sealed := aead.seal(sendNonce[..], frame);
      used := used + [sendNonce[..]];
    }

    /** Write: all the data in order; up to 1024 bytes go in one frame. */
    method Write(data: Bytes) returns (n: nat)
      requires Valid() && !ended
      modifies this, sendNonce
      ensures Valid() && received == old(received) && recvBuffer == old(recvBuffer)
      ensures n <= |data| && sent == old(sent) + data[..n]
      ensures !ended ==> n == |data|
      ensures ended ==> sendCount == MAX_UINT64
      ensures !ended ==> chunks == old(chunks) + ChunksOf(data)
    {
      n := 0;
      var rest := data;
      while 0 < |rest| && !ended
        invariant Valid() && received == old(received) && recvBuffer == old(recvBuffer)
        invariant n <= |data| && sent == old(sent) + data[..n] && (ended ==> sendCount == MAX_UINT64)
        invariant !ended ==> rest == data[n..] && chunks + ChunksOf(rest) == old(chunks) + ChunksOf(data)
        decreases |rest|, !ended
      {
        var k := Min(DATA_MAX_SIZE, |rest|);
        var chunk := rest[..k];
        rest := rest[k..];
        Regroup(chunks, [chunk], ChunksOf(rest));
        TakeMore(old(sent), data, n, k);
        WriteChunk(chunk);
        if !ended { n := n + k; }
      }
    }

    /** Receives and opens the next frame; neither decryption nor the length
        check can fail. */
    method ReceiveChunk() returns (r: Result<Bytes, ReadError>)
      requires Valid() && recvBuffer == []
      modifies `wire, `recvCount, `chunks, recvNonce
      ensures NoncesOk() && FramesOk()
      ensures r.Err? <==> old(wire) == []
      ensures r.Err? ==> chunks == old(chunks) && wire == old(wire)
      ensures r.Ok? ==> old(chunks) != [] && r.value == old(chunks)[0]
      ensures r.Ok? ==> chunks == old(chunks)[1..] && wire == old(wire)[1..]
    {
      if wire == [] { return Err(EndOfStream); }
      ghost var c, chunk := recvCount, chunks[0];
      var sealed := Dequeue();
      ghost var frame :| Carries(frame, chunk) && sealed == aead.seal(Nonce(c), frame);
      CarriesOne(frame, chunk);
      var plain := aead.open(recvNonce[..], sealed);
      if plain.None? { return Err(CannotDecrypt); }
      var ok := NextNonce(recvNonce, c);
      if !ok { assert false; }
      r := ParseFrame(plain.value);
    }

    /** The next sealed frame comes off the wire. */
    method Dequeue() returns (sealed: Bytes)
      requires FramesOk() && wire != []
      modifies `wire, `recvCount, `chunks
      ensures FramesOk() && IsSealed(aead, sealed, old(recvCount), old(chunks)[0])
      ensures recvCount == old(recvCount) + 1 && chunks == old(chunks)[1..] && wire == old(wire)[1..]
    {
      InFlightLess(aead, wire, recvCount, chunks);
      assert IsSealed(aead, wire[0], recvCount + 0, chunks[0]);
      sealed := wire[0];
      wire, chunks, recvCount := wire[1..], chunks[1..], recvCount + 1;
    }

    /** Read into a buffer of `k` bytes: the buffered rest of a frame, or else the
        next frame; what does not fit is buffered. */
    method Read(k: nat) returns (out: Bytes, err: Option<ReadError>)
      requires Valid()
      modifies this, recvNonce
      ensures Valid() && sent == old(sent) && sendCount == old(sendCount) && used == old(used) && ended == old(ended)
      ensures received == old(received) + out
      ensures err.Some? <==> old(recvBuffer) == [] && old(wire) == []
      ensures err.Some? ==> out == [] && recvBuffer == [] && wire == []
      ensures err.None? ==> wire == if old(recvBuffer) != [] then old(wire) else old(wire)[1..]
      ensures err.None? ==>
        var next := if old(recvBuffer) != [] then old(recvBuffer) else if old(chunks) != [] then old(chunks)[0] else [];
        |out| == Min(k, |next|) && out + recvBuffer == next
    {
      if 0 < |recvBuffer| {
        out := Deliver(recvBuffer, k);
        return out, None;
      }
      var chunk := ReceiveChunk();
      if chunk.Err? { return [], Some(chunk.error); }
      JoinFirst(received, old(chunks));
      out := Deliver(chunk.value, k);
      err := None;
    }

    /** The first `k` bytes go out, the others into the buffer. */
    method Deliver(next: Bytes, k: nat) returns (out: Bytes)
      requires NoncesOk() && FramesOk() && received + next + JoinFrom(chunks, 0) == sent
      modifies `recvBuffer, `received
      ensures Valid() && |out| == Min(k, |next|) && out + recvBuffer == next && received == old(received) + out
    {
      var n := Min(k, |next|);
      out, recvBuffer := next[..n], next[n..];
      HandOver(received, next, JoinFrom(chunks, 0), sent, n);
      received := received + out;
    }
  }

  /** Delivering the first `n` of what comes next. */
  lemma {:induction false} HandOver<T>(received: seq<T>, next: seq<T>, tail: seq<T>, sent: seq<T>, n: nat)
    requires n <= |next| && received + next + tail == sent
    ensures next[..n] + next[n..] == next && (received + next[..n]) + next[n..] + tail == sent
  {
    assert received + (next[..n] + next[n..]) == received + next[..n] + next[n..];
  }

  lemma {:induction false} PrefixOfWhole<T>(a: seq<T>, b: seq<T>, c: seq<T>)
    ensures a <= a + b + c
  {
  }

  lemma {:induction false} JoinFirst<T>(a: seq<T>, xs: seq<seq<T>>)
    requires xs != []
    ensures a + [] + JoinFrom(xs, 0) == a + xs[0] + JoinFrom(xs[1..], 0)
  {
    JoinShift(xs, 0);
  }

  /** Reading until the end, through any non-empty buffer, yields all that was
      written and not yet read. */
  method Drain(pipe: Pipe, size: nat) returns (out: Bytes)
    requires pipe.Valid() && size > 0
    modifies pipe, pipe.recvNonce
    ensures pipe.Valid() && pipe.sent == old(pipe.sent) && pipe.received == pipe.sent
    ensures old(pipe.received) + out == pipe.sent
  {
    out := [];
    while true
      invariant pipe.Valid() && pipe.sent == old(pipe.sent) && pipe.received == old(pipe.received) + out
      decreases |pipe.wire|, |pipe.recvBuffer|
    {
      var more, done := ReadOn(pipe, size);
      Regroup(old(pipe.received), out, more);
      out := out + more;
      if done { return; }
    }
  }

  /** One read, which makes progress or has nothing left to read. */
  method ReadOn(pipe: Pipe, size: nat) returns (out: Bytes, done: bool)
    requires pipe.Valid() && size > 0
    modifies pipe, pipe.recvNonce
    ensures pipe.Valid() && pipe.sent == old(pipe.sent) && pipe.received == old(pipe.received) + out
    ensures done ==> pipe.received == pipe.sent
    ensures !done ==>
      || |pipe.wire| < old(|pipe.wire|)
      || (|pipe.wire| == old(|pipe.wire|) && |pipe.recvBuffer| < old(|pipe.recvBuffer|))
  {
    var err;
    out, err := pipe.Read(size);
    done := err.Some?;
    if done { Drained(pipe); }
  }

  lemma {:induction false} Drained(pipe: Pipe)
    requires pipe.Valid() && pipe.recvBuffer == [] && pipe.wire == []
    ensures pipe.received == pipe.sent
  {
  }

  datatype Operation = Writing(data: Bytes) | Reading(size: nat)

  function DataOf(op: Operation): Bytes { if op.Writing? then op.data else [] }

  function Written(ops: seq<Operation>, n: nat): Bytes
    requires n <= |ops|
  {
    if n == 0 then [] else Written(ops, n - 1) + DataOf(ops[n - 1])
  }

  /** `sent` is all of `written`, or the part of it that went out before the end. */
  ghost predicate IsSent(sent: Bytes, written: Bytes, ended: bool) {
    sent <= written && (!ended ==> sent == written)
  }

  lemma {:induction false} SentMore(sent: Bytes, written: Bytes, ended: bool, sent': Bytes, data: Bytes, ended': bool)
    requires IsSent(sent, written, ended)
    requires if ended then ended' && sent' == sent else IsSent(sent', sent + data, ended')
    ensures IsSent(sent', written + data, ended')
  {
  }

  method Operate(pipe: Pipe, op: Operation) returns (out: Bytes)
    requires pipe.Valid()
    modifies pipe, pipe.sendNonce, pipe.recvNonce
    ensures pipe.Valid() && pipe.received == old(pipe.received) + out
    ensures if old(pipe.ended) then pipe.ended && pipe.sent == old(pipe.sent)
            else IsSent(pipe.sent, old(pipe.sent) + DataOf(op), pipe.ended)
  {
    out := [];
    match op
    case Writing(data) =>
      if !pipe.ended { var _ := pipe.Write(data); }
    case Reading(size) =>
      var err;
      out, err := pipe.Read(size);
  }

  /** Any interleaving of Writes and Reads with any buffer sizes: what is read is
      a prefix of what is written, all of which is sent unless nonces run out. */
  method Converse(aead: Aead, ops: seq<Operation>) returns (out: Bytes, pipe: Pipe)
    requires Correct(aead)
    ensures pipe.Valid() && pipe.received == out <= pipe.sent
    ensures IsSent(pipe.sent, Written(ops, |ops|), pipe.ended)
  {
    out := [];
    pipe := new Pipe(aead);
    for n := 0 to |ops|
      invariant fresh(pipe) && fresh(pipe.sendNonce) && fresh(pipe.recvNonce) && pipe.Valid() && pipe.received == out
      invariant IsSent(pipe.sent, Written(ops, n), pipe.ended)
    {
      ghost var sent, ended := pipe.sent, pipe.ended;
      var more := Operate(pipe, ops[n]);
      SentMore(sent, Written(ops, n), ended, pipe.sent, DataOf(ops[n]), pipe.ended);
      out := out + more;
    }
    pipe.ReadsInOrder();
  }
}
