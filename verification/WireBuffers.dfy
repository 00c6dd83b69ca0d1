/**
 Building and receiving messages in buffers (proto.go, handler.go). The buffers
 come from a pool: whatever bytes they held, the frame that leaves is Frame of
 the arguments, and the frame that is received is what the link carried.
 */
module WireBuffers {
  import opened Prelude
  import opened Wire

  /** b with p written over it from off on. */
  function Patch(b: Bytes, off: nat, p: Bytes): (r: Bytes)
    requires off + |p| <= |b|
    ensures |r| == |b|
    ensures forall i {:trigger r[i]} :: 0 <= i < |b| ==> r[i] == if off <= i < off + |p| then p[i - off] else b[i]
  {
    b[..off] + p + b[off + |p|..]
  }

  /** copy(dst[off:], src) for a src that fits. */
  method Copy(dst: array<Byte>, off: nat, src: Bytes)
    requires off + |src| <= dst.Length
    modifies dst
    ensures dst[..] == Patch(old(dst[..]), off, src)
  {
    var i := 0;
    while i < |src|
      invariant 0 <= i <= |src|
      invariant forall j :: 0 <= j < dst.Length ==> dst[j] == if off <= j < off + i then src[j - off] else old(dst[j])
    {
      dst[off + i] := src[i];
      i := i + 1;
    }
  }

  /** PutUint32 and PutUint64: k bytes, least significant first. */
  method PutNumber(dst: array<Byte>, off: nat, n: nat, k: nat)
    requires off + k <= dst.Length
    modifies dst
    ensures dst[..] == Patch(old(dst[..]), off, LittleEndian(n, k))
  {
    ghost var all := LittleEndian(n, k);
    var i, m := 0, n;
    while i < k
      invariant 0 <= i <= k && LittleEndian(m, k - i) == all[i..]
      invariant forall j :: 0 <= j < dst.Length ==> dst[j] == if off <= j < off + i then all[j - off] else old(dst[j])
    {
      assert all[i..][0] == all[i] && all[i..][1..] == all[i + 1..];
      assert LittleEndian(m, k - i)[1..] == LittleEndian(m / 256, k - i - 1);
      dst[off + i] := m % 256;
      m := m / 256;
      i := i + 1;
    }
  }

  /** The bytes of a header field written by a setter. */
  method SetByte(dst: array<Byte>, i: nat, v: Byte)
    requires i < dst.Length
    modifies dst
    ensures dst[..] == old(dst[..])[i := v]
  {
    dst[i] := v;
  }

  /** (b & HeaderStreamFlagBitMask) | cmd. */
  function WithCmd(b: Byte, cmd: Byte): (r: Byte) {
    OrBit(OrBit(cmd, LocalBit, Bit(b, LocalBit)), EofBit, Bit(b, EofBit))
  }

  /** A cmd below 64 reads back, and the stream bits stay. */
  lemma CmdReadsBack(b: Byte, cmd: Byte)
    requires cmd < 64
    ensures WithCmd(b, cmd) % 64 == cmd
    ensures Bit(WithCmd(b, cmd), LocalBit) == Bit(b, LocalBit) && Bit(WithCmd(b, cmd), EofBit) == Bit(b, EofBit)
  {
    var r := OrBit(cmd, LocalBit, Bit(b, LocalBit));
    OtherBitsKept(cmd, LocalBit, true, EofBit);
    OtherBitsKept(r, EofBit, true, LocalBit);
  }

  class Message {
    var buffer: array<Byte>
    var body: array?<Byte>        // the data kept apart, on the writev path
    var bodyPooled: bool

    constructor(buffer: array<Byte>)
      ensures this.buffer == buffer && body == null && !bodyPooled
    {
      this.buffer, body, bodyPooled := buffer, null, false;
    }

    method ResetAttrs()
      requires buffer.Length >= HEAD_LEN
      modifies buffer
      ensures buffer[..] == Patch(old(buffer[..]), 4, [0, 0, 0, 0])
    {
      PutNumber(buffer, 4, 0, 4);
      assert LittleEndian(0, 4) == [0, 0, 0, 0] by {
        assert LittleEndian(0, 1) == [0] && LittleEndian(0, 2) == [0, 0] && LittleEndian(0, 3) == [0, 0, 0];
      }
    }

    method SetCmd(cmd: Byte)
      requires buffer.Length >= HEAD_LEN
      modifies buffer
      ensures buffer[..] == old(buffer[..])[5 := WithCmd(old(buffer[5]), cmd)]
      ensures cmd < 64 ==> buffer[5] % 64 == cmd
      ensures cmd < 64 ==> forall m :: m in {LocalBit, EofBit} ==> Bit(buffer[5], m) == Bit(old(buffer[5]), m)
    {
      if cmd < 64 { CmdReadsBack(buffer[5], cmd); }
      SetByte(buffer, 5, WithCmd(buffer[5], cmd));
    }

    /** SetStreamLocal, SetStreamEOF, SetError and SetAsync: one bit of byte i. */
    method SetBit(i: nat, m: Mask, on: bool)
      requires i < buffer.Length
      modifies buffer
      ensures buffer[..] == old(buffer[..])[i := WithBit(old(buffer[i]), m, on)]
      ensures Bit(buffer[i], m) == on && forall k :: k != m ==> Bit(buffer[i], k) == Bit(old(buffer[i]), k)
    {
      forall k | k != m ensures Bit(WithBit(buffer[i], m, on), k) == Bit(buffer[i], k) {
        OtherBitsKept(buffer[i], m, on, k);
      }
      SetByte(buffer, i, WithBit(buffer[i], m, on));
    }

    /** ResetAttrs and the setters of newMessage on the four attribute bytes. */
    method FillAttributes(f: Fields)
      requires buffer.Length >= HEAD_LEN && !f.isLocal && !f.isEof
      modifies buffer
      ensures buffer[..] == Patch(old(buffer[..]), 4, Attributes(f))
    {
      ResetAttrs();
      SetCmd(f.cmd);
      SetBit(6, ErrorFlag, f.isError);
      SetBit(6, AsyncFlag, f.isAsync);
      SetByte(buffer, 7, |f.name| % 256);
      AttributeBits(f);
      AttributePatches(old(buffer[..]), f);
    }

    /** The writes that newMessage and newWritevMessage share. */
    method FillHeader(f: Fields)
      requires buffer.Length >= HEAD_LEN + |f.name| && !f.isLocal && !f.isEof
      modifies buffer
      ensures buffer[..] == Patch(Patch(old(buffer[..]), 0, Header(f)), HEAD_LEN, f.name)
    {
      FillAttributes(f);
      PutNumber(buffer, 0, BodyLength(f), 4);
      PutNumber(buffer, 8, f.seqNo, 8);
      HeaderIsPatches(old(buffer[..]), f);
      Copy(buffer, HEAD_LEN, f.name);
    }

    /** newMessage in a buffer from Malloc: its old bytes do not matter. */
    method NewMessage(f: Fields)
      requires buffer.Length == HEAD_LEN + BodyLength(f) && !f.isLocal && !f.isEof
      modifies buffer
      ensures buffer[..] == Frame(f)
    {
      FillHeader(f);
      Copy(buffer, HEAD_LEN + |f.name|, f.data);
      FrameIsPatches(old(buffer[..]), f);
    }

    /** What Stream.send adds to a CmdStream message. */
    method SetStreamBits(f: Fields, isLocal: bool, isEof: bool)
      requires buffer[..] == Frame(f) && !f.isLocal && !f.isEof && f.cmd < 64
      modifies buffer
      ensures buffer[..] == Frame(f.(isLocal := isLocal, isEof := isEof))
    {
      SetBit(5, LocalBit, isLocal);
      SetBit(5, EofBit, isEof);
      StreamBits(old(buffer[..]), f, isLocal, isEof);
    }

    /**
     newWritevMessage: the data stay apart. Data the caller may still change are
     copied into pooled, a buffer from Malloc; data nobody changes are kept.
     */
    method NewWritevMessage(f: Fields, data: array<Byte>, owned: bool, pooled: array<Byte>)
      requires buffer.Length == HEAD_LEN + |f.name| && !f.isLocal && !f.isEof
      requires data[..] == f.data && pooled.Length == data.Length
      requires buffer != data && pooled != data && pooled != buffer
      modifies this, buffer, pooled
      ensures buffer == old(buffer) && OnWire() == Frame(f)
      ensures body != null && body == data ==> owned
      ensures data[..] == f.data
      ensures bodyPooled <==> body != null && body == pooled
    {
      FillHeader(f);
      HeadIsPatches(old(buffer[..]), f);
      if data.Length == 0 {
        body, bodyPooled := null, false;
      } else if owned {
        body, bodyPooled := data, false;
      } else {
        Copy(pooled, 0, data[..]);
        body, bodyPooled := pooled, true;
      }
    }

    /** The bytes the writev path writes: Buffer, then body. */
    ghost function OnWire(): (b: Bytes)
      reads this, buffer, body
    {
      buffer[..] + (if body == null then [] else body[..])
    }
  }

  lemma AttributeBits(f: Fields)
    requires !f.isLocal && !f.isEof
    ensures WithCmd(0, f.cmd) == CmdByte(f)
    ensures WithBit(WithBit(0, ErrorFlag, f.isError), AsyncFlag, f.isAsync) == FlagByte(f)
  {
  }

  lemma AttributePatches(b: Bytes, f: Fields)
    requires |b| >= HEAD_LEN
    ensures Patch(b, 4, [0, 0, 0, 0])[5 := CmdByte(f)][6 := FlagByte(f)][7 := |f.name| % 256] ==
            Patch(b, 4, Attributes(f))
  {
  }

  lemma CmdBits(f: Fields, isLocal: bool, isEof: bool)
    requires !f.isLocal && !f.isEof && f.cmd < 64
    ensures WithBit(WithBit(CmdByte(f), LocalBit, isLocal), EofBit, isEof) ==
            CmdByte(f.(isLocal := isLocal, isEof := isEof))
  {
  }

  lemma HeaderIsPatches(b: Bytes, f: Fields)
    requires |b| >= HEAD_LEN
    ensures Patch(Patch(Patch(b, 4, Attributes(f)), 0, LittleEndian(BodyLength(f), 4)), 8, LittleEndian(f.seqNo, 8)) ==
            Patch(b, 0, Header(f))
  {
  }

  lemma HeadIsPatches(b: Bytes, f: Fields)
    requires |b| == HEAD_LEN + |f.name|
    ensures Patch(Patch(b, 0, Header(f)), HEAD_LEN, f.name) == Header(f) + f.name
  {
  }

  lemma FrameIsPatches(b: Bytes, f: Fields)
    requires |b| == HEAD_LEN + BodyLength(f)
    ensures Patch(Patch(Patch(b, 0, Header(f)), HEAD_LEN, f.name), HEAD_LEN + |f.name|, f.data) == Frame(f)
  {
  }

  lemma StreamBits(b: Bytes, f: Fields, isLocal: bool, isEof: bool)
    requires b == Frame(f) && !f.isLocal && !f.isEof && f.cmd < 64
    ensures var one := b[5 := WithBit(b[5], LocalBit, isLocal)];
            one[5 := WithBit(one[5], EofBit, isEof)] == Frame(f.(isLocal := isLocal, isEof := isEof))
  {
    FrameParts(f);
    CmdBits(f, isLocal, isEof);
    OtherCmd(f, isLocal, isEof);
  }

  lemma OtherCmd(f: Fields, isLocal: bool, isEof: bool)
    ensures var g := f.(isLocal := isLocal, isEof := isEof); Frame(g) == Frame(f)[5 := CmdByte(g)]
  {
    var g := f.(isLocal := isLocal, isEof := isEof);
    var c := CmdByte(g);
    assert Attributes(g) == Attributes(f)[1 := c];
    assert Header(g) == Header(f)[5 := c];
    assert (Header(f) + f.name + f.data)[5 := c] == Header(f)[5 := c] + f.name + f.data;
  }

  // -------------------------------------------------------------- receiving

  lemma OneMore(all: Bytes, i: nat, b: Bytes, rest: Bytes)
    requires i <= |all| && all[i..] == b + rest
    ensures i + |b| <= |all| && all[..i + |b|] == all[..i] + b && all[i + |b|..] == rest
  {
    assert |all| == i + |b| + |rest|;
    assert all[i..][..|b|] == b && all[i..][|b|..] == rest;
  }

  lemma PatchedSlices(was: Bytes, from: nat, got: nat, b: Bytes)
    requires from <= got <= got + |b| <= |was|
    ensures Patch(was, got, b)[from..got + |b|] == was[from..got] + b && Patch(was, got, b)[..from] == was[..from]
  {
  }

  /** A conn: the bytes still to come, in the pieces in which Read will return them. */
  class Conn {
    var pieces: seq<Bytes>

    constructor(pieces: seq<Bytes>)
      ensures this.pieces == pieces
    {
      this.pieces := pieces;
    }

    ghost function Left(): (b: Bytes)
      reads this
    {
      Flatten(pieces)
    }

    /** One Read of at most n bytes; done means the end of input. */
    method Read(n: nat) returns (b: Bytes, done: bool)
      requires n > 0
      modifies this
      ensures done ==> b == [] && old(pieces) == [] && pieces == []
      ensures !done ==> |b| <= n && old(Left()) == b + Left() && Smaller(pieces, old(pieces))
    {
      if pieces == [] {
        return [], true;
      }
      var p := pieces[0];
      done := false;
      if |p| <= n {
        b, pieces := p, pieces[1..];
      } else {
        b, pieces := p[..n], [p[n..]] + pieces[1..];
        assert pieces[1..] == old(pieces)[1..];
        assert p == p[..n] + p[n..];
        assert (p[..n] + p[n..]) + Flatten(pieces[1..]) == p[..n] + (p[n..] + Flatten(pieces[1..]));
      }
    }

    /** io.ReadFull into dst[from..]: it reads until the slice is full or the input ends. */
    method ReadFull(dst: array<Byte>, from: nat) returns (err: Option<RecvError>)
      requires from <= dst.Length
      modifies this, dst
      ensures var n := dst.Length - from; var all := old(Left());
              && (err.None? <==> |all| >= n)
              && (err == Some(Eof) <==> n > 0 && all == [])
              && (err.Some? ==> err.value == Eof || err.value == UnexpectedEof)
              && (err.None? ==> dst[from..] == all[..n] && Left() == all[n..] && dst[..from] == old(dst[..from]))
    {
      var got := from;
      ghost var all := old(Left());
      while got < dst.Length
        invariant from <= got <= dst.Length && got - from <= |all|
        invariant Left() == all[got - from..] && dst[from..got] == all[..got - from] && dst[..from] == old(dst[..from])
        decreases |pieces|, if pieces == [] then 0 else |pieces[0]|
      {
        var b, done := Read(dst.Length - got);
        if done {
          return if got == from then Some(Eof) else Some(UnexpectedEof);
        }
        OneMore(all, got - from, b, Left());
        PatchedSlices(dst[..], from, got, b);
        Copy(dst, got, b);
        got := got + |b|;
      }
      return None;
    }
  }

  /** Reading a piece makes the list shorter, or its head. */
  ghost predicate Smaller(now: seq<Bytes>, was: seq<Bytes>) {
    |now| < |was| || (|now| == |was| > 0 && |now[0]| < |was[0]|)
  }

  /** The first read of Recv, and Header.message's check of the length. */
  method RecvLength(conn: Conn, maxBodyLen: nat) returns (r: Result<nat, RecvError>)
    modifies conn
    ensures var all := old(conn.Left());
            && (r.Ok? <==> |all| >= 4 && GetBodyLen(all) <= maxBodyLen)
            && (r.Ok? ==> r.value == GetBodyLen(all) && conn.Left() == all[4..])
            && (|all| == 0 ==> r == Err(Eof)) && (0 < |all| < 4 ==> r == Err(UnexpectedEof))
            && (|all| >= 4 && GetBodyLen(all) > maxBodyLen ==> r == Err(InvalidLength))
  {
    ghost var all := conn.Left();
    var head := new Byte[4];
    var err := conn.ReadFull(head, 0);
    if err.Some? {
      return Err(err.value);
    }
    assert head[0..] == head[..] == all[..4];
    var n := Number(head[..]);
    if n > maxBodyLen {
      return Err(InvalidLength);
    }
    return Ok(n);
  }

  /** The rest of Recv: a pooled buffer with the length written back into it, filled from the conn. */
  method RecvRest(conn: Conn, n: nat) returns (r: Result<array<Byte>, RecvError>)
    modifies conn
    ensures var left := old(conn.Left());
            && (r.Ok? <==> |left| >= HEAD_LEN + n - 4)
            && (r.Ok? ==> fresh(r.value) && r.value[..] == LittleEndian(n, 4) + left[..HEAD_LEN + n - 4])
            && (r.Ok? ==> conn.Left() == left[HEAD_LEN + n - 4..])
            && (r.Err? ==> r.error == if left == [] then Eof else UnexpectedEof)
  {
    var buffer := new Byte[HEAD_LEN + n];
    PutNumber(buffer, 0, n, 4);
    assert buffer[..4] == LittleEndian(n, 4);
    var err := conn.ReadFull(buffer, 4);
    if err.Some? {
      return Err(err.value);
    }
    assert buffer[..] == buffer[..4] + buffer[4..];
    return Ok(buffer);
  }

  lemma TwoReads(all: Bytes, n: nat)
    requires |all| >= 4 && n == GetBodyLen(all)
    ensures |all| >= HEAD_LEN + n ==> LittleEndian(n, 4) + all[4..][..HEAD_LEN + n - 4] == all[..HEAD_LEN + n]
    ensures |all| >= HEAD_LEN + n ==> all[4..][HEAD_LEN + n - 4..] == all[HEAD_LEN + n..]
  {
    LittleEndianOfNumber(all[..4]);
  }

  /** Header.message and handler.Recv. */
  method Recv(conn: Conn, maxBodyLen: nat) returns (r: Result<array<Byte>, RecvError>)
    modifies conn
    ensures var one := RecvOne(old(conn.Left()), maxBodyLen);
            && (one.Err? ==> r == Err(one.error))
            && (one.Ok? ==> r.Ok? && fresh(r.value) && r.value[..] == one.value.0 && conn.Left() == one.value.1)
  {
    ghost var all := conn.Left();
    var n := RecvLength(conn, maxBodyLen);
    if n.Err? {
      return Err(n.error);
    }
    TwoReads(all, n.value);
    r := RecvRest(conn, n.value);
  }

  /** recvLoop's reading: what it dispatches is RecvAll of the bytes on the link, however Read cuts them up. */
  method RecvLoop(conn: Conn, maxBodyLen: nat) returns (msgs: seq<Bytes>, err: RecvError)
    modifies conn
    ensures (msgs, err) == RecvAll(old(conn.Left()), maxBodyLen)
  {
    ghost var all := conn.Left();
    msgs := [];
    assert [] + RecvAll(all, maxBodyLen).0 == RecvAll(all, maxBodyLen).0;
    while true
      invariant RecvAll(all, maxBodyLen) == Prepend(msgs, RecvAll(conn.Left(), maxBodyLen))
      decreases |conn.Left()|
    {
      ghost var left := conn.Left();
      var r := Recv(conn, maxBodyLen);
      if r.Err? {
        assert msgs + [] == msgs;
        return msgs, r.error;
      }
      var m := r.value[..];
      assert msgs + ([m] + RecvAll(conn.Left(), maxBodyLen).0) == (msgs + [m]) + RecvAll(conn.Left(), maxBodyLen).0;
      msgs := msgs + [m];
    }
  }

  ghost function Prepend(ms: seq<Bytes>, r: (seq<Bytes>, RecvError)): (p: (seq<Bytes>, RecvError)) { (ms + r.0, r.1) }
}
