/**
 The wire format (proto.go) and the receiver's framing (handler.go): what the
 getters read back from a frame, and that repeated receiving undoes sending.
 */
module Wire {
  import opened Arithmetic
  import opened Prelude

  const HEAD_LEN: nat := 16
  const MAX_METHOD_LEN: nat := 127
  const TWO_32: nat := 0x1_0000_0000
  const TWO_64: nat := 0x1_0000_0000_0000_0000

  // ------------------------------ single bits, written out on the value of a byte

  /** HeaderFlagMaskError and HeaderFlagMaskAsync in the flag byte, the two stream bits in the cmd byte. */
  datatype Mask = ErrorFlag | AsyncFlag | EofBit | LocalBit

  /** b & mask > 0. */
  predicate Bit(b: Byte, m: Mask) {
    match m
    case ErrorFlag => b % 2 == 1
    case AsyncFlag => (b / 2) % 2 == 1
    case EofBit => (b / 64) % 2 == 1
    case LocalBit => (b / 128) % 2 == 1
  }

  function Weight(m: Mask): (w: nat) {
    match m
    case ErrorFlag => 1
    case AsyncFlag => 2
    case EofBit => 64
    case LocalBit => 128
  }

  /** b | mask if on, b & ^mask if not. */
  function WithBit(b: Byte, m: Mask, on: bool): (r: Byte)
    ensures Bit(r, m) == on
  {
    if Bit(b, m) == on then b else if on then b + Weight(m) else b - Weight(m)
  }

  function Value(on: bool): (n: nat) { if on then 1 else 0 }

  /** A byte is its four named bits and the four between them. */
  lemma Digits(b: Byte)
    ensures b == Value(Bit(b, ErrorFlag)) + 2 * Value(Bit(b, AsyncFlag)) + 4 * ((b / 4) % 16) +
                 64 * Value(Bit(b, EofBit)) + 128 * Value(Bit(b, LocalBit))
  {
  }

  lemma DigitsBack(b: Byte, error: bool, async: bool, x: nat, eof: bool, local: bool)
    requires x < 16 && b == Value(error) + 2 * Value(async) + 4 * x + 64 * Value(eof) + 128 * Value(local)
    ensures Bit(b, ErrorFlag) == error && Bit(b, AsyncFlag) == async
    ensures Bit(b, EofBit) == eof && Bit(b, LocalBit) == local
  {
  }

  /** Setting one bit leaves the others. */
  lemma OtherBitsKept(b: Byte, m: Mask, on: bool, other: Mask)
    requires other != m
    ensures Bit(WithBit(b, m, on), other) == Bit(b, other)
  {
    Digits(b);
    var x, r := (b / 4) % 16, WithBit(b, m, on);
    var error, async, eof, local := Bit(b, ErrorFlag), Bit(b, AsyncFlag), Bit(b, EofBit), Bit(b, LocalBit);
    match m {
      case ErrorFlag => DigitsBack(r, on, async, x, eof, local);
      case AsyncFlag => DigitsBack(r, error, on, x, eof, local);
      case EofBit => DigitsBack(r, error, async, x, on, local);
      case LocalBit => DigitsBack(r, error, async, x, eof, on);
    }
  }

  /** b | mask if on. */
  function OrBit(b: Byte, m: Mask, on: bool): (r: Byte) { if on then WithBit(b, m, true) else b }

  // ------------------------------------------------- little-endian numbers

  function Pow256(k: nat): (p: nat)
    ensures p > 0
  {
    if k == 0 then 1 else 256 * Pow256(k - 1)
  }

  /** The low k bytes of n, least significant first: higher bytes are cut off as in uint32(l) and byte(l). */
  function LittleEndian(n: nat, k: nat): (b: Bytes)
    ensures |b| == k
  {
    if k == 0 then [] else [n % 256] + LittleEndian(n / 256, k - 1)
  }

  function Number(b: Bytes): (n: nat) {
    if b == [] then 0 else b[0] + 256 * Number(b[1..])
  }

  /** Writing k bytes and reading them back keeps the number modulo 256^k. */
  lemma {:induction false} NumberOfLittleEndian(n: nat, k: nat)
    ensures Number(LittleEndian(n, k)) == n % Pow256(k)
  {
    if k > 0 {
      NumberOfLittleEndian(n / 256, k - 1);
      assert LittleEndian(n, k)[1..] == LittleEndian(n / 256, k - 1);
      ModSplit(n, 256, Pow256(k - 1));
    }
  }

  /** Reading bytes and writing the number gives the bytes. */
  lemma {:induction false} LittleEndianOfNumber(b: Bytes)
    ensures LittleEndian(Number(b), |b|) == b
  {
    if b != [] {
      var n, low := Number(b), b[0];
      LittleEndianOfNumber(b[1..]);
      DivModUnique(n, 256, Number(b[1..]), low);
      assert LittleEndian(n, |b|) == [n % 256] + LittleEndian(n / 256, |b| - 1);
    }
  }

  lemma Powers()
    ensures Pow256(1) == 256 && Pow256(4) == TWO_32 && Pow256(8) == TWO_64
  {
    assert Pow256(2) == 0x1_0000 && Pow256(3) == 0x100_0000;
    assert Pow256(5) == 0x100_0000_0000 && Pow256(6) == 0x1_0000_0000_0000 && Pow256(7) == 0x100_0000_0000_0000;
  }

  // ------------------------------------------------------------- the layout

  /** What a sender gives newMessage, and for a Stream message the two stream bits. */
  datatype Fields = Fields(
    cmd: Byte, isLocal: bool, isEof: bool, isError: bool, isAsync: bool, seqNo: nat, name: Bytes, data: Bytes)

  function CmdByte(f: Fields): (b: Byte) { OrBit(OrBit(f.cmd, LocalBit, f.isLocal), EofBit, f.isEof) }

  function FlagByte(f: Fields): (b: Byte) { OrBit(OrBit(0, ErrorFlag, f.isError), AsyncFlag, f.isAsync) }

  function BodyLength(f: Fields): (n: nat) { |f.name| + |f.data| }

  function Attributes(f: Fields): (b: Bytes)
    ensures |b| == 4
  {
    [0, CmdByte(f), FlagByte(f), |f.name| % 256]
  }

  function Header(f: Fields): (h: Bytes)
    ensures |h| == HEAD_LEN
  {
    LittleEndian(BodyLength(f), 4) + Attributes(f) + LittleEndian(f.seqNo, 8)
  }

  function Frame(f: Fields): (b: Bytes)
    ensures |b| == HEAD_LEN + BodyLength(f)
  {
    Header(f) + f.name + f.data
  }

  function GetBodyLen(b: Bytes): (n: nat)
    requires |b| >= 4
  {
    Number(b[..4])
  }

  function GetCmd(b: Bytes): (r: Byte)
    requires |b| >= HEAD_LEN
  {
    b[5] % 64
  }

  predicate GetBit(b: Bytes, i: nat, m: Mask)
    requires i < |b|
  {
    Bit(b[i], m)
  }

  function GetMethodLen(b: Bytes): (n: nat)
    requires |b| >= HEAD_LEN
  {
    b[7]
  }

  function GetSeq(b: Bytes): (n: nat)
    requires |b| >= HEAD_LEN
  {
    Number(b[8..16])
  }

  /** Method and Data panic when the method length runs over the buffer. */
  predicate MethodFits(b: Bytes) { |b| >= HEAD_LEN && HEAD_LEN + GetMethodLen(b) <= |b| }

  function GetMethod(b: Bytes): (r: Bytes)
    requires MethodFits(b)
  {
    b[HEAD_LEN..HEAD_LEN + GetMethodLen(b)]
  }

  function GetData(b: Bytes): (r: Bytes)
    requires MethodFits(b)
  {
    b[HEAD_LEN + GetMethodLen(b)..]
  }

  /** Everything the getters of a received Message say. */
  function Read(b: Bytes): (f: Fields)
    requires MethodFits(b)
  {
    Fields(GetCmd(b), GetBit(b, 5, LocalBit), GetBit(b, 5, EofBit), GetBit(b, 6, ErrorFlag), GetBit(b, 6, AsyncFlag),
           GetSeq(b), GetMethod(b), GetData(b))
  }

  lemma HeaderParts(f: Fields)
    ensures Header(f)[..4] == LittleEndian(BodyLength(f), 4) && Header(f)[8..16] == LittleEndian(f.seqNo, 8)
    ensures Header(f)[4..8] == Attributes(f)
  {
  }

  lemma FrameParts(f: Fields)
    ensures Frame(f)[..4] == LittleEndian(BodyLength(f), 4) && Frame(f)[8..16] == LittleEndian(f.seqNo, 8)
    ensures Frame(f)[5] == CmdByte(f) && Frame(f)[6] == FlagByte(f) && Frame(f)[7] == |f.name| % 256
    ensures Frame(f)[HEAD_LEN..HEAD_LEN + |f.name|] == f.name && Frame(f)[HEAD_LEN + |f.name|..] == f.data
  {
    HeaderParts(f);
    var b := Frame(f);
    assert b[..16] == Header(f);
    assert b[..4] == b[..16][..4] && b[8..16] == b[..16][8..16];
    assert Header(f)[4..8] == b[4..8];
    assert b[4..8][1] == b[5] && b[4..8][2] == b[6] && b[4..8][3] == b[7];
  }

  // ---------------------------------------------------------- what is kept

  /** What newMessage needs of its arguments for the receiver to get them back. */
  predicate Representable(f: Fields) { f.cmd < 64 && |f.name| < 256 && f.seqNo < TWO_64 }

  lemma ByteBits(f: Fields)
    ensures CmdByte(f) % 64 == f.cmd % 64
    ensures f.cmd < 64 ==> (Bit(CmdByte(f), LocalBit) <==> f.isLocal) && (Bit(CmdByte(f), EofBit) <==> f.isEof)
    ensures (Bit(FlagByte(f), ErrorFlag) <==> f.isError) && (Bit(FlagByte(f), AsyncFlag) <==> f.isAsync)
  {
  }

  lemma MethodLenOf(f: Fields)
    ensures GetMethodLen(Frame(f)) == |f.name| % 256
  {
    FrameParts(f);
  }

  lemma SeqOf(f: Fields)
    ensures GetSeq(Frame(f)) == f.seqNo % TWO_64
  {
    FrameParts(f);
    Powers();
    NumberOfLittleEndian(f.seqNo, 8);
  }

  lemma BitsOf(f: Fields)
    ensures GetCmd(Frame(f)) == f.cmd <==> f.cmd < 64
    ensures f.cmd < 64 ==>
              (GetBit(Frame(f), 5, LocalBit) <==> f.isLocal) && (GetBit(Frame(f), 5, EofBit) <==> f.isEof)
    ensures (GetBit(Frame(f), 6, ErrorFlag) <==> f.isError) && (GetBit(Frame(f), 6, AsyncFlag) <==> f.isAsync)
  {
    FrameParts(f);
    ByteBits(f);
  }

  lemma BodyOf(f: Fields)
    requires |f.name| < 256
    ensures MethodFits(Frame(f)) && GetMethod(Frame(f)) == f.name && GetData(Frame(f)) == f.data
  {
    MethodLenOf(f);
    FrameParts(f);
  }

  lemma MethodIsShort(b: Bytes)
    requires MethodFits(b)
    ensures |GetMethod(b)| < 256
  {
  }

  lemma FieldsSurvive(f: Fields)
    requires |f.name| < 256 && MethodFits(Frame(f))
    ensures Read(Frame(f)) == f <==> Representable(f)
  {
    SeqOf(f);
    BitsOf(f);
    BodyOf(f);
  }

  /** The getters return what newMessage was given exactly when it fits the header. */
  lemma FieldsSurviveIff(f: Fields)
    ensures (MethodFits(Frame(f)) && Read(Frame(f)) == f) <==> Representable(f)
  {
    if |f.name| < 256 {
      BodyOf(f);
      FieldsSurvive(f);
    } else if MethodFits(Frame(f)) {
      MethodIsShort(Frame(f));
    }
  }

  /** The body length survives exactly below 2^32; newMessage cuts it off there. */
  lemma BodyLenSurvivesIff(f: Fields)
    ensures GetBodyLen(Frame(f)) == BodyLength(f) % TWO_32
    ensures GetBodyLen(Frame(f)) == BodyLength(f) <==> BodyLength(f) < TWO_32
  {
    FrameParts(f);
    Powers();
    NumberOfLittleEndian(BodyLength(f), 4);
  }

  /** checkMethod, on the sender's side. */
  predicate CheckMethod(name: Bytes) { 0 < |name| <= MAX_METHOD_LEN }

  /** OnMessage's check of a received, decoded Message. */
  predicate MethodLenAccepted(b: Bytes)
    requires |b| >= HEAD_LEN
  {
    0 < GetMethodLen(b) <= MAX_METHOD_LEN && GetMethodLen(b) <= |b| - HEAD_LEN
  }

  /** The receiver reads a method only inside the buffer, and drops exactly the frames the sender's check refuses. */
  lemma MethodChecksAgree(b: Bytes, f: Fields)
    ensures |b| >= HEAD_LEN && MethodLenAccepted(b) ==> MethodFits(b)
    ensures |f.name| < 256 ==> (MethodLenAccepted(Frame(f)) <==> CheckMethod(f.name))
  {
    if |f.name| < 256 {
      MethodLenOf(f);
    }
  }

  // -------------------------------------------------------------- receiving

  datatype RecvError = Eof | UnexpectedEof | InvalidLength

  /** One Recv on the bytes of the link: the Message's Buffer and the bytes left, or an error. */
  function RecvOne(s: Bytes, maxBodyLen: nat): (r: Result<(Bytes, Bytes), RecvError>) {
    if |s| == 0 then Err(Eof)
    else if |s| < 4 then Err(UnexpectedEof)
    else
      var n := GetBodyLen(s);
      if n > maxBodyLen then Err(InvalidLength)
      else if |s| == 4 then Err(Eof)
      else if |s| < HEAD_LEN + n then Err(UnexpectedEof)
      else Ok((s[..HEAD_LEN + n], s[HEAD_LEN + n..]))
  }

  predicate Sendable(f: Fields, maxBodyLen: nat) {
    Representable(f) && BodyLength(f) <= maxBodyLen && BodyLength(f) < TWO_32
  }

  function Frames(fs: seq<Fields>): (bs: seq<Bytes>)
    ensures |bs| == |fs|
    ensures forall i :: 0 <= i < |fs| ==> bs[i] == Frame(fs[i])
  {
    seq(|fs|, i requires 0 <= i < |fs| => Frame(fs[i]))
  }

  /** Whatever follows on the link, a frame is received whole and the rest is left. */
  lemma RecvUndoesSend(f: Fields, rest: Bytes, maxBodyLen: nat)
    requires BodyLength(f) < TWO_32
    ensures RecvOne(Frame(f) + rest, maxBodyLen) ==
            if BodyLength(f) <= maxBodyLen then Ok((Frame(f), rest)) else Err(InvalidLength)
  {
    var s := Frame(f) + rest;
    BodyLenSurvivesIff(f);
    assert s[..4] == Frame(f)[..4];
    assert s[..|Frame(f)|] == Frame(f) && s[|Frame(f)|..] == rest;
  }

  /** A frame cut short anywhere yields an error, never a message. */
  lemma CutFrameIsRefused(f: Fields, k: nat, maxBodyLen: nat)
    requires BodyLength(f) < TWO_32 && k < |Frame(f)|
    ensures RecvOne(Frame(f)[..k], maxBodyLen).Err?
  {
    BodyLenSurvivesIff(f);
    if k >= 4 {
      assert Frame(f)[..k][..4] == Frame(f)[..4];
    }
  }

  /** Receiving until the link is empty or a Recv fails. */
  function RecvAll(s: Bytes, maxBodyLen: nat): (r: (seq<Bytes>, RecvError))
    decreases |s|
  {
    var one := RecvOne(s, maxBodyLen);
    if one.Err? then ([], one.error)
    else
      var rest := RecvAll(one.value.1, maxBodyLen);
      ([one.value.0] + rest.0, rest.1)
  }

  lemma FirstFrame(fs: seq<Fields>, rest: Bytes, got: seq<Bytes>)
    requires fs != []
    ensures Flatten(Frames(fs)) + rest == Frame(fs[0]) + (Flatten(Frames(fs[1..])) + rest)
    ensures Frames(fs) + got == [Frame(fs[0])] + (Frames(fs[1..]) + got)
  {
    assert Frames(fs)[1..] == Frames(fs[1..]);
  }

  lemma OneFrameFirst(f: Fields, s: Bytes, rest: Bytes, maxBodyLen: nat, got: seq<Bytes>, end: RecvError)
    requires Sendable(f, maxBodyLen) && s == Frame(f) + rest && RecvAll(rest, maxBodyLen) == (got, end)
    ensures RecvAll(s, maxBodyLen) == ([Frame(f)] + got, end)
  {
    RecvUndoesSend(f, rest, maxBodyLen);
  }

  /** Frames that arrive whole are received, whatever comes after them. */
  lemma {:induction false} WholeFramesFirst(
    fs: seq<Fields>, rest: Bytes, maxBodyLen: nat, got: seq<Bytes>, end: RecvError)
    requires forall i :: 0 <= i < |fs| ==> Sendable(fs[i], maxBodyLen)
    requires RecvAll(rest, maxBodyLen) == (got, end)
    ensures RecvAll(Flatten(Frames(fs)) + rest, maxBodyLen) == (Frames(fs) + got, end)
  {
    if fs == [] {
      assert Flatten(Frames(fs)) + rest == rest && Frames(fs) + got == got;
    } else {
      var tail := Flatten(Frames(fs[1..])) + rest;
      WholeFramesFirst(fs[1..], rest, maxBodyLen, got, end);
      FirstFrame(fs, rest, got);
      OneFrameFirst(fs[0], Flatten(Frames(fs)) + rest, tail, maxBodyLen, Frames(fs[1..]) + got, end);
    }
  }

  /**
   However the frames of a list of messages are grouped into writes, receiving
   yields exactly those frames and ends at a clean end of input.
   */
  lemma RecvAllUndoesSend(fs: seq<Fields>, writes: seq<Bytes>, maxBodyLen: nat)
    requires forall i :: 0 <= i < |fs| ==> Sendable(fs[i], maxBodyLen)
    requires Flatten(writes) == Flatten(Frames(fs))
    ensures RecvAll(Flatten(writes), maxBodyLen) == (Frames(fs), Eof)
  {
    WholeFramesFirst(fs, [], maxBodyLen, [], Eof);
    assert Flatten(Frames(fs)) + [] == Flatten(Frames(fs)) && Frames(fs) + [] == Frames(fs);
  }

  /** And the getters of what is received give back what was sent. */
  lemma ReceivedFieldsAreSent(fs: seq<Fields>, writes: seq<Bytes>, maxBodyLen: nat, i: nat)
    requires forall i :: 0 <= i < |fs| ==> Sendable(fs[i], maxBodyLen)
    requires Flatten(writes) == Flatten(Frames(fs)) && i < |fs|
    ensures var got := RecvAll(Flatten(writes), maxBodyLen).0;
            i < |got| && MethodFits(got[i]) && Read(got[i]) == fs[i]
  {
    RecvAllUndoesSend(fs, writes, maxBodyLen);
    FieldsSurviveIff(fs[i]);
  }

  /** A relay that sends on the Buffers it received puts the same bytes on the wire. */
  lemma {:induction false} RelayIsTransparent(s: Bytes, maxBodyLen: nat)
    ensures Flatten(RecvAll(s, maxBodyLen).0) <= s
    ensures RecvAll(s, maxBodyLen).1 == Eof ==> |s| - |Flatten(RecvAll(s, maxBodyLen).0)| in {0, 4}
    decreases |s|
  {
    var one := RecvOne(s, maxBodyLen);
    if one.Ok? {
      RelayIsTransparent(one.value.1, maxBodyLen);
      var rest := RecvAll(one.value.1, maxBodyLen).0;
      assert s == one.value.0 + one.value.1;
      assert ([one.value.0] + rest)[1..] == rest;
      assert Flatten([one.value.0] + rest) == one.value.0 + Flatten(rest);
    }
  }
}
