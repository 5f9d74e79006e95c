/** The wire format: request frames `[1 type length][type][4 body length][body]` and response
    frames `[1 status][4 body length][body]`, lengths big-endian. */
module ProtocolSerializer {
  import opened Common
  import opened Keys
  import opened Utf8

  const TYPE_LIMIT := 256
  const BODY_LIMIT := 0x1_0000_0000

  datatype Request = Request(namespace: string, requestType: string, body: seq<byte>)

  datatype Response = Response(status: byte, body: seq<byte>)

  datatype ProtocolError = EndOfStream | BadType

  function KeyOf(r: Request): string {
    Key(r.namespace, r.requestType)
  }

  /** What reaches the other side of a faithful transfer: the same key and body, cut at the first colon. */
  function Recut(r: Request): Request {
    SplitOfKey(r.namespace, r.requestType);
    var parts := SplitKey(KeyOf(r)).value;
    Request(parts.0, parts.1, r.body)
  }

  /** The limits of the format: an ASCII type that fits one length byte, a body that fits four. */
  ghost predicate InLimits(r: Request) {
    IsAscii(KeyOf(r)) && |KeyOf(r)| < TYPE_LIMIT && |r.body| < BODY_LIMIT
  }

  /// ## Encoding

  /** One byte a character, `?` for whatever is not ASCII. */
  function AsciiBytes(s: string): (b: seq<byte>)
    ensures |b| == |s|
  {
    seq(|s|, i requires 0 <= i < |s| => if s[i] as int < 128 then s[i] as int else '?' as int)
  }

  /** Big-endian form of the low 32 bits of a length. */
  function U32Bytes(n: nat): (b: seq<byte>)
    ensures |b| == 4
  {
    [n / 0x100_0000 % 256, n / 0x1_0000 % 256, n / 256 % 256, n % 256]
  }

  function U32Value(b: seq<byte>): nat
    requires |b| == 4
  {
    b[0] as int * 0x100_0000 + b[1] as int * 0x1_0000 + b[2] as int * 256 + b[3] as int
  }

  /** Big-endian numbers of any length. */
  function BigEndian(b: seq<byte>): nat {
    if b == [] then 0 else BigEndian(b[..|b| - 1]) * 256 + b[|b| - 1] as nat
  }

  lemma U32IsBigEndian(b: seq<byte>)
    requires |b| == 4
    ensures U32Value(b) == BigEndian(b)
  {
    assert b[..3][..2] == b[..2] && b[..2][..1] == b[..1] && b[..1][..0] == [];
    assert BigEndian(b[..1]) == b[0] as nat;
    assert BigEndian(b[..2]) == b[0] as nat * 256 + b[1] as nat;
  }

  function EncodeRequest(r: Request): seq<byte> {
    [|KeyOf(r)| % TYPE_LIMIT] + AsciiBytes(KeyOf(r)) + U32Bytes(|r.body|) + r.body
  }

  function EncodeResponse(r: Response): seq<byte> {
    [r.status] + U32Bytes(|r.body|) + r.body
  }

  method SerializeRequest(req: Request) returns (buf: seq<byte>)
    ensures buf == EncodeRequest(req)
  {
    var typeBytes := AsciiBytes(KeyOf(req));
    buf := [|typeBytes| % TYPE_LIMIT];
    buf := buf + typeBytes;
    buf := buf + U32Bytes(|req.body|);
    buf := buf + req.body;
  }

  method SerializeResponse(resp: Response) returns (buf: seq<byte>)
    ensures buf == EncodeResponse(resp)
  {
    buf := [resp.status];
    buf := buf + U32Bytes(|resp.body|);
    buf := buf + resp.body;
  }

  /// ## Decoding

  /** What a byte string says when read as a frame: more bytes are needed, the frame of `used` bytes
      is complete but its type has no colon, or it is complete and holds a value. */
  datatype Decoded<+T> = Incomplete | Malformed(used: nat) | Complete(value: T, used: nat)

  /** A complete frame's value: its type is cut at the first colon. */
  function Assemble(typeBytes: seq<byte>, body: seq<byte>, used: nat): (d: Decoded<Request>)
    ensures !d.Incomplete? && d.used == used
  {
    match SplitKey(Lossy(typeBytes))
    case None => Malformed(used)
    case Some((namespace, requestType)) => Complete(Request(namespace, requestType, body), used)
  }

  function DecodeRequest(b: seq<byte>): (d: Decoded<Request>)
    ensures !d.Incomplete? ==> 5 <= d.used <= |b|
  {
    if |b| < 1 || |b| < 5 + b[0] as int then Incomplete else
      var n := b[0] as int;
      var total := 5 + n + U32Value(b[1 + n..5 + n]);
      if |b| < total then Incomplete else
        Assemble(b[1..1 + n], b[5 + n..total], total)
  }

  function DecodeResponse(b: seq<byte>): (d: Decoded<Response>)
    ensures !d.Incomplete? ==> 5 <= d.used <= |b|
  {
    if |b| < 5 then Incomplete else
      var total := 5 + U32Value(b[1..5]);
      if |b| < total then Incomplete else Complete(Response(b[0], b[5..total]), total)
  }

  /** The result the parsers report for a decoding. */
  function Outcome<T>(d: Decoded<T>): Result<T, ProtocolError> {
    match d
    case Incomplete => Err(EndOfStream)
    case Malformed(_) => Err(BadType)
    case Complete(value, _) => Ok(value)
  }

  /** Bytes of `b` a parser has used up when it stops: the frame, or everything at a premature end. */
  function Consumed<T>(d: Decoded<T>, b: seq<byte>): (n: nat) {
    if d.Incomplete? then |b| else d.used
  }

  lemma SlicesOfRest(b: seq<byte>, n: nat, k: nat)
    requires n + k <= |b|
    ensures b[n..][..k] == b[n..n + k] && b[n..][k..] == b[n + k..]
  {
  }

  /** What a parser reports for `b`, and what it leaves unread. */
  ghost predicate Parses(b: seq<byte>, r: Result<Request, ProtocolError>, unread: seq<byte>) {
    r == Outcome(DecodeRequest(b)) && unread == b[Consumed(DecodeRequest(b), b)..]
  }

  lemma EndBeforeBody(b: seq<byte>)
    requires |b| < 1 || |b| < 5 + b[0] as int
    ensures Parses(b, Err(EndOfStream), [])
  {
  }

  /** The decoding of bytes whose type and body length have been read, and what is left behind them. */
  lemma RequestParts(b: seq<byte>, typeBytes: seq<byte>, bodyLen: nat, left: seq<byte>)
    requires |b| >= 5 + |typeBytes| && b[0] as int == |typeBytes| && typeBytes == b[1..1 + |typeBytes|]
    requires bodyLen == U32Value(b[1 + |typeBytes|..5 + |typeBytes|]) && left == b[5 + |typeBytes|..]
    ensures |left| < bodyLen ==> Parses(b, Err(EndOfStream), [])
    ensures |left| >= bodyLen ==>
              && DecodeRequest(b) == Assemble(typeBytes, left[..bodyLen], 5 + |typeBytes| + bodyLen)
              && Parses(b, Outcome(Assemble(typeBytes, left[..bodyLen], 5 + |typeBytes| + bodyLen)), left[bodyLen..])
  {
    if |left| >= bodyLen {
      SlicesOfRest(b, 5 + |typeBytes|, bodyLen);
    }
  }

  /** A parse position in a complete buffer: the `bytes` and `&mut offset` of `read_exact`. */
  class Cursor {
    const bytes: seq<byte>
    var offset: nat

    constructor (bytes: seq<byte>)
      ensures this.bytes == bytes && offset == 0
    {
      this.bytes := bytes;
      offset := 0;
    }

    method ReadExact(count: nat) returns (r: Result<seq<byte>, ProtocolError>)
      requires offset <= |bytes|
      modifies this
      ensures r.Ok? <==> count <= |bytes| - old(offset)
      ensures r.Ok? ==> offset == old(offset) + count && r.value == bytes[old(offset)..offset]
      ensures r.Err? ==> offset == old(offset) && r.error == EndOfStream
    {
      if count == 0 {
        return Ok([]);
      }
      var remaining := |bytes| - offset;
      if remaining < count {
        return Err(EndOfStream);
      }
      r := Ok(bytes[offset..offset + count]);
      offset := offset + count;
    }
  }

  method ParseRequest(bytes: seq<byte>) returns (r: Result<Request, ProtocolError>)
    ensures r == Outcome(DecodeRequest(bytes))
  {
    var cursor := new Cursor(bytes);
    var one := cursor.ReadExact(1);
    if one.Err? { return Err(one.error); }
    var typeLen: nat := one.value[0];
    var typeBytes := cursor.ReadExact(typeLen);
    if typeBytes.Err? { return Err(typeBytes.error); }
    assert typeBytes.value == bytes[1..1 + typeLen] && cursor.offset == 1 + typeLen;
    var typeStr := Lossy(typeBytes.value);
    var lenBuf := cursor.ReadExact(4);
    if lenBuf.Err? { return Err(lenBuf.error); }
    assert lenBuf.value == bytes[1 + typeLen..5 + typeLen] && cursor.offset == 5 + typeLen;
    var bodyLen := U32Value(lenBuf.value);
    var body := cursor.ReadExact(bodyLen);
    RequestParts(bytes, typeBytes.value, bodyLen, bytes[5 + typeLen..]);
    if body.Err? { return Err(body.error); }
    assert body.value == bytes[5 + typeLen..][..bodyLen];
    match SplitKey(typeStr)
    case None => return Err(BadType);
    case Some((namespace, requestType)) => return Ok(Request(namespace, requestType, body.value));
  }

  method ParseResponse(bytes: seq<byte>) returns (r: Result<Response, ProtocolError>)
    ensures r == Outcome(DecodeResponse(bytes))
  {
    var cursor := new Cursor(bytes);
    var status := cursor.ReadExact(1);
    if status.Err? { return Err(status.error); }
    var lenBuf := cursor.ReadExact(4);
    if lenBuf.Err? { return Err(lenBuf.error); }
    var body := cursor.ReadExact(U32Value(lenBuf.value));
    if body.Err? { return Err(body.error); }
    return Ok(Response(status.value[0], body.value));
  }

  /** A byte stream that ends after `pending`. */
  class ByteStream {
    var pending: seq<byte>

    constructor (bytes: seq<byte>)
      ensures pending == bytes
    {
      pending := bytes;
    }

    /** Reads all of `count` bytes, or runs the stream dry and fails. */
    method ReadExact(count: nat) returns (r: Result<seq<byte>, ProtocolError>)
      modifies this
      ensures r.Ok? <==> count <= |old(pending)|
      ensures r.Ok? ==> r.value == old(pending)[..count] && pending == old(pending)[count..]
      ensures r.Err? ==> pending == [] && r.error == EndOfStream
    {
      if count == 0 {
        return Ok([]);
      }
      if |pending| < count {
        pending := [];
        return Err(EndOfStream);
      }
      r := Ok(pending[..count]);
      pending := pending[count..];
    }
  }

  method DeserializeRequest(stream: ByteStream) returns (r: Result<Request, ProtocolError>)
    modifies stream
    ensures r == Outcome(DecodeRequest(old(stream.pending)))
    ensures stream.pending == old(stream.pending)[Consumed(DecodeRequest(old(stream.pending)), old(stream.pending))..]
  {
    ghost var b := stream.pending;
    var one := stream.ReadExact(1);
    if one.Err? { EndBeforeBody(b); return Err(one.error); }
    var typeLen: nat := one.value[0];
    var typeBytes := stream.ReadExact(typeLen);
    if typeBytes.Err? { EndBeforeBody(b); return Err(typeBytes.error); }
    assert typeBytes.value == b[1..1 + typeLen] && stream.pending == b[1 + typeLen..];
    var typeStr := Lossy(typeBytes.value);
    var lenBuf := stream.ReadExact(4);
    if lenBuf.Err? { EndBeforeBody(b); return Err(lenBuf.error); }
    assert lenBuf.value == b[1 + typeLen..5 + typeLen] && stream.pending == b[5 + typeLen..];
    var bodyLen := U32Value(lenBuf.value);
    var body := stream.ReadExact(bodyLen);
    RequestParts(b, typeBytes.value, bodyLen, b[5 + typeLen..]);
    if body.Err? { return Err(body.error); }
    match SplitKey(typeStr)
    case None => return Err(BadType);
    case Some((namespace, requestType)) => return Ok(Request(namespace, requestType, body.value));
  }

  method DeserializeResponse(stream: ByteStream) returns (r: Result<Response, ProtocolError>)
    modifies stream
    ensures r == Outcome(DecodeResponse(old(stream.pending)))
    ensures stream.pending == old(stream.pending)[Consumed(DecodeResponse(old(stream.pending)), old(stream.pending))..]
  {
    ghost var b := stream.pending;
    var status := stream.ReadExact(1);
    if status.Err? { return Err(status.error); }
    var lenBuf := stream.ReadExact(4);
    if lenBuf.Err? { return Err(lenBuf.error); }
    assert lenBuf.value == b[1..5];
    var body := stream.ReadExact(U32Value(lenBuf.value));
    if body.Err? { return Err(body.error); }
    assert body.value == b[5..5 + |body.value|];
    return Ok(Response(status.value[0], body.value));
  }

  /// ## Round trips

  lemma DividingByteByByte(n: nat)
    ensures n / 0x1_0000 == n / 256 / 256 && n / 0x100_0000 == n / 0x1_0000 / 256
    ensures n / BODY_LIMIT == n / 0x100_0000 / 256
  {
  }

  lemma U32RoundTrip(n: nat)
    ensures U32Value(U32Bytes(n)) == n % BODY_LIMIT
  {
    var c, b, a, rest := n / 256, n / 0x1_0000, n / 0x100_0000, n / BODY_LIMIT;
    DividingByteByByte(n);
    assert n == c * 256 + n % 256 && c == b * 256 + c % 256 && b == a * 256 + b % 256 && a == rest * 256 + a % 256;
    assert n == rest * BODY_LIMIT + n % BODY_LIMIT;
  }

  /** The text that survives: `?` for whatever is not ASCII. */
  function Asciified(s: string): (t: string)
    ensures |t| == |s|
  {
    seq(|s|, i requires 0 <= i < |s| => if s[i] as int < 128 then s[i] else '?')
  }

  /** The type bytes are the UTF-8 form of that text; of the key itself if it is ASCII. */
  lemma {:induction false} AsciiBytesAreUtf8(s: string)
    ensures AsciiBytes(s) == Encode(Asciified(s))
    ensures IsAscii(s) ==> Asciified(s) == s
  {
    if s == [] {
    } else {
      AsciiBytesAreUtf8(s[1..]);
      assert Asciified(s)[1..] == Asciified(s[1..]);
      assert AsciiBytes(s) == [AsciiBytes(s)[0]] + AsciiBytes(s[1..]);
    }
  }

  /** The type string read back from ASCII bytes is the key exactly when the key is ASCII. */
  lemma LossyOfAsciiBytes(s: string)
    ensures Lossy(AsciiBytes(s)) == Asciified(s)
    ensures Lossy(AsciiBytes(s)) == s <==> IsAscii(s)
    ensures forall i :: 0 <= i < |s| ==> Lossy(AsciiBytes(s))[i] == if s[i] as int < 128 then s[i] else '?'
    ensures ':' in s ==> ':' in Lossy(AsciiBytes(s))
  {
    AsciiBytesAreUtf8(s);
    LossyOfEncode(Asciified(s));
    if ':' in s {
      var i :| 0 <= i < |s| && s[i] == ':';
      assert Asciified(s)[i] == ':';
    }
    if Asciified(s) == s {
      assert forall i :: 0 <= i < |s| ==> Asciified(s)[i] == s[i];
    }
  }

  /** Whether decoding `r`'s frame, followed by anything, gives its key and body back and stops at its end. */
  ghost predicate Survives(r: Request, rest: seq<byte>) {
    var d := DecodeRequest(EncodeRequest(r) + rest);
    d.Complete? && KeyOf(d.value) == KeyOf(r) && d.value.body == r.body && d.used == |EncodeRequest(r)|
  }

  lemma FrameParts(r: Request, rest: seq<byte>)
    ensures
      var b, n := EncodeRequest(r) + rest, |KeyOf(r)|;
      && |EncodeRequest(r)| == 5 + n + |r.body| <= |b|
      && b[0] == n % TYPE_LIMIT
      && b[1..1 + n] == AsciiBytes(KeyOf(r))
      && U32Value(b[1 + n..5 + n]) == |r.body| % BODY_LIMIT
      && b[5 + n..5 + n + |r.body|] == r.body
  {
    var b, n := EncodeRequest(r) + rest, |KeyOf(r)|;
    assert b[1 + n..5 + n] == U32Bytes(|r.body|);
    U32RoundTrip(|r.body|);
  }

  /** The bytes of a request's frame: the type's length, the type in ASCII, four bytes big-endian that say the body's
      length, the body; lengths that do not fit are cut to what fits. */
  lemma RequestLayout(r: Request)
    ensures
      var b, n := EncodeRequest(r), |r.namespace| + 1 + |r.requestType|;
      && |b| == 1 + n + 4 + |r.body| && b[0] == n % 256
      && b[1..1 + n] == AsciiBytes(r.namespace + ":" + r.requestType)
      && BigEndian(b[1 + n..5 + n]) == |r.body| % 0x1_0000_0000 && b[5 + n..] == r.body
  {
    var b, n := EncodeRequest(r), |KeyOf(r)|;
    assert b + [] == b;
    FrameParts(r, []);
    U32IsBigEndian(b[1 + n..5 + n]);
    assert b[5 + n..] == b[5 + n..5 + n + |r.body|];
  }

  /** The bytes of a response's frame: the status, four bytes big-endian that say the body's length, the body. */
  lemma ResponseLayout(r: Response)
    ensures
      var b := EncodeResponse(r);
      && |b| == 5 + |r.body| && b[0] == r.status
      && BigEndian(b[1..5]) == |r.body| % 0x1_0000_0000 && b[5..] == r.body
  {
    U32RoundTrip(|r.body|);
    assert EncodeResponse(r)[1..5] == U32Bytes(|r.body|);
    U32IsBigEndian(U32Bytes(|r.body|));
  }

  lemma DecodeParts(b: seq<byte>, key: string, body: seq<byte>)
    requires |b| >= 5 + |key| + |body| && b[0] as int == |key|
    requires b[1..1 + |key|] == AsciiBytes(key) && ':' in key
    requires U32Value(b[1 + |key|..5 + |key|]) == |body| && b[5 + |key|..5 + |key| + |body|] == body
    ensures
      var d := DecodeRequest(b);
      d.Complete? && KeyOf(d.value) == Lossy(AsciiBytes(key)) && d.value.body == body && d.used == 5 + |key| + |body|
  {
    LossyOfAsciiBytes(key);
    RequestParts(b, AsciiBytes(key), |body|, b[5 + |key|..]);
    SlicesOfRest(b, 5 + |key|, |body|);
  }

  lemma KeyHasColon(r: Request)
    ensures ':' in KeyOf(r)
  {
    assert KeyOf(r)[|r.namespace|] == ':';
  }

  lemma DecodeShortType(r: Request, rest: seq<byte>)
    requires |KeyOf(r)| < TYPE_LIMIT && |r.body| < BODY_LIMIT
    ensures
      var d := DecodeRequest(EncodeRequest(r) + rest);
      && d.Complete? && KeyOf(d.value) == Lossy(AsciiBytes(KeyOf(r)))
      && d.value.body == r.body && d.used == |EncodeRequest(r)|
  {
    FrameParts(r, rest);
    KeyHasColon(r);
    DecodeParts(EncodeRequest(r) + rest, KeyOf(r), r.body);
  }

  lemma DecodeLongBody(r: Request, rest: seq<byte>)
    requires |KeyOf(r)| < TYPE_LIMIT && |r.body| >= BODY_LIMIT
    ensures !Survives(r, rest)
  {
    FrameParts(r, rest);
  }

  lemma DecodeLongType(r: Request, rest: seq<byte>)
    requires |KeyOf(r)| >= TYPE_LIMIT
    ensures !Survives(r, rest)
  {
    var b := EncodeRequest(r) + rest;
    var d := DecodeRequest(b);
    if d.Complete? {
      assert |KeyOf(d.value)| == |Lossy(b[1..1 + b[0]])|;
    }
  }

  /** The exact round-trip bound: a request's key and body come back exactly for an ASCII key of at most
      255 characters and a body under 2^32 bytes. */
  lemma RequestRoundTrip(r: Request, rest: seq<byte>)
    ensures Survives(r, rest) <==> InLimits(r)
  {
    if |KeyOf(r)| >= TYPE_LIMIT {
      DecodeLongType(r, rest);
    } else if |r.body| >= BODY_LIMIT {
      DecodeLongBody(r, rest);
    } else {
      DecodeShortType(r, rest);
      LossyOfAsciiBytes(KeyOf(r));
    }
  }

  /** Within the limits the decoded request is the re-cut one. */
  lemma DecodeInLimits(r: Request, rest: seq<byte>)
    requires InLimits(r)
    ensures DecodeRequest(EncodeRequest(r) + rest) == Complete(Recut(r), |EncodeRequest(r)|)
  {
    RequestRoundTrip(r, rest);
    var b := EncodeRequest(r) + rest;
    assert KeyOf(DecodeRequest(b).value) == Lossy(b[1..1 + b[0]]);
  }

  /** The fields themselves, not only the key, come back exactly when the namespace has no colon either. */
  lemma RequestFieldsRoundTrip(r: Request)
    ensures ParsesTo(EncodeRequest(r), r) <==> InLimits(r) && ':' !in r.namespace
  {
    assert EncodeRequest(r) + [] == EncodeRequest(r);
    RequestRoundTrip(r, []);
    SplitOfKey(r.namespace, r.requestType);
    if InLimits(r) {
      DecodeInLimits(r, []);
    }
  }

  ghost predicate ParsesTo(b: seq<byte>, r: Request) {
    DecodeRequest(b) == Complete(r, |b|)
  }

  /** A response comes back exactly for a body under 2^32 bytes, whatever follows its frame. */
  lemma ResponseRoundTrip(r: Response, rest: seq<byte>)
    ensures DecodeResponse(EncodeResponse(r) + rest) == Complete(r, |EncodeResponse(r)|) <==> |r.body| < BODY_LIMIT
  {
    var b := EncodeResponse(r) + rest;
    assert b[1..5] == U32Bytes(|r.body|);
    U32RoundTrip(|r.body|);
    if |r.body| < BODY_LIMIT {
      assert b[5..5 + |r.body|] == r.body;
    }
  }
}
