/** Frames on a stream: where one ends and the next begins does not depend on how the bytes arrive. */
module Framing {
  import opened Common
  import opened ProtocolSerializer

  /** What a reading loop has got out of a stream: the requests served, the bytes it still waits on,
      and whether a malformed frame ended it. */
  datatype Reading = Reading(requests: seq<Request>, leftover: seq<byte>, broken: bool)

  const START := Reading([], [], false)

  /** The loop on bytes that are all there. */
  function Drain(b: seq<byte>): Reading
    decreases |b|
  {
    match DecodeRequest(b)
    case Incomplete => Reading([], b, false)
    case Malformed(used) => Reading([], b[used..], true)
    case Complete(request, used) =>
      var rest := Drain(b[used..]);
      Reading([request] + rest.requests, rest.leftover, rest.broken)
  }

  /** The loop when one more chunk arrives. */
  function Receive(reading: Reading, chunk: seq<byte>): Reading {
    if reading.broken then reading.(leftover := reading.leftover + chunk) else
      var next := Drain(reading.leftover + chunk);
      next.(requests := reading.requests + next.requests)
  }

  function ReceiveAll(reading: Reading, chunks: seq<seq<byte>>): Reading
    decreases |chunks|
  {
    if chunks == [] then reading else ReceiveAll(Receive(reading, chunks[0]), chunks[1..])
  }

  function Flatten(chunks: seq<seq<byte>>): seq<byte> {
    if chunks == [] then [] else chunks[0] + Flatten(chunks[1..])
  }

  function Frames(requests: seq<Request>): seq<byte> {
    if requests == [] then [] else EncodeRequest(requests[0]) + Frames(requests[1..])
  }

  function RecutAll(requests: seq<Request>): seq<Request> {
    seq(|requests|, i requires 0 <= i < |requests| => Recut(requests[i]))
  }

  lemma SlicesOfPrefix(a: seq<byte>, b: seq<byte>, i: nat, j: nat)
    requires i <= j <= |a|
    ensures (a + b)[i..j] == a[i..j]
  {
  }

  /** A decision about a byte string is final: later bytes do not change it. */
  lemma RequestDecisionIsFinal(a: seq<byte>, b: seq<byte>)
    requires !DecodeRequest(a).Incomplete?
    ensures DecodeRequest(a + b) == DecodeRequest(a)
  {
    var n := a[0] as int;
    assert (a + b)[0] == a[0];
    SlicesOfPrefix(a, b, 1, 1 + n);
    SlicesOfPrefix(a, b, 1 + n, 5 + n);
    var total := 5 + n + U32Value(a[1 + n..5 + n]);
    SlicesOfPrefix(a, b, 5 + n, total);
    assert DecodeRequest(a + b) == Assemble(a[1..1 + n], a[5 + n..total], total);
  }

  lemma FinalOnPrefix(b: seq<byte>, n: nat)
    requires n <= |b| && !DecodeRequest(b[..n]).Incomplete?
    ensures DecodeRequest(b) == DecodeRequest(b[..n])
  {
    RequestDecisionIsFinal(b[..n], b[n..]);
    assert b[..n] + b[n..] == b;
  }

  lemma ResponseDecisionIsFinal(a: seq<byte>, b: seq<byte>)
    requires !DecodeResponse(a).Incomplete?
    ensures DecodeResponse(a + b) == DecodeResponse(a)
  {
    assert (a + b)[1..5] == a[1..5];
    var total := 5 + U32Value(a[1..5]);
    assert (a + b)[5..total] == a[5..total];
  }

  /** No strict prefix of a frame decodes. */
  lemma NoPrefixDecodes(r: Request, n: nat)
    requires InLimits(r) && n < |EncodeRequest(r)|
    ensures DecodeRequest(EncodeRequest(r)[..n]).Incomplete?
  {
    var frame := EncodeRequest(r);
    DecodeInLimits(r, []);
    assert frame + [] == frame;
    if !DecodeRequest(frame[..n]).Incomplete? {
      FinalOnPrefix(frame, n);
    }
  }

  lemma NoResponsePrefixDecodes(r: Response, n: nat)
    requires |r.body| < BODY_LIMIT && n < |EncodeResponse(r)|
    ensures DecodeResponse(EncodeResponse(r)[..n]).Incomplete?
  {
    var frame := EncodeResponse(r);
    if !DecodeResponse(frame[..n]).Incomplete? {
      ResponseDecisionIsFinal(frame[..n], frame[n..]);
      assert frame[..n] + frame[n..] == frame + [];
      ResponseRoundTrip(r, []);
    }
  }

  function Before(r: Request, reading: Reading): Reading {
    reading.(requests := [r] + reading.requests)
  }

  lemma ReceiveBefore(r: Request, reading: Reading, chunk: seq<byte>)
    ensures Receive(Before(r, reading), chunk) == Before(r, Receive(reading, chunk))
  {
    if !reading.broken {
      var more := Drain(reading.leftover + chunk).requests;
      assert [r] + reading.requests + more == [r] + (reading.requests + more);
    }
  }

  lemma {:induction false} DrainAppend(a: seq<byte>, b: seq<byte>)
    ensures Drain(a + b) == Receive(Drain(a), b)
    decreases |a|
  {
    var d := DecodeRequest(a);
    if d.Incomplete? {
      assert [] + Drain(a + b).requests == Drain(a + b).requests;
    } else {
      RequestDecisionIsFinal(a, b);
      var rest := a[d.used..];
      assert (a + b)[d.used..] == rest + b;
      if d.Complete? {
        DrainAppend(rest, b);
        ReceiveBefore(d.value, Drain(rest), b);
      }
    }
  }

  /** However a byte string is cut into chunks, the loop serves the same requests and keeps the same leftover. */
  lemma {:induction false} ChunkingIsInvisible(before: seq<byte>, chunks: seq<seq<byte>>)
    ensures ReceiveAll(Drain(before), chunks) == Drain(before + Flatten(chunks))
    decreases |chunks|
  {
    if chunks == [] {
      assert before + [] == before;
    } else {
      var next, tail := before + chunks[0], Flatten(chunks[1..]);
      calc {
        ReceiveAll(Drain(before), chunks);
        ReceiveAll(Receive(Drain(before), chunks[0]), chunks[1..]);
        { DrainAppend(before, chunks[0]); }
        ReceiveAll(Drain(next), chunks[1..]);
        { ChunkingIsInvisible(next, chunks[1..]); }
        Drain(next + tail);
        { assert next + tail == before + Flatten(chunks); }
        Drain(before + Flatten(chunks));
      }
    }
  }

  lemma {:induction false} DrainFrames(requests: seq<Request>)
    requires forall r :: r in requests ==> InLimits(r)
    ensures Drain(Frames(requests)) == Reading(RecutAll(requests), [], false)
  {
    if requests == [] {
    } else {
      var first, rest := requests[0], Frames(requests[1..]);
      DecodeInLimits(first, rest);
      assert (EncodeRequest(first) + rest)[|EncodeRequest(first)|..] == rest;
      DrainFrames(requests[1..]);
      assert RecutAll(requests) == [Recut(first)] + RecutAll(requests[1..]);
    }
  }

  /** Frames delimit themselves: any concatenation of in-limit frames, cut anywhere, is read as exactly
      those requests with nothing left over. */
  lemma FramesAreSelfDelimiting(requests: seq<Request>, chunks: seq<seq<byte>>)
    requires forall r :: r in requests ==> InLimits(r)
    requires Flatten(chunks) == Frames(requests)
    ensures ReceiveAll(START, chunks) == Reading(RecutAll(requests), [], false)
  {
    ChunkingIsInvisible([], chunks);
    assert [] + Flatten(chunks) == Frames(requests);
    DrainFrames(requests);
  }

  /** What the loop has read of `b` when `rest` is still to be read. */
  ghost predicate HasRead(b: seq<byte>, requests: seq<Request>, rest: seq<byte>) {
    Drain(b) == Drain(rest).(requests := requests + Drain(rest).requests)
  }

  lemma ReadOne(b: seq<byte>, requests: seq<Request>, rest: seq<byte>)
    requires HasRead(b, requests, rest)
    ensures
      var d := DecodeRequest(rest);
      && (d.Complete? ==> HasRead(b, requests + [d.value], rest[d.used..]))
      && (d.Malformed? ==> Drain(b) == Reading(requests, rest[d.used..], true))
      && (d.Incomplete? ==> Drain(b) == Reading(requests, rest, false))
  {
    if DecodeRequest(rest).Complete? {
      var request, tail := DecodeRequest(rest).value, Drain(rest[DecodeRequest(rest).used..]).requests;
      assert requests + ([request] + tail) == requests + [request] + tail;
    } else {
      assert requests + [] == requests;
    }
  }

  /** The reading loop on a whole stream, until a read fails: the requests it serves are those of the frames, and it has
      read up to the first malformed frame or to the end. */
  method ReadAll(stream: ByteStream) returns (requests: seq<Request>, error: ProtocolError)
    modifies stream
    ensures
      var reading := Drain(old(stream.pending));
      && requests == reading.requests && (error == BadType <==> reading.broken)
      && stream.pending == if reading.broken then reading.leftover else []
  {
    ghost var b := stream.pending;
    requests := [];
    assert requests + Drain(b).requests == Drain(b).requests;
    while true
      invariant HasRead(b, requests, stream.pending)
      decreases |stream.pending|
    {
      ghost var rest := stream.pending;
      ReadOne(b, requests, rest);
      var read := DeserializeRequest(stream);
      if read.Err? {
        return requests, read.error;
      }
      requests := requests + [read.value];
    }
  }
}
