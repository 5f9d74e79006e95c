/** The guest's client object: one request out, one response in, over the stream it holds. */
module TcpClients {
  import opened Common
  import opened ProtocolSerializer

  datatype SendError = NotConnected | WriteFailed | TimedOut | Protocol(error: ProtocolError)

  /** A connected socket: the bytes written to the center, how many more it takes before it breaks, the bytes that
      arrive before the read gives up, and whether the read gave up waiting for more or came to the end of the
      stream. */
  class Socket {
    var sent: seq<byte>
    var takes: nat
    const incoming: ByteStream
    const staysOpen: bool

    constructor (takes: nat, incoming: ByteStream, staysOpen: bool)
      ensures this.takes == takes && this.incoming == incoming && this.staysOpen == staysOpen && sent == []
    {
      this.takes, this.incoming, this.staysOpen := takes, incoming, staysOpen;
      sent := [];
    }

    /** Writes everything, or breaks on the way. */
    method WriteAll(bytes: seq<byte>) returns (ok: bool)
      modifies this
      ensures ok <==> |bytes| <= old(takes)
      ensures ok ==> sent == old(sent) + bytes && takes == old(takes) - |bytes|
      ensures !ok ==> sent == old(sent) + bytes[..old(takes)] && takes == 0
    {
      ok := |bytes| <= takes;
      var n := if ok then |bytes| else takes;
      assert ok ==> bytes[..n] == bytes;
      sent := sent + bytes[..n];
      takes := takes - n;
    }
  }

  /** What `send` returns on a socket that takes so many more bytes and on which these arrive: nothing is read when the
      write fails, and a read that ends early on an open stream has timed out. */
  function SendResult(request: Request, takes: nat, arrived: seq<byte>, staysOpen: bool): Result<Response, SendError> {
    if |EncodeRequest(request)| > takes then Err(WriteFailed) else
      match Outcome(DecodeResponse(arrived))
      case Ok(response) => Ok(response)
      case Err(error) => Err(if staysOpen then TimedOut else Protocol(error))
  }

  class TcpClient {
    var stream: Socket?

    constructor ()
      ensures stream == null
    {
      stream := null;
    }

    /** Takes over the socket of a successful connection; a failed one leaves the client as it was. */
    method Connect(attempt: Socket?) returns (ok: bool)
      modifies this
      ensures ok <==> attempt != null
      ensures stream == if ok then attempt else old(stream)
    {
      if attempt == null {
        return false;
      }
      stream := attempt;
      return true;
    }

    function Takes(): nat
      reads this, stream
    {
      if stream == null then 0 else stream.takes
    }

    function Sent(): seq<byte>
      reads this, stream
    {
      if stream == null then [] else stream.sent
    }

    /** Bytes the next answer will be read from. */
    function Arriving(): seq<byte>
      reads this, stream, if stream == null then {} else {stream.incoming}
    {
      if stream == null then [] else stream.incoming.pending
    }

    /** Writes exactly the request's frame, or the part the socket still takes, and reads exactly one response. Nothing
        is written when not connected, and nothing is read when the write fails; after any error the stream is kept,
        short of the bytes already read from it. */
    method Send(request: Request) returns (r: Result<Response, SendError>)
      modifies stream, if stream == null then {} else {stream.incoming}
      ensures stream == old(stream)
      ensures r == if stream == null then Err(NotConnected)
                   else SendResult(request, old(Takes()), old(Arriving()), stream.staysOpen)
      ensures stream == null <==> r == Err(NotConnected)
      ensures stream != null && |EncodeRequest(request)| > old(Takes()) ==> r == Err(WriteFailed)
      ensures stream != null && |EncodeRequest(request)| <= old(Takes()) ==>
                match DecodeResponse(old(Arriving()))
                case Complete(response, _) => r == Ok(response)
                case _ => r == Err(if stream.staysOpen then TimedOut else Protocol(EndOfStream))
      ensures stream != null ==>
                var frame, takes, arrived := EncodeRequest(request), old(Takes()), old(Arriving());
                if |frame| > takes then Sent() == old(Sent()) + frame[..takes] && Arriving() == arrived
                else
                  && Sent() == old(Sent()) + frame
                  && Arriving() == arrived[Consumed(DecodeResponse(arrived), arrived)..]
    {
      if stream == null {
        return Err(NotConnected);
      }
      var bytes := SerializeRequest(request);
      var ok := stream.WriteAll(bytes);
      if !ok {
        return Err(WriteFailed);
      }
      var read := DeserializeResponse(stream.incoming);
      match read
      case Ok(response) => return Ok(response);
      case Err(error) => return Err(if stream.staysOpen then TimedOut else Protocol(error));
    }

    method IsConnected() returns (connected: bool)
      ensures connected <==> stream != null
    {
      connected := stream != null;
    }

    method Disconnect()
      modifies this
      ensures stream == null
    {
      stream := null;
    }
  }

  /** A well-formed answer waiting on the socket is returned and nothing of what follows it is touched. */
  method SendAndReceive(client: TcpClient, request: Request, answer: Response, rest: seq<byte>)
    returns (r: Result<Response, SendError>)
    requires client.stream != null && |answer.body| < BODY_LIMIT
    requires |EncodeRequest(request)| <= client.stream.takes
    requires client.stream.incoming.pending == EncodeResponse(answer) + rest
    modifies client.stream, client.stream.incoming
    ensures r == Ok(answer)
    ensures client.stream == old(client.stream) && client.stream.incoming.pending == rest
    ensures client.stream.sent == old(client.stream.sent) + EncodeRequest(request)
  {
    ResponseRoundTrip(answer, rest);
    assert (EncodeResponse(answer) + rest)[|EncodeResponse(answer)|..] == rest;
    r := client.Send(request);
  }
}
