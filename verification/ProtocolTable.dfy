/** Which requests a center answers: the advertised keys, the handler table, dispatch, and what a guest
    negotiates from the advertisement. */
module ProtocolTable {
  import opened Common
  import opened Keys
  import opened Utf8
  import opened ProtocolSerializer
  import opened TcpClients

  const EASYTIER_KEY := "c:player_easytier_id"

  const HANDLED_KEYS: seq<string> :=
    ["c:ping", "c:protocols", "c:server_port", "c:player_ping", "c:player_profiles_list"]

  /** The keys every center advertises; the last has no handler of its own. */
  const STANDARD_KEYS: seq<string> := HANDLED_KEYS + [EASYTIER_KEY]

  /** A handler may change the state of the application behind it. */
  type Handle<!A> = (A, Request) -> (A, Response)

  datatype Handler<!A> = Handler(key: string, run: Handle<A>)

  function KeysOf<A>(handlers: seq<Handler<A>>): seq<string> {
    seq(|handlers|, i requires 0 <= i < |handlers| => handlers[i].key)
  }

  /// ## The center's side

  /** The start-up check: the first custom key already taken by a standard key or by an earlier custom one. */
  method CheckKeys(custom: seq<string>) returns (clash: Option<string>)
    ensures clash.None? <==> Distinct(STANDARD_KEYS + custom)
    ensures clash.Some? ==>
              exists i ::
                && 0 <= i < |custom| && clash.value == custom[i]
                && custom[i] in STANDARD_KEYS + custom[..i] && Distinct(STANDARD_KEYS + custom[..i])
  {
    var seen := STANDARD_KEYS;
    assert Distinct(STANDARD_KEYS) && STANDARD_KEYS + custom[..0] == STANDARD_KEYS;
    for i := 0 to |custom|
      invariant seen == STANDARD_KEYS + custom[..i] && Distinct(seen)
    {
      var key := custom[i];
      if key in seen {
        Repeats(STANDARD_KEYS, custom, i);
        return Some(key);
      }
      assert STANDARD_KEYS + custom[..i + 1] == seen + [key];
      seen := seen + [key];
    }
    assert custom[..|custom|] == custom;
    clash := None;
  }

  lemma Repeats(first: seq<string>, custom: seq<string>, i: nat)
    requires i < |custom| && custom[i] in first + custom[..i]
    ensures !Distinct(first + custom)
  {
    var all := first + custom;
    var j :| 0 <= j < |first| + i && (first + custom[..i])[j] == custom[i];
    assert all[j] == custom[i] && all[|first| + i] == custom[i];
  }

  /** `collect` into a map: a later handler takes the key over from an earlier one. */
  function Table<A>(handlers: seq<Handler<A>>): map<string, Handle<A>> {
    if handlers == [] then map[] else
      var last := handlers[|handlers| - 1];
      Table(handlers[..|handlers| - 1])[last.key := last.run]
  }

  /** With distinct keys no handler is shadowed, and the table answers to nothing but the handlers' keys. */
  lemma {:induction false} NoHandlerIsShadowed<A>(handlers: seq<Handler<A>>)
    requires Distinct(KeysOf(handlers))
    ensures forall h :: h in handlers ==> h.key in Table(handlers) && Table(handlers)[h.key] == h.run
    ensures forall key :: key in Table(handlers) <==> key in KeysOf(handlers)
  {
    if handlers == [] {
    } else {
      var n := |handlers| - 1;
      var init := handlers[..n];
      assert KeysOf(handlers) == KeysOf(init) + [handlers[n].key];
      assert forall i :: 0 <= i < n ==> KeysOf(init)[i] == KeysOf(handlers)[i];
      NoHandlerIsShadowed(init);
      assert handlers == init + [handlers[n]];
      assert forall i :: 0 <= i < n ==> init[i].key == KeysOf(handlers)[i] != KeysOf(handlers)[n];
    }
  }

  const UNKNOWN_PROTOCOL := "\U{672A}\U{77E5}\U{534F}\U{8BAE}: "

  /** The answer to a request: its handler's, or status 255 naming the key. */
  function Respond<A>(table: map<string, Handle<A>>, state: A, request: Request): (A, Response) {
    if KeyOf(request) in table then table[KeyOf(request)](state, request)
    else (state, Response(255, Encode(UNKNOWN_PROTOCOL + KeyOf(request))))
  }

  /** The request is turned down in words, and nothing changes. */
  ghost predicate Refused<A(!new)>(key: string, state: A, next: A, answer: Response) {
    next == state && answer.status == 255 && Lossy(answer.body) == "\U{672A}\U{77E5}\U{534F}\U{8BAE}: " + key
  }

  /** A request under a key nobody has registered is turned down in words that name the key, and changes nothing. */
  lemma UnknownKeyIsRefused<A(!new)>(handlers: seq<Handler<A>>, state: A, request: Request)
    requires Distinct(KeysOf(handlers)) && KeyOf(request) !in KeysOf(handlers)
    ensures
      var (next, answer) := Respond(Table(handlers), state, request);
      Refused(KeyOf(request), state, next, answer)
  {
    NoHandlerIsShadowed(handlers);
    LossyOfEncode(UNKNOWN_PROTOCOL + KeyOf(request));
  }

  /** One turn of the serving loop without cancellation: read a request, dispatch it, frame the answer. */
  method ServeOne<A>(incoming: ByteStream, table: map<string, Handle<A>>, state: A)
    returns (reply: Result<seq<byte>, ProtocolError>, next: A)
    modifies incoming
    ensures
      var arrived := old(incoming.pending);
      && incoming.pending == arrived[Consumed(DecodeRequest(arrived), arrived)..]
      && match DecodeRequest(arrived)
         case Complete(request, _) =>
           var (after, response) := Respond(table, state, request);
           reply == Ok(EncodeResponse(response)) && next == after
         case Malformed(_) => reply == Err(BadType) && next == state
         case Incomplete => reply == Err(EndOfStream) && next == state
  {
    var read := DeserializeRequest(incoming);
    match read
    case Err(error) => return Err(error), state;
    case Ok(request) =>
      var key := Key(request.namespace, request.requestType);
      var response;
      if key in table {
        var (after, answer) := table[key](state, request);
        next, response := after, answer;
      } else {
        next, response := state, Response(255, Encode(UNKNOWN_PROTOCOL + key));
      }
      var bytes := SerializeResponse(response);
      return Ok(bytes), next;
  }

  /** The body of a `c:protocols` answer. */
  function Advertisement(keys: seq<string>): seq<byte> {
    Encode(Join(keys, '\0'))
  }

  /// ## The guest's side

  function ReadAdvertisement(body: seq<byte>): seq<string> {
    Split(Lossy(body), '\0')
  }

  /** The guest's keys that the center has too, in the guest's order. */
  function Negotiate(my: seq<string>, center: seq<string>): seq<string> {
    if my == [] then [] else
      var last := my[|my| - 1];
      Negotiate(my[..|my| - 1], center) + if last in center then [last] else []
  }

  /** The request that offers the guest's keys. */
  function Inquiry(my: seq<string>): Request {
    Request("c", "protocols", Advertisement(my))
  }

  datatype GuestError = NotNegotiated | BadKey | Status(status: byte) | Tcp(error: SendError)

  class Guest {
    const tcp: TcpClient
    const customKeys: seq<string>
    var negotiated: seq<string>

    constructor (tcp: TcpClient, customKeys: seq<string>)
      ensures this.tcp == tcp && this.customKeys == customKeys && negotiated == []
    {
      this.tcp, this.customKeys, negotiated := tcp, customKeys, [];
    }

    function MyKeys(): seq<string> {
      STANDARD_KEYS + customKeys
    }

    /** What the connection makes of the next request sent on it. */
    function NextAnswer(request: Request): Result<Response, SendError>
      reads tcp, tcp.stream, if tcp.stream == null then {} else {tcp.stream.incoming}
    {
      if tcp.stream == null then Err(NotConnected)
      else SendResult(request, tcp.Takes(), tcp.Arriving(), tcp.stream.staysOpen)
    }

    /** Asks for the center's keys and keeps the common ones. Only an answer with status 0 changes what is
        negotiated. */
    method NegotiateProtocols() returns (r: Result<(), SendError>)
      modifies this, tcp.stream, if tcp.stream == null then {} else {tcp.stream.incoming}
      ensures tcp.stream == old(tcp.stream)
      ensures
        var my := STANDARD_KEYS + customKeys;
        match old(NextAnswer(Inquiry(STANDARD_KEYS + customKeys)))
        case Err(error) => r == Err(error) && negotiated == old(negotiated)
        case Ok(answer) =>
          && r == Ok(())
          && negotiated ==
               if answer.status == 0 then Negotiate(my, ReadAdvertisement(answer.body)) else old(negotiated)
    {
      var my := MyKeys();
      ghost var expected := NextAnswer(Inquiry(my));
      var sent := tcp.Send(Inquiry(my));
      assert sent == expected;
      match sent
      case Err(error) => return Err(error);
      case Ok(response) =>
        if response.status == 0 {
          negotiated := Negotiate(my, ReadAdvertisement(response.body));
        }
        return Ok(());
    }

    method EnsureNegotiated(key: string) returns (ok: bool)
      ensures ok <==> key in negotiated
    {
      ok := false;
      for i := 0 to |negotiated|
        invariant key !in negotiated[..i]
      {
        if negotiated[i] == key {
          return true;
        }
      }
    }

    method Exchange(request: Request) returns (r: Result<seq<byte>, GuestError>)
      modifies tcp.stream, if tcp.stream == null then {} else {tcp.stream.incoming}
      ensures tcp.stream == old(tcp.stream)
      ensures
        match old(NextAnswer(request))
        case Err(error) => r == Err(Tcp(error))
        case Ok(answer) => r == if answer.status == 0 then Ok(answer.body) else Err(Status(answer.status))
      ensures r.Ok? || r.error.Status? ==> tcp.Sent() == old(tcp.Sent()) + EncodeRequest(request)
    {
      var sent := tcp.Send(request);
      match sent
      case Err(error) => return Err(Tcp(error));
      case Ok(response) =>
        if response.status != 0 {
          return Err(Status(response.status));
        }
        return Ok(response.body);
    }

    /** Sends a request under a negotiated key and returns the body of a successful answer. Nothing is written for a
        key that is not negotiated or has no colon. */
    method SendKey(key: string, body: seq<byte>) returns (r: Result<seq<byte>, GuestError>)
      modifies tcp.stream, if tcp.stream == null then {} else {tcp.stream.incoming}
      ensures tcp.stream == old(tcp.stream)
      ensures key !in negotiated ==> r == Err(NotNegotiated)
      ensures key in negotiated && ':' !in key ==> r == Err(BadKey)
      ensures key !in negotiated || ':' !in key ==>
                tcp.Sent() == old(tcp.Sent()) && tcp.Arriving() == old(tcp.Arriving())
      ensures key in negotiated && ':' in key ==>
                match old(NextAnswer(RequestFor(key, body)))
                case Err(error) => r == Err(Tcp(error))
                case Ok(answer) => r == if answer.status == 0 then Ok(answer.body) else Err(Status(answer.status))
      ensures r.Ok? ==> tcp.Sent() == old(tcp.Sent()) + EncodeRequest(RequestFor(key, body))
    {
      var ok := EnsureNegotiated(key);
      if !ok {
        return Err(NotNegotiated);
      }
      match SplitKey(key)
      case None => return Err(BadKey);
      case Some((namespace, requestType)) =>
        r := Exchange(Request(namespace, requestType, body));
    }
  }

  /** The request a guest builds for a key with a colon. */
  function RequestFor(key: string, body: seq<byte>): Request {
    var parts := SplitKey(key).UnwrapOr(("", ""));
    Request(parts.0, parts.1, body)
  }

  /// ## Agreement

  /** `out` is `my` at the increasing positions `at`, and these are exactly where `center` has the key. */
  ghost predicate Selects(at: seq<nat>, my: seq<string>, center: seq<string>, out: seq<string>) {
    && |at| == |out|
    && (forall i, j :: 0 <= i < j < |at| ==> at[i] < at[j])
    && (forall i :: 0 <= i < |at| ==> at[i] < |my| && out[i] == my[at[i]])
    && (forall k :: 0 <= k < |my| ==> (my[k] in center <==> k in at))
  }

  /** Negotiation keeps the guest's order and repetitions. */
  lemma {:induction false} NegotiationKeepsOrder(my: seq<string>, center: seq<string>) returns (at: seq<nat>)
    ensures Selects(at, my, center, Negotiate(my, center))
  {
    if my == [] {
      at := [];
    } else {
      var n := |my| - 1;
      at := NegotiationKeepsOrder(my[..n], center);
      SelectsOneMore(at, my[..n], my[n], center, Negotiate(my[..n], center));
      assert my == my[..n] + [my[n]];
      if my[n] in center {
        at := at + [n];
      }
    }
  }

  lemma SelectsOneMore(at: seq<nat>, my: seq<string>, key: string, center: seq<string>, out: seq<string>)
    requires Selects(at, my, center, out)
    ensures key !in center ==> Selects(at, my + [key], center, out + [])
    ensures key in center ==> Selects(at + [|my|], my + [key], center, out + [key])
  {
    if key in center {
      var longer := at + [|my|];
      forall k: nat ensures k in longer <==> k in at || k == |my| {
        assert longer[|at|] == |my|;
        if k in at {
          var i :| 0 <= i < |at| && at[i] == k;
          assert longer[i] == k;
        }
      }
    }
  }

  /** What is negotiated is what both sides have. */
  lemma NegotiatedIsCommon(my: seq<string>, center: seq<string>)
    ensures forall key :: key in Negotiate(my, center) <==> key in my && key in center
  {
    var at := NegotiationKeepsOrder(my, center);
    forall key | key in my && key in center ensures key in Negotiate(my, center) {
      var k :| 0 <= k < |my| && my[k] == key;
      var i :| 0 <= i < |at| && at[i] == k;
      assert Negotiate(my, center)[i] == key;
    }
  }

  /** The guest reads back the advertised list exactly when no advertised key holds a NUL. */
  lemma AdvertisementArrives(keys: seq<string>)
    requires keys != []
    ensures ReadAdvertisement(Advertisement(keys)) == keys <==> forall key :: key in keys ==> '\0' !in key
  {
    LossyOfEncode(Join(keys, '\0'));
    SplitOfJoin(keys, '\0');
  }

  /** The guest's inquiry goes to `c:protocols` and offers its keys: the center could read them back exactly when none
      holds a NUL. */
  lemma InquiryOffersKeys(my: seq<string>)
    requires my != []
    ensures KeyOf(Inquiry(my)) == "c:protocols"
    ensures ReadAdvertisement(Inquiry(my).body) == my <==> forall key :: key in my ==> '\0' !in key
  {
    AdvertisementArrives(my);
    assert Key("c", "protocols") == "c:protocols";
  }

  /** A center that passed its start-up check: the standard handlers, then the custom ones. */
  ghost predicate Started<A>(standard: seq<Handler<A>>, custom: seq<Handler<A>>) {
    KeysOf(standard) == HANDLED_KEYS && Distinct(STANDARD_KEYS + KeysOf(custom))
  }

  lemma StartedKeysAreDistinct<A>(standard: seq<Handler<A>>, custom: seq<Handler<A>>)
    requires Started(standard, custom)
    ensures KeysOf(standard + custom) == HANDLED_KEYS + KeysOf(custom)
    ensures Distinct(KeysOf(standard + custom)) && EASYTIER_KEY !in KeysOf(standard + custom)
  {
    var all, keys := STANDARD_KEYS + KeysOf(custom), KeysOf(standard + custom);
    assert keys == HANDLED_KEYS + KeysOf(custom);
    forall i, j | 0 <= i < j < |keys| ensures keys[i] != keys[j] {
      var i', j' := if i < 5 then i else i + 1, if j < 5 then j else j + 1;
      assert keys[i] == all[i'] && keys[j] == all[j'];
    }
    forall i | 0 <= i < |keys| ensures keys[i] != EASYTIER_KEY {
      var i' := if i < 5 then i else i + 1;
      assert keys[i] == all[i'] && all[5] == EASYTIER_KEY;
    }
  }

  /** Negotiation agrees with the table: after a start that passed the key check, with NUL-free keys, a key is
      negotiated exactly when both sides have it, and every negotiated key but `c:player_easytier_id`, which has
      none, runs the handler registered under it. */
  lemma NegotiationAgreesWithTable<A>(standard: seq<Handler<A>>, custom: seq<Handler<A>>, guestKeys: seq<string>)
    requires Started(standard, custom)
    requires forall key :: key in KeysOf(custom) ==> '\0' !in key
    ensures
      var advertised := STANDARD_KEYS + KeysOf(custom);
      var my := STANDARD_KEYS + guestKeys;
      var negotiated := Negotiate(my, ReadAdvertisement(Advertisement(advertised)));
      var table := Table(standard + custom);
      && (forall key :: key in negotiated <==> key in my && key in advertised)
      && EASYTIER_KEY in negotiated && EASYTIER_KEY !in table
      && (forall h :: h in standard + custom ==> h.key in table && table[h.key] == h.run)
      && (forall key :: key in negotiated && key != EASYTIER_KEY ==> key in table)
  {
    var advertised := STANDARD_KEYS + KeysOf(custom);
    StandardKeys();
    AdvertisementArrives(advertised);
    NegotiatedIsCommon(STANDARD_KEYS + guestKeys, advertised);
    StartedKeysAreDistinct(standard, custom);
    NoHandlerIsShadowed(standard + custom);
    InAppended(STANDARD_KEYS, KeysOf(custom));
    InAppended(HANDLED_KEYS, KeysOf(custom));
    InAppended(STANDARD_KEYS, guestKeys);
  }

  lemma StandardKeys()
    ensures forall key :: key in STANDARD_KEYS ==> '\0' !in key
    ensures forall key :: key in STANDARD_KEYS <==> key in HANDLED_KEYS || key == EASYTIER_KEY
  {
    InAppended(HANDLED_KEYS, [EASYTIER_KEY]);
  }

  lemma InAppended(a: seq<string>, b: seq<string>)
    ensures forall x :: x in a + b <==> x in a || x in b
  {
  }

  /** End-to-end delivery: for a registered key with a colon, the request a guest builds reaches the center under
      exactly that key, whatever follows it on the stream, exactly when the key is ASCII and at most 255 long and the
      body fits; and then the answer is the one of the handler registered under the key. */
  lemma DeliveryRunsTheRegisteredHandler<A>(handlers: seq<Handler<A>>, h: Handler<A>, state: A, body: seq<byte>,
                                            rest: seq<byte>)
    requires Distinct(KeysOf(handlers)) && h in handlers && ':' in h.key
    ensures Survives(RequestFor(h.key, body), rest) <==> IsAscii(h.key) && |h.key| <= 255 && |body| < BODY_LIMIT
    ensures Survives(RequestFor(h.key, body), rest) ==>
              var arrived := DecodeRequest(EncodeRequest(RequestFor(h.key, body)) + rest);
              && arrived.Complete? && arrived.value == RequestFor(h.key, body)
              && Respond(Table(handlers), state, arrived.value) == h.run(state, RequestFor(h.key, body))
  {
    var request := RequestFor(h.key, body);
    RequestRoundTrip(request, rest);
    NoHandlerIsShadowed(handlers);
    if Survives(request, rest) {
      DecodeInLimits(request, rest);
      SplitOfKey(request.namespace, request.requestType);
    }
  }
}
