/** A whole session over the wire: the guest pings, negotiates and then calls what it negotiated. */
module EndToEnd {
  import opened Common
  import opened Keys
  import opened ProtocolSerializer
  import opened ProtocolTable
  import RpcChannel

  const PING_KEY := "c:player_ping"

  /** What the guest sends under a key. */
  datatype Call = Call(key: string, body: seq<byte>)

  function CallRequests(calls: seq<Call>): seq<Request> {
    seq(|calls|, i requires 0 <= i < |calls| => RequestFor(calls[i].key, calls[i].body))
  }

  /** A center that started with these handlers: its `c:protocols` handler answers with the advertised keys and leaves
      the state alone, and the connection task answers from the table. */
  ghost predicate Serves<A(!new)>(cfg: RpcChannel.Config<A>, standard: seq<Handler<A>>, custom: seq<Handler<A>>) {
    && Started(standard, custom) && (forall key :: key in KeysOf(custom) ==> '\0' !in key)
    && (forall a, r :: standard[1].run(a, r) == (a, Response(0, Advertisement(STANDARD_KEYS + KeysOf(custom)))))
    && (forall a, r :: cfg.dispatch(a, r) == Respond(Table(standard + custom), a, r))
  }

  /** The keys a guest with these custom keys negotiates. */
  function Negotiated<A>(guestKeys: seq<string>, custom: seq<Handler<A>>): seq<string> {
    Negotiate(STANDARD_KEYS + guestKeys, STANDARD_KEYS + KeysOf(custom))
  }

  /** The answer, and the state after it, are what the handler registered under the key makes of the request. */
  ghost predicate RunBy<A(!new)>(handlers: seq<Handler<A>>, key: string, request: Request, state: A, next: A,
                                 answer: Response) {
    exists h :: h in handlers && h.key == key && (next, answer) == h.run(state, request)
  }

  lemma RecutIsSame(r: Request)
    requires ':' !in r.namespace
    ensures Recut(r) == r
  {
    SplitOfKey(r.namespace, r.requestType);
  }

  lemma InquiryKey(my: seq<string>)
    ensures KeyOf(Inquiry(my)) == HANDLED_KEYS[1] && Recut(Inquiry(my)) == Inquiry(my)
  {
    RecutIsSame(Inquiry(my));
    assert Key("c", "protocols") == "c:protocols";
  }

  /** The inquiry runs the `c:protocols` handler, and is answered with the advertised keys. */
  lemma InquiryRunsTheProtocolsHandler<A(!new)>(cfg: RpcChannel.Config<A>, standard: seq<Handler<A>>,
                                                custom: seq<Handler<A>>, my: seq<string>, state: A)
    requires Serves(cfg, standard, custom)
    ensures cfg.dispatch(state, Recut(Inquiry(my))) ==
              (state, Response(0, Advertisement(STANDARD_KEYS + KeysOf(custom))))
    ensures RunBy(standard + custom, "c:protocols", Inquiry(my), state, state,
                  Response(0, Advertisement(STANDARD_KEYS + KeysOf(custom))))
  {
    InquiryKey(my);
    assert standard[1].key == KeysOf(standard)[1];
    assert (standard + custom)[1] == standard[1];
    StartedKeysAreDistinct(standard, custom);
    NoHandlerIsShadowed(standard + custom);
  }

  /** A key some handler is registered under. */
  ghost predicate Handled<A>(standard: seq<Handler<A>>, custom: seq<Handler<A>>, key: string) {
    ':' in key && key in KeysOf(standard + custom)
  }

  lemma CallRunsItsHandler<A(!new)>(cfg: RpcChannel.Config<A>, standard: seq<Handler<A>>, custom: seq<Handler<A>>,
                                    call: Call, state: A)
    requires Serves(cfg, standard, custom) && Handled(standard, custom, call.key)
    ensures
      var request := RequestFor(call.key, call.body);
      var (next, answer) := cfg.dispatch(state, Recut(request));
      RunBy(standard + custom, call.key, request, state, next, answer)
  {
    var handlers, request := standard + custom, RequestFor(call.key, call.body);
    RecutIsSame(request);
    assert KeyOf(request) == call.key;
    StartedKeysAreDistinct(standard, custom);
    NoHandlerIsShadowed(handlers);
    var i :| 0 <= i < |KeysOf(handlers)| && KeysOf(handlers)[i] == call.key;
    assert handlers[i] in handlers && handlers[i].key == call.key;
  }

  /** The one advertised key without a handler. */
  lemma EasytierCallIsRefused<A(!new)>(cfg: RpcChannel.Config<A>, standard: seq<Handler<A>>, custom: seq<Handler<A>>,
                                       body: seq<byte>, state: A)
    requires Serves(cfg, standard, custom)
    ensures
      var (next, answer) := cfg.dispatch(state, Recut(RequestFor(EASYTIER_KEY, body)));
      Refused(EASYTIER_KEY, state, next, answer)
  {
    var request := RequestFor(EASYTIER_KEY, body);
    assert EASYTIER_KEY[1] == ':';
    RecutIsSame(request);
    StartedKeysAreDistinct(standard, custom);
    UnknownKeyIsRefused(standard + custom, state, request);
  }

  /** Negotiated keys have handlers, all but one. */
  lemma NegotiatedIsHandled<A(!new)>(cfg: RpcChannel.Config<A>, standard: seq<Handler<A>>, custom: seq<Handler<A>>,
                                     guestKeys: seq<string>, key: string)
    requires Serves(cfg, standard, custom)
    requires ':' in key && key in Negotiated(guestKeys, custom) && key != EASYTIER_KEY
    ensures Handled(standard, custom, key)
  {
    NegotiationAgreesWithTable(standard, custom, guestKeys);
    AdvertisementArrivesWhole(custom);
    StartedKeysAreDistinct(standard, custom);
    NoHandlerIsShadowed(standard + custom);
  }

  lemma PingIsHandled<A(!new)>(cfg: RpcChannel.Config<A>, standard: seq<Handler<A>>, custom: seq<Handler<A>>)
    requires Serves(cfg, standard, custom)
    ensures Handled(standard, custom, PING_KEY)
  {
    StartedKeysAreDistinct(standard, custom);
    assert PING_KEY[1] == ':' && HANDLED_KEYS[3] == PING_KEY;
    assert (HANDLED_KEYS + KeysOf(custom))[3] == PING_KEY;
  }

  lemma AdvertisementArrivesWhole<A>(custom: seq<Handler<A>>)
    requires forall key :: key in KeysOf(custom) ==> '\0' !in key
    ensures ReadAdvertisement(Advertisement(STANDARD_KEYS + KeysOf(custom))) == STANDARD_KEYS + KeysOf(custom)
  {
    StandardKeys();
    AdvertisementArrives(STANDARD_KEYS + KeysOf(custom));
  }

  /** The guest pings, asks for the keys, then calls what it has negotiated, pings included. */
  ghost predicate Session<A(!new)>(cfg: RpcChannel.Config<A>, guestKeys: seq<string>, custom: seq<Handler<A>>,
                                   ping: seq<byte>, calls: seq<Call>) {
    && cfg.requests == [RequestFor(PING_KEY, ping), Inquiry(STANDARD_KEYS + guestKeys)] + CallRequests(calls)
    && forall call :: call in calls ==>
         ':' in call.key && call.key in Negotiated(guestKeys, custom)
  }

  /** Call number `i` of a session, the inquiry aside. */
  function CallAt(ping: seq<byte>, calls: seq<Call>, i: nat): Call
    requires i != 1 && i < 2 + |calls|
  {
    if i == 0 then Call(PING_KEY, ping) else calls[i - 2]
  }

  lemma SentAsCalled<A(!new)>(cfg: RpcChannel.Config<A>, guestKeys: seq<string>, custom: seq<Handler<A>>,
                              ping: seq<byte>, calls: seq<Call>, i: nat)
    requires Session(cfg, guestKeys, custom, ping, calls) && i != 1 && i < 2 + |calls|
    ensures |cfg.requests| == 2 + |calls|
    ensures cfg.requests[i] == RequestFor(CallAt(ping, calls, i).key, CallAt(ping, calls, i).body)
  {
    if i >= 2 {
      assert cfg.requests[i] == CallRequests(calls)[i - 2];
    }
  }

  /** How a send of a session is served. The inquiry runs the `c:protocols` handler and lets the guest negotiate exactly
      the common keys; every other call runs the handler registered under its key; but there is none for
      `c:player_easytier_id`. */
  ghost predicate Served<A(!new)>(standard: seq<Handler<A>>, custom: seq<Handler<A>>, guestKeys: seq<string>,
                                  ping: seq<byte>, calls: seq<Call>, i: nat, state: A, next: A, answer: Response)
    requires i < 2 + |calls|
  {
    var handlers := standard + custom;
    if i == 1 then
      && RunBy(handlers, "c:protocols", Inquiry(STANDARD_KEYS + guestKeys), state, next, answer)
      && answer.status == 0
      && Negotiate(STANDARD_KEYS + guestKeys, ReadAdvertisement(answer.body)) == Negotiated(guestKeys, custom)
    else
      var call := CallAt(ping, calls, i);
      if call.key == EASYTIER_KEY then Refused(call.key, state, next, answer)
      else RunBy(handlers, call.key, RequestFor(call.key, call.body), state, next, answer)
  }

  lemma InquiryIsServed<A(!new)>(cfg: RpcChannel.Config<A>, standard: seq<Handler<A>>, custom: seq<Handler<A>>,
                                 guestKeys: seq<string>, ping: seq<byte>, calls: seq<Call>, state: A)
    requires Serves(cfg, standard, custom) && Session(cfg, guestKeys, custom, ping, calls)
    ensures |cfg.requests| == 2 + |calls|
    ensures
      var (next, answer) := cfg.dispatch(state, Recut(cfg.requests[1]));
      Served(standard, custom, guestKeys, ping, calls, 1, state, next, answer)
  {
    assert cfg.requests[1] == Inquiry(STANDARD_KEYS + guestKeys);
    InquiryRunsTheProtocolsHandler(cfg, standard, custom, STANDARD_KEYS + guestKeys, state);
    AdvertisementArrivesWhole(custom);
  }

  lemma CallIsServed<A(!new)>(cfg: RpcChannel.Config<A>, standard: seq<Handler<A>>, custom: seq<Handler<A>>,
                              guestKeys: seq<string>, ping: seq<byte>, calls: seq<Call>, i: nat, state: A)
    requires Serves(cfg, standard, custom) && Session(cfg, guestKeys, custom, ping, calls)
    requires i != 1 && i < 2 + |calls|
    ensures |cfg.requests| == 2 + |calls|
    ensures
      var (next, answer) := cfg.dispatch(state, Recut(cfg.requests[i]));
      Served(standard, custom, guestKeys, ping, calls, i, state, next, answer)
  {
    SentAsCalled(cfg, guestKeys, custom, ping, calls, i);
    var call := CallAt(ping, calls, i);
    if i == 0 {
      PingIsHandled(cfg, standard, custom);
    } else {
      assert call in calls;
    }
    if call.key == EASYTIER_KEY {
      EasytierCallIsRefused(cfg, standard, custom, call.body, state);
    } else {
      if i != 0 {
        NegotiatedIsHandled(cfg, standard, custom, guestKeys, call.key);
      }
      CallRunsItsHandler(cfg, standard, custom, call, state);
    }
  }

  /** A session from the guest's first ping and its key lists to the handlers and back, over byte FIFOs with any
      fragmentation: in every run without a failed send every send has been served, each in the state that the one
      before it has left, from the start state on; and the application stands where those dispatched have left it. */
  lemma SessionRunsTheHandlers<A(!new)>(cfg: RpcChannel.Config<A>, standard: seq<Handler<A>>, custom: seq<Handler<A>>,
                                        guestKeys: seq<string>, ping: seq<byte>, calls: seq<Call>,
                                        steps: seq<RpcChannel.Step>, s: RpcChannel.Net<A>)
    returns (states: seq<A>, answers: seq<Response>)
    requires Serves(cfg, standard, custom) && Session(cfg, guestKeys, custom, ping, calls) && cfg.FitsFrames()
    requires RpcChannel.RunsTo(cfg, RpcChannel.Initial(cfg), steps, s) && RpcChannel.NoneFailed(s)
    ensures |answers| == 2 + |calls| && |states| == 3 + |calls| && states[0] == cfg.start
    ensures forall i :: 0 <= i < 2 + |calls| ==>
              Served(standard, custom, guestKeys, ping, calls, i, states[i], states[i + 1], answers[i])
    ensures |s.returned| <= s.served <= |answers| && s.app == states[s.served]
    ensures forall i :: 0 <= i < |s.returned| ==> s.returned[i] == Some(answers[i])
  {
    states, answers := RpcChannel.ByteLevelRefinesCalls(cfg, steps, s);
    assert |cfg.requests| == 2 + |calls|;
    forall i | 0 <= i < 2 + |calls|
      ensures Served(standard, custom, guestKeys, ping, calls, i, states[i], states[i + 1], answers[i])
    {
      if i == 1 {
        InquiryIsServed(cfg, standard, custom, guestKeys, ping, calls, states[i]);
      } else {
        CallIsServed(cfg, standard, custom, guestKeys, ping, calls, i, states[i]);
      }
    }
  }
}
