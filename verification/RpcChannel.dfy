/** One guest and one connection task joined by two byte FIFOs. Bytes cross in pieces of any size. In every run
    without a failed `send` the pair behaves as an atomic remote call; with failed ones the answers lag behind by
    their number. */
module RpcChannel {
  import opened Common
  import opened Flows
  import opened Framing
  import opened ProtocolSerializer

  /** What the run is about: the center's dispatch on an application state, and the requests the guest sends in
      order. */
  datatype Config<!A(!new)> = Config(dispatch: (A, Request) -> (A, Response), start: A, requests: seq<Request>) {
    /** The requests, and the answers they get one after the other, fit their frames. */
    ghost predicate FitsFrames() {
      && (forall r :: r in requests ==> InLimits(r))
      && (forall k :: 0 <= k < |requests| ==> |Answer(k).body| < BODY_LIMIT)
    }

    /// The atomic remote call that the byte level is compared with.

    function AppAfter(k: nat): A
      requires k <= |requests|
    {
      if k == 0 then start else dispatch(AppAfter(k - 1), Recut(requests[k - 1])).0
    }

    function Answer(k: nat): Response
      requires k < |requests|
    {
      dispatch(AppAfter(k), Recut(requests[k])).1
    }
  }

  /** The frames of all requests and of their answers, and the answers. */
  datatype Script = Script(requests: seq<seq<byte>>, frames: seq<seq<byte>>, answers: seq<Response>) {
    predicate Even() {
      |requests| == |frames| == |answers|
    }
  }

  function ScriptOf<A(!new)>(cfg: Config<A>): (w: Script)
    ensures w.Even() && |w.requests| == |cfg.requests|
    ensures forall k :: 0 <= k < |cfg.requests| ==> w.requests[k] == EncodeRequest(cfg.requests[k])
    ensures forall k :: 0 <= k < |cfg.requests| ==> w.frames[k] == EncodeResponse(cfg.Answer(k))
    ensures forall k :: 0 <= k < |cfg.requests| ==> w.answers[k] == cfg.Answer(k)
  {
    var n := |cfg.requests|;
    Script(seq(n, k requires 0 <= k < n => EncodeRequest(cfg.requests[k])),
           seq(n, k requires 0 <= k < n => EncodeResponse(cfg.Answer(k))),
           seq(n, k requires 0 <= k < n => cfg.Answer(k)))
  }

  /** The requests run one after the other as atomic calls: each on the state the one before has left, from the start
      state on, and these are the states in between and the answers. */
  ghost predicate AreCalls<A(!new)>(cfg: Config<A>, states: seq<A>, answers: seq<Response>) {
    && |answers| == |cfg.requests| && |states| == |cfg.requests| + 1 && states[0] == cfg.start
    && forall k :: 0 <= k < |cfg.requests| ==>
         (states[k + 1], answers[k]) == cfg.dispatch(states[k], Recut(cfg.requests[k]))
  }

  lemma AnswersAreCalls<A(!new)>(cfg: Config<A>) returns (states: seq<A>)
    ensures AreCalls(cfg, states, ScriptOf(cfg).answers)
    ensures forall k :: 0 <= k <= |cfg.requests| ==> states[k] == cfg.AppAfter(k)
  {
    var n := |cfg.requests|;
    states := seq(n + 1, k requires 0 <= k < n + 1 => cfg.AppAfter(k));
  }

  /** The guest inside `send`: still writing `rest`, or reading an answer of which it has `got` a part. */
  datatype Client = Idle | Sending(rest: seq<byte>) | Awaiting(got: seq<byte>)

  /** The connection task: reading a request of which it has `got` a part, or writing `rest` of an answer. */
  datatype Server = Listening(got: seq<byte>) | Replying(rest: seq<byte>)

  /** `begun` sends have been started; those finished returned a response, or None for an error. The center has
      dispatched `served` requests (history that no step looks at). */
  datatype Net<A> = Net(begun: nat, client: Client, up: seq<byte>, server: Server, app: A, down: seq<byte>, served: nat,
                        returned: seq<Option<Response>>)

  datatype Step =
    | Begin
    | ClientWrites(n: nat)
    | ServerReads(n: nat)
    | Dispatch
    | ServerWrites(n: nat)
    | ClientReads(n: nat)
    | Return
    | Fail

  /** Bytes the pending `read_exact` of the request reader still asks for: length byte, type, length, body. */
  function RequestWant(got: seq<byte>): nat {
    if |got| < 1 then 1 else
      var n := got[0] as int;
      if |got| < 1 + n then 1 + n - |got|
      else if |got| < 5 + n then 5 + n - |got|
      else
        var total := 5 + n + U32Value(got[1 + n..5 + n]);
        if |got| < total then total - |got| else 0
  }

  function ResponseWant(got: seq<byte>): nat {
    if |got| < 1 then 1
    else if |got| < 5 then 5 - |got|
    else
      var total := 5 + U32Value(got[1..5]);
      if |got| < total then total - |got| else 0
  }

  function Initial<A(!new)>(cfg: Config<A>): Net<A> {
    Net(0, Idle, [], Listening([]), cfg.start, [], 0, [])
  }

  predicate Enabled<A(!new)>(cfg: Config<A>, s: Net<A>, step: Step) {
    match step
    case Begin => s.client.Idle? && s.begun < |cfg.requests|
    case ClientWrites(n) => s.client.Sending? && 1 <= n <= |s.client.rest|
    case ServerReads(n) => s.server.Listening? && 1 <= n <= |s.up| && n <= RequestWant(s.server.got)
    case Dispatch => s.server.Listening? && DecodeRequest(s.server.got).Complete?
    case ServerWrites(n) => s.server.Replying? && 1 <= n <= |s.server.rest|
    case ClientReads(n) => s.client.Awaiting? && 1 <= n <= |s.down| && n <= ResponseWant(s.client.got)
    case Return => s.client.Awaiting? && DecodeResponse(s.client.got).Complete?
    case Fail => !s.client.Idle?
  }

  /** One step. A failed or timed-out send forgets what it has read and keeps the connection. */
  function Apply<A(!new)>(cfg: Config<A>, s: Net<A>, step: Step): Net<A>
    requires Enabled(cfg, s, step)
  {
    match step
    case Begin => s.(begun := s.begun + 1, client := Sending(EncodeRequest(cfg.requests[s.begun])))
    case ClientWrites(n) =>
      var rest := s.client.rest[n..];
      s.(client := if rest == [] then Awaiting([]) else Sending(rest), up := s.up + s.client.rest[..n])
    case ServerReads(n) => s.(server := Listening(s.server.got + s.up[..n]), up := s.up[n..])
    case Dispatch =>
      var (app, response) := cfg.dispatch(s.app, DecodeRequest(s.server.got).value);
      s.(server := Replying(EncodeResponse(response)), app := app, served := s.served + 1)
    case ServerWrites(n) =>
      var rest := s.server.rest[n..];
      s.(server := if rest == [] then Listening([]) else Replying(rest), down := s.down + s.server.rest[..n])
    case ClientReads(n) => s.(client := Awaiting(s.client.got + s.down[..n]), down := s.down[n..])
    case Return => s.(client := Idle, returned := s.returned + [Some(DecodeResponse(s.client.got).value)])
    case Fail => s.(client := Idle, returned := s.returned + [None])
  }

  ghost predicate RunsTo<A(!new)>(cfg: Config<A>, s: Net<A>, steps: seq<Step>, t: Net<A>)
    decreases |steps|
  {
    if steps == [] then s == t
    else Enabled(cfg, s, steps[0]) && RunsTo(cfg, Apply(cfg, s, steps[0]), steps[1..], t)
  }

  predicate NoneFailed<A>(s: Net<A>) {
    None !in s.returned
  }

  /** A send that fails does so with its request written and nothing of an answer read, as when the answer is late. */
  predicate Clean<A>(s: Net<A>, step: Step) {
    step.Fail? ==> s.client == Awaiting([])
  }

  ghost predicate CleanRun<A(!new)>(cfg: Config<A>, s: Net<A>, steps: seq<Step>, t: Net<A>)
    decreases |steps|
  {
    if steps == [] then s == t
    else
      && Enabled(cfg, s, steps[0]) && Clean(s, steps[0])
      && CleanRun(cfg, Apply(cfg, s, steps[0]), steps[1..], t)
  }

  /// ## Frames in transit

  /** What the guest has still to write, and the center. */
  function ToWrite(client: Client): seq<byte> {
    if client.Sending? then client.rest else []
  }

  function ToAnswer(server: Server): seq<byte> {
    if server.Replying? then server.rest else []
  }

  /** What the center has read of a request, and the guest of an answer. */
  function TaskGot(server: Server): seq<byte> {
    if server.Listening? then server.got else []
  }

  function GuestGot(client: Client): seq<byte> {
    if client.Awaiting? then client.got else []
  }

  /// ## How far the answers lag behind

  /** Sends that have failed. */
  function Failures(returned: seq<Option<Response>>): (n: nat)
    ensures n <= |returned|
  {
    if returned == [] then 0 else
      Failures(returned[..|returned| - 1]) + if returned[|returned| - 1].None? then 1 else 0
  }

  lemma FailuresOfOneMore(returned: seq<Option<Response>>, next: Option<Response>)
    ensures Failures(returned + [next]) == Failures(returned) + if next.None? then 1 else 0
  {
    assert (returned + [next])[..|returned|] == returned;
  }

  lemma {:induction false} NoFailures(returned: seq<Option<Response>>)
    ensures Failures(returned) == 0 <==> None !in returned
  {
    if returned == [] {
    } else {
      var last := |returned| - 1;
      NoFailures(returned[..last]);
      assert returned == returned[..last] + [returned[last]];
    }
  }

  /** A send that returned an answer got that of the request as many places before its own as sends had failed. */
  ghost predicate Lagging(answers: seq<Response>, returned: seq<Option<Response>>)
    requires |returned| <= |answers|
  {
    if returned == [] then true else
      var last := |returned| - 1;
      && Lagging(answers, returned[..last])
      && (returned[last].Some? ==> returned[last] == Some(answers[last - Failures(returned[..last])]))
  }

  lemma {:induction false} LaggingAt(answers: seq<Response>, returned: seq<Option<Response>>, i: nat)
    requires |returned| <= |answers| && Lagging(answers, returned) && i < |returned| && returned[i].Some?
    ensures returned[i] == Some(answers[i - Failures(returned[..i])])
  {
    var last := |returned| - 1;
    if i < last {
      LaggingAt(answers, returned[..last], i);
      assert returned[..last][..i] == returned[..i];
    }
  }

  lemma OneMoreReturned(answers: seq<Response>, returned: seq<Option<Response>>, next: Option<Response>)
    requires |returned| < |answers| && Lagging(answers, returned)
    requires next.Some? ==> next == Some(answers[|returned| - Failures(returned)])
    ensures Lagging(answers, returned + [next])
  {
    assert (returned + [next])[..|returned|] == returned;
  }

  /** Bytes of the call in flight, in the order they will be read. */
  function InFlight<A>(s: Net<A>): seq<byte> {
    (s.up + ToWrite(s.client)) + (s.down + ToAnswer(s.server))
  }

  /** Answers the guest has taken. */
  function Taken<A>(s: Net<A>): nat {
    |s.returned| - Failures(s.returned)
  }

  /** Requests begun but not dispatched are on their way up, answers dispatched but not taken are on their way down, and
      answers taken have been paired as failures allow. */
  ghost predicate Paced<A>(w: Script, s: Net<A>)
    requires w.Even()
  {
    && Taken(s) <= s.served <= s.begun <= |w.requests|
    && s.begun == |s.returned| + (if s.client.Idle? then 0 else 1)
    && (s.client.Sending? ==> s.client.rest != []) && (s.server.Replying? ==> s.server.rest != [])
    && Flow(TaskGot(s.server), s.up, ToWrite(s.client), w.requests[s.served..s.begun])
    && Flow(GuestGot(s.client), s.down, ToAnswer(s.server), w.frames[Taken(s)..s.served])
    && Lagging(w.answers, s.returned)
  }

  /// ## Moves of bytes and frames, whatever these hold

  lemma PacedBegin<A>(w: Script, s: Net<A>, t: Net<A>)
    requires w.Even() && Paced(w, s) && s.client.Idle? && s.begun < |w.requests| && w.requests[s.begun] != []
    requires t == s.(begun := s.begun + 1, client := Sending(w.requests[s.begun]))
    ensures Paced(w, t)
  {
    LastSliceAdded(TaskGot(s.server), s.up, w.requests, s.served, s.begun);
  }

  lemma PacedClientWrites<A>(w: Script, s: Net<A>, t: Net<A>, n: nat)
    requires w.Even() && Paced(w, s) && s.client.Sending? && n <= |s.client.rest|
    requires t == s.(up := s.up + s.client.rest[..n], client := t.client) && !t.client.Idle?
    requires ToWrite(t.client) == s.client.rest[n..] && GuestGot(t.client) == []
    requires t.client.Sending? ==> t.client.rest != []
    ensures Paced(w, t)
  {
    BytesAreWritten(TaskGot(s.server), s.up, s.client.rest, w.requests[s.served..s.begun], n);
  }

  lemma PacedServerReads<A>(w: Script, s: Net<A>, t: Net<A>, n: nat)
    requires w.Even() && Paced(w, s) && s.server.Listening? && n <= |s.up|
    requires s.served < s.begun && |s.server.got| + n <= |w.requests[s.served]|
    requires t == s.(server := Listening(s.server.got + s.up[..n]), up := s.up[n..])
    ensures Paced(w, t)
  {
    SliceOneLess(w.requests, s.served, s.begun);
    BytesAreRead(s.server.got, s.up, ToWrite(s.client), w.requests[s.served..s.begun], n);
  }

  lemma PacedDispatch<A>(w: Script, s: Net<A>, t: Net<A>)
    requires w.Even() && Paced(w, s) && s.served < s.begun && s.server == Listening(w.requests[s.served])
    requires w.frames[s.served] != []
    requires t == s.(server := Replying(w.frames[s.served]), app := t.app, served := s.served + 1)
    ensures Paced(w, t)
  {
    FirstSliceDone(s.server.got, s.up, ToWrite(s.client), w.requests, s.served, s.begun);
    LastSliceAdded(GuestGot(s.client), s.down, w.frames, Taken(s), s.served);
  }

  lemma PacedServerWrites<A>(w: Script, s: Net<A>, t: Net<A>, n: nat)
    requires w.Even() && Paced(w, s) && s.server.Replying? && n <= |s.server.rest|
    requires t == s.(down := s.down + s.server.rest[..n], server := t.server)
    requires ToAnswer(t.server) == s.server.rest[n..] && TaskGot(t.server) == []
    requires t.server.Replying? ==> t.server.rest != []
    ensures Paced(w, t)
  {
    BytesAreWritten(GuestGot(s.client), s.down, s.server.rest, w.frames[Taken(s)..s.served], n);
  }

  lemma PacedClientReads<A>(w: Script, s: Net<A>, t: Net<A>, n: nat)
    requires w.Even() && Paced(w, s) && s.client.Awaiting? && n <= |s.down|
    requires Taken(s) < s.served && |s.client.got| + n <= |w.frames[Taken(s)]|
    requires t == s.(client := Awaiting(s.client.got + s.down[..n]), down := s.down[n..])
    ensures Paced(w, t)
  {
    SliceOneLess(w.frames, Taken(s), s.served);
    BytesAreRead(s.client.got, s.down, ToAnswer(s.server), w.frames[Taken(s)..s.served], n);
  }

  lemma PacedReturn<A>(w: Script, s: Net<A>, t: Net<A>)
    requires w.Even() && Paced(w, s) && Taken(s) < s.served && s.client == Awaiting(w.frames[Taken(s)])
    requires t == s.(client := Idle, returned := s.returned + [Some(w.answers[Taken(s)])])
    ensures Paced(w, t)
  {
    FirstSliceDone(s.client.got, s.down, ToAnswer(s.server), w.frames, Taken(s), s.served);
    FailuresOfOneMore(s.returned, Some(w.answers[Taken(s)]));
    OneMoreReturned(w.answers, s.returned, Some(w.answers[Taken(s)]));
  }

  lemma PacedFail<A>(w: Script, s: Net<A>, t: Net<A>)
    requires w.Even() && Paced(w, s) && s.client == Awaiting([])
    requires t == s.(client := Idle, returned := s.returned + [None])
    ensures Paced(w, t)
  {
    FailuresOfOneMore(s.returned, None);
    OneMoreReturned(w.answers, s.returned, None);
  }

  /** What the center has read is a part of the first request not dispatched, and there is one if anything arrives. */
  lemma ReadingRequest<A>(w: Script, s: Net<A>)
    requires w.Even() && Paced(w, s) && s.server.Listening? && (s.server.got != [] || s.up != [])
    ensures s.served < s.begun && s.server.got <= w.requests[s.served]
  {
    NoFrames(s.server.got, s.up, ToWrite(s.client), w.requests[s.served..s.begun]);
    if s.served < s.begun {
      SliceOneLess(w.requests, s.served, s.begun);
    }
  }

  /** What the guest has read is a part of the first answer not taken, and there is one if anything arrives. */
  lemma ReadingAnswer<A>(w: Script, s: Net<A>)
    requires w.Even() && Paced(w, s) && s.client.Awaiting? && (s.client.got != [] || s.down != [])
    ensures Taken(s) < s.served && s.client.got <= w.frames[Taken(s)]
  {
    NoFrames(s.client.got, s.down, ToAnswer(s.server), w.frames[Taken(s)..s.served]);
    if Taken(s) < s.served {
      SliceOneLess(w.frames, Taken(s), s.served);
    }
  }

  lemma NothingGoesUp<A>(w: Script, s: Net<A>)
    requires w.Even() && Paced(w, s) && s.served == s.begun
    ensures InFlight(s) == s.down + ToAnswer(s.server)
  {
    NoFrames(TaskGot(s.server), s.up, ToWrite(s.client), w.requests[s.served..s.begun]);
  }

  lemma NothingComesDown<A>(w: Script, s: Net<A>)
    requires w.Even() && Paced(w, s) && s.served == Taken(s)
    ensures InFlight(s) == s.up + ToWrite(s.client) && s.down == [] && ToAnswer(s.server) == []
  {
    NoFrames(GuestGot(s.client), s.down, ToAnswer(s.server), w.frames[Taken(s)..s.served]);
  }

  /** What is in flight when no send has failed: nothing between two calls, a part of one frame during one. */
  ghost predicate OneFrameInFlight<A>(w: Script, s: Net<A>)
    requires w.Even()
  {
    var k := |s.returned|;
    && k <= s.begun <= k + 1 && s.begun <= |w.requests|
    && (s.begun == k ==> InFlight(s) == [])
    && (s.begun > k ==> IsSuffix(InFlight(s), w.requests[k]) || IsSuffix(InFlight(s), w.frames[k]))
  }

  lemma FlightUp<A>(w: Script, s: Net<A>, k: nat)
    requires w.Even() && Paced(w, s) && Taken(s) == s.served == k && s.begun == k + 1
    ensures IsSuffix(InFlight(s), w.requests[k])
  {
    NothingComesDown(w, s);
    SliceOneLess(w.requests, k, k + 1);
    SuffixOfOne(TaskGot(s.server), s.up, ToWrite(s.client), w.requests[k..k + 1]);
  }

  lemma FlightDown<A>(w: Script, s: Net<A>, k: nat)
    requires w.Even() && Paced(w, s) && Taken(s) == k && s.served == s.begun == k + 1
    ensures IsSuffix(InFlight(s), w.frames[k])
  {
    NothingGoesUp(w, s);
    SliceOneLess(w.frames, k, k + 1);
    SuffixOfOne(GuestGot(s.client), s.down, ToAnswer(s.server), w.frames[k..k + 1]);
  }

  lemma FlightOfOneCall<A>(w: Script, s: Net<A>)
    requires w.Even() && Paced(w, s) && Failures(s.returned) == 0
    ensures OneFrameInFlight(w, s)
  {
    var k := |s.returned|;
    if s.begun == k {
      NothingComesDown(w, s);
      NothingGoesUp(w, s);
    } else if s.served == k {
      FlightUp(w, s, k);
    } else {
      FlightDown(w, s, k);
    }
  }

  /// ## The steps

  /** The state of the application is that of the calls dispatched so far, and the frames are those of the script. */
  ghost predicate Lags<A(!new)>(cfg: Config<A>, s: Net<A>) {
    Paced(ScriptOf(cfg), s) && s.app == cfg.AppAfter(s.served)
  }

  lemma StartLags<A(!new)>(cfg: Config<A>)
    ensures Lags(cfg, Initial(cfg))
  {
    NothingFlows(ScriptOf(cfg).requests[0..0]);
    NothingFlows(ScriptOf(cfg).frames[0..0]);
  }

  lemma WantOfPart(frame: seq<byte>, got: seq<byte>, n: nat, bodyLen: nat)
    requires got <= frame && |frame| == 5 + n + bodyLen
    requires frame[0] as int == n && U32Value(frame[1 + n..5 + n]) == bodyLen
    ensures RequestWant(got) <= |frame| - |got| && (RequestWant(got) == 0 <==> got == frame)
  {
    if |got| >= 5 + n {
      assert got[1 + n..5 + n] == frame[1 + n..5 + n];
    }
  }

  lemma FrameNumbers(r: Request)
    requires InLimits(r)
    ensures
      var frame, n := EncodeRequest(r), |KeyOf(r)|;
      && |frame| == 5 + n + |r.body| && frame[0] as int == n && U32Value(frame[1 + n..5 + n]) == |r.body|
  {
    assert EncodeRequest(r) + [] == EncodeRequest(r);
    FrameParts(r, []);
  }

  /** The pending read of a request never asks for more than its frame, and for nothing once all of it is there. */
  lemma WantsTheRest(r: Request, got: seq<byte>)
    requires InLimits(r) && got <= EncodeRequest(r)
    ensures RequestWant(got) <= |EncodeRequest(r)| - |got|
    ensures RequestWant(got) == 0 <==> got == EncodeRequest(r)
  {
    var frame := EncodeRequest(r);
    FrameNumbers(r);
    WantOfPart(frame, got, |KeyOf(r)|, |r.body|);
  }

  lemma WantsTheRestOfAnswer(r: Response, got: seq<byte>)
    requires |r.body| < BODY_LIMIT && got <= EncodeResponse(r)
    ensures ResponseWant(got) <= |EncodeResponse(r)| - |got|
    ensures ResponseWant(got) == 0 <==> got == EncodeResponse(r)
  {
    var frame := EncodeResponse(r);
    assert frame[1..5] == U32Bytes(|r.body|);
    U32RoundTrip(|r.body|);
    if |got| >= 5 {
      assert got[1..5] == frame[1..5];
    }
  }

  /** A read ends at the next of these places. */
  predicate ReadsTo(at: nat, want: nat, ends: seq<nat>) {
    at + want in ends && forall e :: e in ends && e > at ==> e >= at + want
  }

  lemma FieldOfPart(frame: seq<byte>, got: seq<byte>, n: nat, bodyLen: nat, ends: seq<nat>)
    requires got <= frame && |frame| == 5 + n + bodyLen && ends == [1, 1 + n, 5 + n, |frame|]
    requires frame[0] as int == n && U32Value(frame[1 + n..5 + n]) == bodyLen
    ensures ReadsTo(|got|, RequestWant(got), ends)
  {
    if |got| >= 5 + n {
      assert got[1 + n..5 + n] == frame[1 + n..5 + n];
    }
    assert ends[0] == 1 && ends[1] == 1 + n && ends[2] == 5 + n && ends[3] == |frame|;
  }

  /** A request is read field by field, as `read_exact` is called for each: its length byte, its type, the body's
      length, the body. */
  lemma RequestIsReadByField(r: Request, got: seq<byte>)
    requires InLimits(r) && got <= EncodeRequest(r)
    ensures
      var n := |KeyOf(r)|;
      ReadsTo(|got|, RequestWant(got), [1, 1 + n, 5 + n, |EncodeRequest(r)|])
  {
    var frame, n := EncodeRequest(r), |KeyOf(r)|;
    FrameNumbers(r);
    FieldOfPart(frame, got, n, |r.body|, [1, 1 + n, 5 + n, |frame|]);
  }

  lemma FieldOfAnswer(frame: seq<byte>, got: seq<byte>, bodyLen: nat, ends: seq<nat>)
    requires got <= frame && |frame| == 5 + bodyLen && ends == [1, 5, |frame|] && U32Value(frame[1..5]) == bodyLen
    ensures ReadsTo(|got|, ResponseWant(got), ends)
  {
    if |got| >= 5 {
      assert got[1..5] == frame[1..5];
    }
    assert ends[0] == 1 && ends[1] == 5 && ends[2] == |frame|;
  }

  /** A response likewise: its status, the body's length, the body. */
  lemma ResponseIsReadByField(r: Response, got: seq<byte>)
    requires |r.body| < BODY_LIMIT && got <= EncodeResponse(r)
    ensures ReadsTo(|got|, ResponseWant(got), [1, 5, |EncodeResponse(r)|])
  {
    var frame := EncodeResponse(r);
    assert frame[1..5] == U32Bytes(|r.body|);
    U32RoundTrip(|r.body|);
    FieldOfAnswer(frame, got, |r.body|, [1, 5, |frame|]);
  }

  /** What decodes at the front of a frame is the frame. */
  lemma WholeRequest(r: Request, got: seq<byte>)
    requires InLimits(r) && got <= EncodeRequest(r)
    ensures DecodeRequest(got).Complete? <==> got == EncodeRequest(r)
    ensures got == EncodeRequest(r) ==> DecodeRequest(got) == Complete(Recut(r), |got|)
  {
    var frame := EncodeRequest(r);
    if |got| < |frame| {
      NoPrefixDecodes(r, |got|);
      assert got == frame[..|got|];
    } else {
      assert got == frame && frame + [] == frame;
      DecodeInLimits(r, []);
    }
  }

  lemma WholeResponse(r: Response, got: seq<byte>)
    requires |r.body| < BODY_LIMIT && got <= EncodeResponse(r)
    ensures DecodeResponse(got).Complete? <==> got == EncodeResponse(r)
    ensures got == EncodeResponse(r) ==> DecodeResponse(got) == Complete(r, |got|)
  {
    var frame := EncodeResponse(r);
    if |got| < |frame| {
      NoResponsePrefixDecodes(r, |got|);
      assert got == frame[..|got|];
    } else {
      assert got == frame && frame + [] == frame;
      ResponseRoundTrip(r, []);
    }
  }

  lemma BeginStep<A(!new)>(cfg: Config<A>, s: Net<A>)
    requires Lags(cfg, s) && Enabled(cfg, s, Begin)
    ensures Lags(cfg, Apply(cfg, s, Begin))
  {
    PacedBegin(ScriptOf(cfg), s, Apply(cfg, s, Begin));
  }

  lemma ClientWritesStep<A(!new)>(cfg: Config<A>, s: Net<A>, n: nat)
    requires Lags(cfg, s) && Enabled(cfg, s, ClientWrites(n))
    ensures Lags(cfg, Apply(cfg, s, ClientWrites(n)))
  {
    PacedClientWrites(ScriptOf(cfg), s, Apply(cfg, s, ClientWrites(n)), n);
  }

  lemma ServerReadsStep<A(!new)>(cfg: Config<A>, s: Net<A>, n: nat)
    requires cfg.FitsFrames() && Lags(cfg, s) && Enabled(cfg, s, ServerReads(n))
    ensures Lags(cfg, Apply(cfg, s, ServerReads(n)))
  {
    ReadingRequest(ScriptOf(cfg), s);
    WantsTheRest(cfg.requests[s.served], s.server.got);
    PacedServerReads(ScriptOf(cfg), s, Apply(cfg, s, ServerReads(n)), n);
  }

  /** A request is dispatched only once all of its frame is there, and then as the guest sent it. */
  lemma DispatchDecodes<A(!new)>(cfg: Config<A>, s: Net<A>)
    requires cfg.FitsFrames() && Lags(cfg, s) && Enabled(cfg, s, Dispatch)
    ensures s.served < s.begun <= |cfg.requests|
    ensures DecodeRequest(s.server.got).value == Recut(cfg.requests[s.served])
    ensures s.server.got == ScriptOf(cfg).requests[s.served]
  {
    ReadingRequest(ScriptOf(cfg), s);
    WholeRequest(cfg.requests[s.served], s.server.got);
  }

  lemma DispatchedNet<A(!new)>(cfg: Config<A>, s: Net<A>, t: Net<A>)
    requires Enabled(cfg, s, Dispatch) && t == Apply(cfg, s, Dispatch) && s.served < |cfg.requests|
    requires s.app == cfg.AppAfter(s.served) && DecodeRequest(s.server.got).value == Recut(cfg.requests[s.served])
    ensures t == s.(server := t.server, app := cfg.AppAfter(s.served + 1), served := s.served + 1)
    ensures t.server == Replying(ScriptOf(cfg).frames[s.served]) && t.server.rest != []
  {
  }

  lemma DispatchedLags<A(!new)>(cfg: Config<A>, s: Net<A>, t: Net<A>)
    requires Lags(cfg, s) && s.served < s.begun <= |cfg.requests|
    requires s.server == Listening(ScriptOf(cfg).requests[s.served]) && ScriptOf(cfg).frames[s.served] != []
    requires t == s.(server := Replying(ScriptOf(cfg).frames[s.served]), app := cfg.AppAfter(s.served + 1),
                     served := s.served + 1)
    ensures Lags(cfg, t)
  {
    PacedDispatch(ScriptOf(cfg), s, t);
  }

  lemma DispatchStep<A(!new)>(cfg: Config<A>, s: Net<A>)
    requires cfg.FitsFrames() && Lags(cfg, s) && Enabled(cfg, s, Dispatch)
    ensures Lags(cfg, Apply(cfg, s, Dispatch))
  {
    DispatchDecodes(cfg, s);
    DispatchedNet(cfg, s, Apply(cfg, s, Dispatch));
    DispatchedLags(cfg, s, Apply(cfg, s, Dispatch));
  }

  lemma ServerWritesStep<A(!new)>(cfg: Config<A>, s: Net<A>, n: nat)
    requires Lags(cfg, s) && Enabled(cfg, s, ServerWrites(n))
    ensures Lags(cfg, Apply(cfg, s, ServerWrites(n)))
  {
    PacedServerWrites(ScriptOf(cfg), s, Apply(cfg, s, ServerWrites(n)), n);
  }

  lemma ClientReadsStep<A(!new)>(cfg: Config<A>, s: Net<A>, n: nat)
    requires cfg.FitsFrames() && Lags(cfg, s) && Enabled(cfg, s, ClientReads(n))
    ensures Lags(cfg, Apply(cfg, s, ClientReads(n)))
  {
    ReadingAnswer(ScriptOf(cfg), s);
    WantsTheRestOfAnswer(cfg.Answer(Taken(s)), s.client.got);
    PacedClientReads(ScriptOf(cfg), s, Apply(cfg, s, ClientReads(n)), n);
  }

  /** An answer is returned only once all of its frame is there, and it is the first one not yet taken. */
  lemma ReturnStep<A(!new)>(cfg: Config<A>, s: Net<A>)
    requires cfg.FitsFrames() && Lags(cfg, s) && Enabled(cfg, s, Return)
    ensures Lags(cfg, Apply(cfg, s, Return))
  {
    ReadingAnswer(ScriptOf(cfg), s);
    WholeResponse(cfg.Answer(Taken(s)), s.client.got);
    PacedReturn(ScriptOf(cfg), s, Apply(cfg, s, Return));
  }

  lemma FailStep<A(!new)>(cfg: Config<A>, s: Net<A>)
    requires Lags(cfg, s) && Enabled(cfg, s, Fail) && Clean(s, Fail)
    ensures Lags(cfg, Apply(cfg, s, Fail))
  {
    PacedFail(ScriptOf(cfg), s, Apply(cfg, s, Fail));
  }

  lemma StepLags<A(!new)>(cfg: Config<A>, s: Net<A>, step: Step)
    requires cfg.FitsFrames() && Lags(cfg, s) && Enabled(cfg, s, step) && Clean(s, step)
    ensures Lags(cfg, Apply(cfg, s, step))
  {
    match step
    case Begin => BeginStep(cfg, s);
    case ClientWrites(n) => ClientWritesStep(cfg, s, n);
    case ServerReads(n) => ServerReadsStep(cfg, s, n);
    case Dispatch => DispatchStep(cfg, s);
    case ServerWrites(n) => ServerWritesStep(cfg, s, n);
    case ClientReads(n) => ClientReadsStep(cfg, s, n);
    case Return => ReturnStep(cfg, s);
    case Fail => FailStep(cfg, s);
  }

  lemma {:induction false} RunLags<A(!new)>(cfg: Config<A>, s: Net<A>, steps: seq<Step>, t: Net<A>)
    requires cfg.FitsFrames() && Lags(cfg, s) && CleanRun(cfg, s, steps, t)
    ensures Lags(cfg, t)
    decreases |steps|
  {
    if steps == [] {
    } else {
      StepLags(cfg, s, steps[0]);
      RunLags(cfg, Apply(cfg, s, steps[0]), steps[1..], t);
    }
  }

  lemma ReturnedLag<A(!new)>(cfg: Config<A>, steps: seq<Step>, s: Net<A>)
    requires cfg.FitsFrames() && CleanRun(cfg, Initial(cfg), steps, s)
    ensures |s.returned| <= |cfg.requests| && Lagging(ScriptOf(cfg).answers, s.returned)
  {
    StartLags(cfg);
    RunLags(cfg, Initial(cfg), steps, s);
  }

  /** Each send that returned got the answer as many places before its own as sends had failed before it, which is its
      own if and only if none had. */
  ghost predicate LagsExactly(answers: seq<Response>, returned: seq<Option<Response>>) {
    && |returned| <= |answers|
    && forall i :: 0 <= i < |returned| && returned[i].Some? ==> LagsAt(answers, returned, i)
  }

  ghost predicate LagsAt(answers: seq<Response>, returned: seq<Option<Response>>, i: nat)
    requires i < |returned| <= |answers|
  {
    && returned[i] == Some(answers[i - Failures(returned[..i])])
    && (i - Failures(returned[..i]) == i <==> None !in returned[..i])
  }

  lemma LaggingIsExact(answers: seq<Response>, returned: seq<Option<Response>>)
    requires |returned| <= |answers| && Lagging(answers, returned)
    ensures LagsExactly(answers, returned)
  {
    forall i | 0 <= i < |returned| && returned[i].Some? ensures LagsAt(answers, returned, i) {
      LaggingAt(answers, returned, i);
      NoFailures(returned[..i]);
    }
  }

  /** Pairing: in every run whose failed sends had written their request and read nothing, a send that returns an
      answer returns that of the request as many places before its own as sends have failed before it; so it is the
      answer in its own place if and only if none has. The answers are those of atomic calls, and the application
      stands where the calls dispatched so far have left it. */
  lemma AnswersLagByFailures<A(!new)>(cfg: Config<A>, steps: seq<Step>, s: Net<A>)
    returns (states: seq<A>, answers: seq<Response>)
    requires cfg.FitsFrames() && CleanRun(cfg, Initial(cfg), steps, s)
    ensures AreCalls(cfg, states, answers) && LagsExactly(answers, s.returned)
    ensures s.served <= s.begun <= |cfg.requests| && s.app == states[s.served]
  {
    answers := ScriptOf(cfg).answers;
    states := AnswersAreCalls(cfg);
    StartLags(cfg);
    RunLags(cfg, Initial(cfg), steps, s);
    LaggingIsExact(answers, s.returned);
  }

  /** When no two requests get the same answer, a send returns its own answer if and only if none has failed before
      it. */
  lemma OwnAnswerExactly(answers: seq<Response>, returned: seq<Option<Response>>, i: nat)
    requires LagsExactly(answers, returned) && i < |returned| && returned[i].Some?
    requires forall j, k :: 0 <= j < k < |answers| ==> answers[j] != answers[k]
    ensures returned[i] == Some(answers[i]) <==> None !in returned[..i]
  {
    assert LagsAt(answers, returned, i);
  }

  /// ## Runs without a failed send

  lemma {:induction false} FailuresStay<A(!new)>(cfg: Config<A>, s: Net<A>, steps: seq<Step>, t: Net<A>)
    requires RunsTo(cfg, s, steps, t)
    ensures s.returned <= t.returned
    decreases |steps|
  {
    if steps == [] {
    } else {
      FailuresStay(cfg, Apply(cfg, s, steps[0]), steps[1..], t);
    }
  }

  lemma FailureShows<A(!new)>(cfg: Config<A>, s: Net<A>, steps: seq<Step>, t: Net<A>)
    requires Enabled(cfg, s, Fail) && RunsTo(cfg, Apply(cfg, s, Fail), steps, t)
    ensures None in t.returned
  {
    var next := Apply(cfg, s, Fail);
    FailuresStay(cfg, next, steps, t);
    assert next.returned[|s.returned|] in t.returned;
  }

  lemma {:induction false} UnfailedRunIsClean<A(!new)>(cfg: Config<A>, s: Net<A>, steps: seq<Step>, t: Net<A>)
    requires RunsTo(cfg, s, steps, t) && NoneFailed(t)
    ensures CleanRun(cfg, s, steps, t)
    decreases |steps|
  {
    if steps == [] {
    } else {
      if steps[0].Fail? {
        FailureShows(cfg, s, steps[1..], t);
        assert false;
      }
      UnfailedRunIsClean(cfg, Apply(cfg, s, steps[0]), steps[1..], t);
    }
  }

  lemma ReturnedInOrder(answers: seq<Response>, returned: seq<Option<Response>>, i: nat)
    requires |returned| <= |answers| && Lagging(answers, returned) && None !in returned && i < |returned|
    ensures returned[i] == Some(answers[i])
  {
    assert returned[i] in returned;
    NoFailures(returned[..i]);
    LaggingAt(answers, returned, i);
  }

  lemma AllReturnedInOrder(answers: seq<Response>, returned: seq<Option<Response>>)
    requires |returned| <= |answers| && Lagging(answers, returned) && None !in returned
    ensures forall i :: 0 <= i < |returned| ==> returned[i] == Some(answers[i])
  {
    forall i | 0 <= i < |returned| ensures returned[i] == Some(answers[i]) {
      ReturnedInOrder(answers, returned, i);
    }
  }

  /** Byte level refines atomic calls: in every run without a failed send, the i-th send returned what the dispatch
      makes of the i-th request in the state the requests before it have left, the application stands where those
      dispatched have left it, at most one request is outstanding, and the bytes in flight are a suffix of that
      request's frame or of its answer's. */
  lemma ByteLevelRefinesCalls<A(!new)>(cfg: Config<A>, steps: seq<Step>, s: Net<A>)
    returns (states: seq<A>, answers: seq<Response>)
    requires cfg.FitsFrames() && RunsTo(cfg, Initial(cfg), steps, s) && NoneFailed(s)
    ensures AreCalls(cfg, states, answers)
    ensures |s.returned| <= s.served <= s.begun <= |s.returned| + 1 && s.begun <= |cfg.requests|
    ensures s.app == states[s.served]
    ensures forall i :: 0 <= i < |s.returned| ==> s.returned[i] == Some(answers[i])
    ensures OneFrameInFlight(ScriptOf(cfg), s)
  {
    answers := ScriptOf(cfg).answers;
    states := AnswersAreCalls(cfg);
    UnfailedRunIsClean(cfg, Initial(cfg), steps, s);
    StartLags(cfg);
    RunLags(cfg, Initial(cfg), steps, s);
    AllReturnedInOrder(ScriptOf(cfg).answers, s.returned);
    NoFailures(s.returned);
    FlightOfOneCall(ScriptOf(cfg), s);
  }

  /// ## Progress

  /** What is left to do for answers not yet dispatched: each of their bytes has two hops. */
  function Undispatched(frames: seq<seq<byte>>): nat {
    if frames == [] then 0 else 1 + 2 * |frames[0]| + Undispatched(frames[1..])
  }

  lemma UndispatchedOneLess(all: seq<seq<byte>>, i: nat, j: nat)
    requires i < j <= |all|
    ensures Undispatched(all[i..j]) == 1 + 2 * |all[i]| + Undispatched(all[i + 1..j])
  {
    SliceOneLess(all, i, j);
  }

  /** Steps that can be made before the next send begins, at most. */
  function StepsLeft<A>(w: Script, s: Net<A>): nat
    requires w.Even() && s.served <= s.begun <= |w.requests|
  {
    2 * |ToWrite(s.client)| + |s.up| + Undispatched(w.frames[s.served..s.begun])
    + 2 * |ToAnswer(s.server)| + |s.down| + if s.client.Idle? then 0 else 1
  }

  lemma DispatchUsesSteps<A>(w: Script, s: Net<A>, t: Net<A>)
    requires w.Even() && s.served < s.begun <= |w.requests| && s.server.Listening?
    requires t == s.(server := Replying(w.frames[s.served]), app := t.app, served := s.served + 1)
    ensures StepsLeft(w, t) < StepsLeft(w, s)
  {
    UndispatchedOneLess(w.frames, s.served, s.begun);
  }

  lemma DispatchStepIsUsed<A(!new)>(cfg: Config<A>, s: Net<A>)
    requires cfg.FitsFrames() && Lags(cfg, s) && Enabled(cfg, s, Dispatch) && Lags(cfg, Apply(cfg, s, Dispatch))
    ensures StepsLeft(ScriptOf(cfg), Apply(cfg, s, Dispatch)) < StepsLeft(ScriptOf(cfg), s)
  {
    DispatchDecodes(cfg, s);
    DispatchedNet(cfg, s, Apply(cfg, s, Dispatch));
    DispatchUsesSteps(ScriptOf(cfg), s, Apply(cfg, s, Dispatch));
  }

  lemma TransferUsesSteps<A(!new)>(cfg: Config<A>, s: Net<A>, step: Step)
    requires Lags(cfg, s) && Enabled(cfg, s, step) && Lags(cfg, Apply(cfg, s, step))
    requires !step.Fail? && !step.Begin? && !step.Dispatch?
    ensures StepsLeft(ScriptOf(cfg), Apply(cfg, s, step)) < StepsLeft(ScriptOf(cfg), s)
  {
    match step
    case ClientWrites(_) =>
    case ServerReads(_) =>
    case ServerWrites(_) =>
    case ClientReads(_) =>
    case Return =>
  }

  /** Every step of a call uses up some of a finite allowance, whatever has failed before, so a call that does not fail
      returns. */
  lemma CallsReturn<A(!new)>(cfg: Config<A>, s: Net<A>, step: Step)
    requires cfg.FitsFrames() && Lags(cfg, s) && Enabled(cfg, s, step) && !step.Fail? && !step.Begin?
    ensures Lags(cfg, Apply(cfg, s, step))
    ensures StepsLeft(ScriptOf(cfg), Apply(cfg, s, step)) < StepsLeft(ScriptOf(cfg), s)
  {
    StepLags(cfg, s, step);
    if step.Dispatch? {
      DispatchStepIsUsed(cfg, s);
    } else {
      TransferUsesSteps(cfg, s, step);
    }
  }

  lemma AnswerComes<A(!new)>(cfg: Config<A>, s: Net<A>) returns (step: Step)
    requires cfg.FitsFrames() && Lags(cfg, s) && s.client.Awaiting? && Taken(s) < s.served
    ensures Enabled(cfg, s, step) && !step.Fail? && !step.Begin?
  {
    var w, r := ScriptOf(cfg), cfg.Answer(Taken(s));
    SliceOneLess(w.frames, Taken(s), s.served);
    WholeResponse(r, s.client.got);
    WantsTheRestOfAnswer(r, s.client.got);
    if s.client.got == w.frames[Taken(s)] {
      step := Return;
    } else if s.down != [] {
      step := ClientReads(1);
    } else {
      MoreIsToCome(s.client.got, s.down, ToAnswer(s.server), w.frames[Taken(s)..s.served]);
      step := ServerWrites(1);
    }
  }

  lemma RequestArrives<A(!new)>(cfg: Config<A>, s: Net<A>) returns (step: Step)
    requires cfg.FitsFrames() && Lags(cfg, s) && s.client.Awaiting? && Taken(s) == s.served
    ensures Enabled(cfg, s, step) && !step.Fail? && !step.Begin?
  {
    var w, r := ScriptOf(cfg), cfg.requests[s.served];
    NothingComesDown(w, s);
    SliceOneLess(w.requests, s.served, s.begun);
    WholeRequest(r, s.server.got);
    WantsTheRest(r, s.server.got);
    if s.server.got == w.requests[s.served] {
      step := Dispatch;
    } else {
      MoreIsToCome(s.server.got, s.up, [], w.requests[s.served..s.begun]);
      step := ServerReads(1);
    }
  }

  /** A call never gets stuck, whatever has failed before: until it returns some step of it is enabled. */
  lemma CallsNeverStick<A(!new)>(cfg: Config<A>, s: Net<A>) returns (step: Step)
    requires cfg.FitsFrames() && Lags(cfg, s) && !s.client.Idle?
    ensures Enabled(cfg, s, step) && !step.Fail? && !step.Begin?
  {
    if s.client.Sending? {
      step := ClientWrites(1);
    } else if Taken(s) < s.served {
      step := AnswerComes(cfg, s);
    } else {
      step := RequestArrives(cfg, s);
    }
  }

  /// ## Every pattern of failures happens

  lemma {:induction false} RunsConcatenate<A(!new)>(cfg: Config<A>, s: Net<A>, first: seq<Step>, t: Net<A>,
                                                    second: seq<Step>, u: Net<A>)
    requires CleanRun(cfg, s, first, t) && CleanRun(cfg, t, second, u)
    ensures CleanRun(cfg, s, first + second, u)
    decreases |first|
  {
    if first == [] {
      assert first + second == second;
    } else {
      RunsConcatenate(cfg, Apply(cfg, s, first[0]), first[1..], t, second, u);
      assert (first + second)[1..] == first[1..] + second;
    }
  }

  /** One more send has ended, and it failed or not. */
  ghost predicate Ended<A(!new)>(cfg: Config<A>, s: Net<A>, t: Net<A>, failed: bool) {
    && Lags(cfg, t) && t.client.Idle? && t.begun == s.begun && |t.returned| == |s.returned| + 1
    && s.returned <= t.returned && (t.returned[|s.returned|].None? <==> failed)
  }

  lemma RunOfOne<A(!new)>(cfg: Config<A>, s: Net<A>, step: Step)
    requires Enabled(cfg, s, step) && Clean(s, step)
    ensures CleanRun(cfg, s, [step], Apply(cfg, s, step))
  {
    assert [step][1..] == [];
  }

  lemma RunPrepended<A(!new)>(cfg: Config<A>, s: Net<A>, step: Step, steps: seq<Step>, t: Net<A>)
    requires Enabled(cfg, s, step) && Clean(s, step) && CleanRun(cfg, Apply(cfg, s, step), steps, t)
    ensures CleanRun(cfg, s, [step] + steps, t)
  {
    assert ([step] + steps)[1..] == steps;
  }

  /** A step that ends no send. */
  lemma OthersReturnNothing<A(!new)>(cfg: Config<A>, s: Net<A>, step: Step)
    requires Enabled(cfg, s, step) && !step.Return? && !step.Fail? && !step.Begin?
    ensures
      var t := Apply(cfg, s, step);
      t.returned == s.returned && t.begun == s.begun && (!s.client.Idle? ==> !t.client.Idle?)
  {
  }

  /** A call that has begun can be brought to an end. */
  lemma {:induction false} CallFinishes<A(!new)>(cfg: Config<A>, s: Net<A>) returns (steps: seq<Step>, t: Net<A>)
    requires cfg.FitsFrames() && Lags(cfg, s) && !s.client.Idle?
    ensures CleanRun(cfg, s, steps, t) && Ended(cfg, s, t, false)
    decreases StepsLeft(ScriptOf(cfg), s)
  {
    var step := CallsNeverStick(cfg, s);
    CallsReturn(cfg, s, step);
    if step.Return? {
      RunOfOne(cfg, s, step);
      steps, t := [step], Apply(cfg, s, step);
    } else {
      OthersReturnNothing(cfg, s, step);
      steps, t := CallFinishes(cfg, Apply(cfg, s, step));
      RunPrepended(cfg, s, step, steps, t);
      steps := [step] + steps;
    }
  }

  /** Or it can fail once its request is written. */
  lemma CallFails<A(!new)>(cfg: Config<A>, s: Net<A>) returns (steps: seq<Step>, t: Net<A>)
    requires cfg.FitsFrames() && Lags(cfg, s) && s.client.Sending?
    ensures CleanRun(cfg, s, steps, t) && Ended(cfg, s, t, true)
  {
    var write := ClientWrites(|s.client.rest|);
    ClientWritesStep(cfg, s, |s.client.rest|);
    var mid := Apply(cfg, s, write);
    FailStep(cfg, mid);
    t := Apply(cfg, mid, Fail);
    RunOfOne(cfg, mid, Fail);
    RunPrepended(cfg, s, write, [Fail], t);
    steps := [write] + [Fail];
  }

  /** The sends that failed are those marked. */
  predicate Matches(returned: seq<Option<Response>>, fails: seq<bool>) {
    |returned| == |fails| && forall i :: 0 <= i < |fails| ==> (returned[i].None? <==> fails[i])
  }

  lemma MatchesOneMore(before: seq<Option<Response>>, returned: seq<Option<Response>>, fails: seq<bool>)
    requires fails != [] && Matches(before, fails[..|fails| - 1])
    requires |returned| == |fails| && before <= returned
    requires returned[|before|].None? <==> fails[|before|]
    ensures Matches(returned, fails)
  {
    forall i | 0 <= i < |before| ensures returned[i].None? <==> fails[i] {
      assert returned[i] == before[i] && fails[i] == fails[..|before|][i];
    }
  }

  /** One more send, which fails or not. */
  lemma OneMoreCall<A(!new)>(cfg: Config<A>, s: Net<A>, fail: bool) returns (steps: seq<Step>, t: Net<A>)
    requires cfg.FitsFrames() && Lags(cfg, s) && s.client.Idle? && s.begun < |cfg.requests|
    ensures CleanRun(cfg, s, steps, t) && Ended(cfg, s.(begun := s.begun + 1), t, fail)
  {
    BeginStep(cfg, s);
    var begun := Apply(cfg, s, Begin);
    if fail {
      steps, t := CallFails(cfg, begun);
    } else {
      steps, t := CallFinishes(cfg, begun);
    }
    RunPrepended(cfg, s, Begin, steps, t);
    steps := [Begin] + steps;
  }

  /** A run goes on by one send. */
  lemma RunGoesOn<A(!new)>(cfg: Config<A>, start: seq<Step>, s: Net<A>, fails: seq<bool>)
    returns (steps: seq<Step>, t: Net<A>)
    requires cfg.FitsFrames() && fails != [] && |fails| <= |cfg.requests| && s.begun == |fails| - 1
    requires CleanRun(cfg, Initial(cfg), start, s) && Lags(cfg, s) && s.client.Idle?
    requires Matches(s.returned, fails[..|fails| - 1])
    ensures CleanRun(cfg, Initial(cfg), steps, t) && Lags(cfg, t) && t.client.Idle?
    ensures t.begun == |fails| && Matches(t.returned, fails)
  {
    var more;
    more, t := OneMoreCall(cfg, s, fails[|fails| - 1]);
    RunsConcatenate(cfg, Initial(cfg), start, s, more, t);
    steps := start + more;
    MatchesOneMore(s.returned, t.returned, fails);
  }

  /** For any choice of sends there is a run in which exactly these fail. */
  lemma {:induction false} AnyFailuresCanHappen<A(!new)>(cfg: Config<A>, fails: seq<bool>)
    returns (steps: seq<Step>, t: Net<A>)
    requires cfg.FitsFrames() && |fails| <= |cfg.requests|
    ensures CleanRun(cfg, Initial(cfg), steps, t) && Lags(cfg, t) && t.client.Idle?
    ensures t.begun == |fails| && Matches(t.returned, fails)
    decreases |fails|
  {
    if fails == [] {
      StartLags(cfg);
      steps, t := [], Initial(cfg);
    } else {
      steps, t := AnyFailuresCanHappen(cfg, fails[..|fails| - 1]);
      steps, t := RunGoesOn(cfg, steps, t, fails);
    }
  }

  lemma SecondIsFirst(answers: seq<Response>, returned: seq<Option<Response>>)
    requires |returned| == 2 <= |answers| && Lagging(answers, returned) && Matches(returned, [true, false])
    ensures returned == [None, Some(answers[0])]
  {
    assert [true, false][0] && ![true, false][1];
    LaggingAt(answers, returned, 1);
    FailuresOfOneMore([], None);
    assert returned[..1] == [] + [None];
  }

  /** A send can fail at any time, and then all that is under way, in both directions, stays under way. */
  lemma AnySendCanFail<A(!new)>(cfg: Config<A>, s: Net<A>) returns (step: Step)
    requires !s.client.Idle?
    ensures Enabled(cfg, s, step)
    ensures Apply(cfg, s, step) == s.(client := Idle, returned := s.returned + [None])
  {
    step := Fail;
  }

  /** Pairing does not survive a late answer: there is a run in which the first send fails and the second returns the
      first request's answer. */
  lemma PairingIsLostAfterAFailure<A(!new)>(cfg: Config<A>) returns (steps: seq<Step>, t: Net<A>)
    requires cfg.FitsFrames() && |cfg.requests| >= 2
    ensures CleanRun(cfg, Initial(cfg), steps, t)
    ensures t.returned == [None, Some(cfg.Answer(0))]
  {
    steps, t := AnyFailuresCanHappen(cfg, [true, false]);
    ReturnedLag(cfg, steps, t);
    SecondIsFirst(ScriptOf(cfg).answers, t.returned);
  }
}
