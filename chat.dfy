/**
 * routes/chat.py: one `POST /chat` turn. The request is validated, the
 * session id resolved, every inbound message saved in order, the provider
 * chosen by name, and the chosen generator relayed until the client is
 * seen to disconnect. `disconnect[i]` is what `request.is_disconnected()`
 * answers after the i-th pulled chunk (a position past its end answers
 * "connected"). The generator's own save happens only when the relay pulls
 * past its last chunk.
 */
module Chat {
  import opened Wrappers
  import opened Text
  import opened Models
  import opened Tables
  import opened History
  import opened Providers

  /** The settings `config.py` reads from the environment, and whether the
      optional `openai` package could be imported. */
  datatype Config = Config(
    provider: Option<string>,
    openAiKey: Option<string>, openAiClient: bool, openAiModel: Option<string>,
    openRouterKey: Option<string>, openRouterModel: Option<string>)

  /** What each upstream would send: the OpenAI delta stream, and the
      OpenRouter status, lines and payload parser. */
  datatype Upstream = Upstream(
    openAiEvents: seq<Option<string>>,
    openRouterStatus: nat, openRouterLines: seq<string>, parse: string -> Option<string>)

  /** `os.getenv("PROVIDER", "mock").lower()`. */
  function ProviderName(raw: Option<string>): string
  {
    Lower(raw.GetOr("mock"))
  }

  /** The provider name does not depend on the case of the setting. */
  lemma ProviderNameIgnoresCase(raw: string)
    ensures ProviderName(Some(raw)) == ProviderName(Some(Lower(raw)))
    ensures ProviderName(None) == "mock"
  {
    LowerIdempotent(raw);
  }

  /** What the client gets: a 422 naming the first invalid message, an error
      status with its detail, or a 200 event stream whose body is the frames
      relayed, possibly cut short by an error raised inside the generator. */
  datatype ChatResponse =
    | Unprocessable(index: nat)
    | Rejected(status: nat, detail: string)
    | Streamed(body: seq<Frame>, aborted: Option<ProviderError>)

  function ResponseStatus(r: ChatResponse): nat
  {
    match r
    case Unprocessable(_) => 422
    case Rejected(s, _) => s
    case Streamed(_, _) => 200
  }

  /** The rows `save_history` writes for the inbound messages, in request order. */
  function InboundRecords(sid: string, ms: seq<Message>): (rs: seq<ChatRecord>)
    ensures |rs| == |ms|
  {
    seq(|ms|, i requires 0 <= i < |ms| => ChatRecord(sid, ms[i].role, ms[i].content))
  }

  /** Read back on their own, the inbound rows are the request's messages
      for their session and nothing for any other. */
  lemma {:induction false} InboundRead(sid: string, ms: seq<Message>, other: string)
    requires other != sid
    ensures GetHistory(InboundRecords(sid, ms), sid) == ms
    ensures GetHistory(InboundRecords(sid, ms), other) == []
    decreases |ms|
  {
    var rs := InboundRecords(sid, ms);
    if ms != [] {
      var init := ms[..|ms| - 1];
      assert rs[..|rs| - 1] == InboundRecords(sid, init);
      InboundRead(sid, init, other);
      assert init + [ms[|ms| - 1]] == ms;
    }
  }

  /** After the inbound rows are saved, the session's history ends with the
      request's messages, unchanged and in order; other sessions see nothing new. */
  lemma InboundHistory(log: seq<ChatRecord>, sid: string, ms: seq<Message>, other: string)
    requires other != sid
    ensures GetHistory(log + InboundRecords(sid, ms), sid) == GetHistory(log, sid) + ms
    ensures GetHistory(log + InboundRecords(sid, ms), other) == GetHistory(log, other)
  {
    HistoryAppend(log, InboundRecords(sid, ms), sid);
    HistoryAppend(log, InboundRecords(sid, ms), other);
    InboundRead(sid, ms, other);
    assert GetHistory(log, other) + [] == GetHistory(log, other);
  }

  const DefaultOpenAiModel := "gpt-4o-mini"
  const DefaultOpenRouterModel := "openrouter/auto"

  /** The generator chosen for a provider name, or none for an unknown name. */
  function SelectGenerator(name: string, cfg: Config, up: Upstream, ms: seq<Message>, sid: string): Option<Generator>
  {
    if name == "mock" then Some(MockGenerator(sid, MockReply))
    else if name == "openai" then
      Some(OpenAIGenerator(sid, cfg.openAiKey, cfg.openAiClient, cfg.openAiModel.GetOr(DefaultOpenAiModel), ms, up.openAiEvents))
    else if name == "openrouter" then
      Some(OpenRouterGenerator(sid, cfg.openRouterKey, cfg.openRouterModel.GetOr(DefaultOpenRouterModel), ms,
                               up.openRouterStatus, up.openRouterLines, up.parse))
    else None
  }

  /** The `if/elif` chain: each known name gets its own adapter. */
  method Dispatch(name: string, cfg: Config, up: Upstream, ms: seq<Message>, sid: string) returns (gen: Option<Generator>)
    ensures gen == SelectGenerator(name, cfg, up, ms, sid)
  {
    if name == "mock" {
      var g := StreamMock(sid, MockReply);
      gen := Some(g);
    } else if name == "openai" {
      var g := StreamOpenAI(sid, cfg.openAiKey, cfg.openAiClient, cfg.openAiModel.GetOr(DefaultOpenAiModel), ms, up.openAiEvents);
      gen := Some(g);
    } else if name == "openrouter" {
      var g := StreamOpenRouter(sid, cfg.openRouterKey, cfg.openRouterModel.GetOr(DefaultOpenRouterModel), ms,
                                up.openRouterStatus, up.openRouterLines, up.parse);
      gen := Some(g);
    } else {
      gen := None;
    }
  }

  /** Every adapter that sends a request sends the request's messages unchanged. */
  lemma ProviderGetsMessages(name: string, cfg: Config, up: Upstream, ms: seq<Message>, sid: string)
    requires SelectGenerator(name, cfg, up, ms, sid).Some?
    ensures var g := SelectGenerator(name, cfg, up, ms, sid).value;
      g.sent.Some? ==> g.sent.value.messages == ms && g.sent.value.stream
    ensures name == "mock" || name == "openai" || name == "openrouter"
  {
  }

  /** `request.is_disconnected()` after the i-th pulled chunk. */
  predicate Disconnected(disconnect: seq<bool>, i: nat)
  {
    i < |disconnect| && disconnect[i]
  }

  /** The first of the first `n` pulls at which a disconnect is seen, or `n`. */
  function FirstDisconnect(disconnect: seq<bool>, n: nat): (k: nat)
    ensures k <= n
    ensures forall j :: 0 <= j < k ==> !Disconnected(disconnect, j)
    ensures k < n ==> Disconnected(disconnect, k)
  {
    if n == 0 then 0
    else
      var k := FirstDisconnect(disconnect, n - 1);
      if k < n - 1 then k else if Disconnected(disconnect, n - 1) then n - 1 else n
  }

  /** `event_gen`'s loop over the chunks: pull, check, forward or stop.
      `exhausted` is whether the loop pulled past the last chunk. */
  method RelayChunks(chunks: seq<Frame>, disconnect: seq<bool>) returns (body: seq<Frame>, exhausted: bool)
    ensures body == chunks[..FirstDisconnect(disconnect, |chunks|)]
    ensures exhausted <==> FirstDisconnect(disconnect, |chunks|) == |chunks|
  {
    body := [];
    var i := 0;
    while i < |chunks|
      invariant 0 <= i <= |chunks|
      invariant body == chunks[..i]
      invariant forall j :: 0 <= j < i ==> !Disconnected(disconnect, j)
    {
      if Disconnected(disconnect, i) {
        return body, false;
      }
      body := body + [chunks[i]];
      i := i + 1;
    }
    assert body == chunks;
    exhausted := true;
  }

  /** What relaying a generator writes and answers. */
  datatype Relay = Relay(records: seq<ChatRecord>, response: ChatResponse)

  function Drive(gen: Generator, disconnect: seq<bool>): Relay
  {
    match gen
    case Raises(_, e) => Relay([], Streamed([], Some(e)))
    case Yields(_, chunks, record) =>
      var k := FirstDisconnect(disconnect, |chunks|);
      if k == |chunks| then Relay([record], Streamed(chunks, None))
      else Relay([], Streamed(chunks[..k], None))
  }

  /** `StreamingResponse(event_gen())` driven to its end: the relay, then the
      generator's save when it was exhausted. */
  method EventGen(store: Store, gen: Generator, disconnect: seq<bool>) returns (resp: ChatResponse)
    modifies store
    ensures store.history == old(store.history) + Drive(gen, disconnect).records
    ensures store.files == old(store.files)
    ensures resp == Drive(gen, disconnect).response
  {
    if gen.Raises? {
      return Streamed([], Some(gen.error));
    }
    var body, exhausted := RelayChunks(gen.chunks, disconnect);
    if exhausted {
      store.SaveHistory(gen.onExhaustion.sessionId, gen.onExhaustion.role, gen.onExhaustion.content);
    }
    resp := Streamed(body, None);
  }

  /** The `for m in req.messages: save_history(...)` loop. */
  method PersistInbound(store: Store, sid: string, ms: seq<Message>)
    modifies store
    ensures store.history == old(store.history) + InboundRecords(sid, ms)
    ensures store.files == old(store.files)
  {
    var i := 0;
    while i < |ms|
      invariant 0 <= i <= |ms|
      invariant store.history == old(store.history) + InboundRecords(sid, ms[..i])
      invariant store.files == old(store.files)
    {
      assert InboundRecords(sid, ms[..i + 1]) == InboundRecords(sid, ms[..i]) + [ChatRecord(sid, ms[i].role, ms[i].content)];
      store.SaveHistory(sid, ms[i].role, ms[i].content);
      i := i + 1;
    }
    assert ms[..i] == ms;
  }

  /** The whole turn as written: the rows it writes, in order, and the response. */
  function Turn(cfg: Config, up: Upstream, req: ChatRequest, freshId: string, disconnect: seq<bool>): Relay
  {
    match Validate(req)
    case Err(i) => Relay([], Unprocessable(i))
    case Ok(_) =>
      var sid := ResolveSessionId(req.sessionId, freshId);
      var inbound := InboundRecords(sid, req.messages);
      var name := ProviderName(cfg.provider);
      match SelectGenerator(name, cfg, up, req.messages, sid)
      case None => Relay(inbound, Rejected(400, "Unknown PROVIDER: " + name))
      case Some(gen) =>
        var r := Drive(gen, disconnect);
        Relay(inbound + r.records, r.response)
  }

  /** `chat(req, request)`, with request validation done by the framework first. */
  method Chat(store: Store, cfg: Config, up: Upstream, req: ChatRequest, freshId: string, disconnect: seq<bool>)
    returns (resp: ChatResponse)
    modifies store
    ensures store.history == old(store.history) + Turn(cfg, up, req, freshId, disconnect).records
    ensures store.files == old(store.files)
    ensures resp == Turn(cfg, up, req, freshId, disconnect).response
  {
    var valid := Validate(req);
    if valid.Err? {
      return Unprocessable(valid.error);
    }
    var sid := ResolveSessionId(req.sessionId, freshId);
    PersistInbound(store, sid, req.messages);
    var name := ProviderName(cfg.provider);
    var gen := Dispatch(name, cfg, up, req.messages, sid);
    if gen.None? {
      return Rejected(400, "Unknown PROVIDER: " + name);
    }
    resp := EventGen(store, gen.value, disconnect);
    Reassociate(old(store.history), InboundRecords(sid, req.messages), Drive(gen.value, disconnect).records);
  }

  /** A valid turn first writes the inbound rows; an unknown provider answers
      400 with those rows already written, and nothing else. */
  lemma InboundFirst(cfg: Config, up: Upstream, req: ChatRequest, freshId: string, disconnect: seq<bool>)
    requires ValidRequest(req)
    ensures var t := Turn(cfg, up, req, freshId, disconnect);
      var sid := ResolveSessionId(req.sessionId, freshId);
      && t.records[..|req.messages|] == InboundRecords(sid, req.messages)
      && |req.messages| <= |t.records| <= |req.messages| + 1
      && (var name := ProviderName(cfg.provider);
          name != "mock" && name != "openai" && name != "openrouter" ==>
            t == Relay(InboundRecords(sid, req.messages), Rejected(400, "Unknown PROVIDER: " + name)))
  {
    var sid := ResolveSessionId(req.sessionId, freshId);
    var inbound := InboundRecords(sid, req.messages);
    var t := Turn(cfg, up, req, freshId, disconnect);
    match SelectGenerator(ProviderName(cfg.provider), cfg, up, req.messages, sid)
    case None =>
    case Some(gen) =>
      assert t.records == inbound + Drive(gen, disconnect).records;
      assert (inbound + Drive(gen, disconnect).records)[..|inbound|] == inbound;
  }

  /** An invalid request writes nothing. */
  lemma InvalidWritesNothing(cfg: Config, up: Upstream, req: ChatRequest, freshId: string, disconnect: seq<bool>)
    requires !ValidRequest(req)
    ensures Turn(cfg, up, req, freshId, disconnect).records == []
    ensures ResponseStatus(Turn(cfg, up, req, freshId, disconnect).response) == 422
  {
  }

  /** The relayed body is a prefix of the generator's chunks, unchanged and in
      order; the chunk at which a disconnect is seen is not forwarded; with no
      disconnect seen the body is every chunk. */
  lemma RelayIsPrefix(gen: Generator, disconnect: seq<bool>)
    requires gen.Yields?
    ensures var b := Drive(gen, disconnect).response.body;
      && b <= gen.chunks
      && (|b| < |gen.chunks| ==> Disconnected(disconnect, |b|))
      && ((forall j :: 0 <= j < |gen.chunks| ==> !Disconnected(disconnect, j)) ==> b == gen.chunks)
  {
    var k := FirstDisconnect(disconnect, |gen.chunks|);
    if forall j :: 0 <= j < |gen.chunks| ==> !Disconnected(disconnect, j) {
      assert k == |gen.chunks|;
    }
  }

  /** The assistant row is written exactly when the turn reaches a provider,
      the generator yields, and no disconnect is seen on any pulled chunk;
      it is the generator's own row, written after all inbound rows. */
  lemma AssistantRowIffExhausted(cfg: Config, up: Upstream, req: ChatRequest, freshId: string, disconnect: seq<bool>)
    requires ValidRequest(req)
    ensures var sid := ResolveSessionId(req.sessionId, freshId);
      var g := SelectGenerator(ProviderName(cfg.provider), cfg, up, req.messages, sid);
      var t := Turn(cfg, up, req, freshId, disconnect);
      var exhausted := g.Some? && g.value.Yields?
                       && forall j :: 0 <= j < |g.value.chunks| ==> !Disconnected(disconnect, j);
      && (exhausted <==> |t.records| == |req.messages| + 1)
      && (exhausted ==> t.records == InboundRecords(sid, req.messages) + [g.value.onExhaustion])
      && (!exhausted ==> t.records == InboundRecords(sid, req.messages))
  {
    var sid := ResolveSessionId(req.sessionId, freshId);
    var g := SelectGenerator(ProviderName(cfg.provider), cfg, up, req.messages, sid);
    if g.Some? && g.value.Yields? {
      var k := FirstDisconnect(disconnect, |g.value.chunks|);
      if forall j :: 0 <= j < |g.value.chunks| ==> !Disconnected(disconnect, j) {
        assert k == |g.value.chunks|;
      } else {
        assert k < |g.value.chunks|;
        assert InboundRecords(sid, req.messages) + [] == InboundRecords(sid, req.messages);
      }
    } else if g.Some? {
      assert InboundRecords(sid, req.messages) + [] == InboundRecords(sid, req.messages);
    }
  }

  /** With no disconnect seen, a yielding generator is relayed whole and saves its row. */
  lemma DriveConnected(gen: Generator)
    requires gen.Yields?
    ensures Drive(gen, []) == Relay([gen.onExhaustion], Streamed(gen.chunks, None))
  {
    assert FirstDisconnect([], |gen.chunks|) == |gen.chunks|;
  }

  /** A mock turn without disconnects writes the inbound rows and then the
      mock's reply, and sends every frame of the mock. */
  lemma MockTurn(cfg: Config, up: Upstream, req: ChatRequest, freshId: string)
    requires ValidRequest(req) && ProviderName(cfg.provider) == "mock"
    ensures var sid := ResolveSessionId(req.sessionId, freshId);
      Turn(cfg, up, req, freshId, [])
      == Relay(InboundRecords(sid, req.messages) + [ChatRecord(sid, "assistant", MockReply)],
               Streamed(MockGenerator(sid, MockReply).chunks, None))
  {
    var sid := ResolveSessionId(req.sessionId, freshId);
    assert SelectGenerator("mock", cfg, up, req.messages, sid) == Some(MockGenerator(sid, MockReply));
    DriveConnected(MockGenerator(sid, MockReply));
  }

  /** After such a turn the session's history is what it was, then the
      request's messages, then the mock's reply. */
  lemma MockTurnHistory(log: seq<ChatRecord>, cfg: Config, up: Upstream, req: ChatRequest, freshId: string)
    requires ValidRequest(req) && ProviderName(cfg.provider) == "mock"
    ensures var sid := ResolveSessionId(req.sessionId, freshId);
      GetHistory(log + Turn(cfg, up, req, freshId, []).records, sid)
      == GetHistory(log, sid) + req.messages + [Message("assistant", MockReply)]
  {
    var sid := ResolveSessionId(req.sessionId, freshId);
    MockTurn(cfg, up, req, freshId);
    HistoryAfterTurn(log, sid, req.messages, "assistant", MockReply);
  }

  /** The inbound rows and then one more row of the same session extend its history by the messages and that row. */
  lemma HistoryAfterTurn(log: seq<ChatRecord>, sid: string, ms: seq<Message>, role: string, content: string)
    ensures GetHistory(log + (InboundRecords(sid, ms) + [ChatRecord(sid, role, content)]), sid)
         == GetHistory(log, sid) + ms + [Message(role, content)]
  {
    var inbound := InboundRecords(sid, ms);
    var record := ChatRecord(sid, role, content);
    assert log + (inbound + [record]) == (log + inbound) + [record];
    InboundHistory(log, sid, ms, sid + "'");
    HistoryAfterSave(log + inbound, sid, role, content, sid + "'");
  }

  // ----- the setup error ----------------------------------------------------------

  /** As written, a missing OpenAI key is raised inside the generator, at the
      first pull, after the 200 status line has gone out: the client sees a
      200 stream with no frame, the inbound rows stay and no 400 is sent. */
  lemma SetupErrorIsStreamedAs200(cfg: Config, up: Upstream, req: ChatRequest, freshId: string, disconnect: seq<bool>)
    requires ValidRequest(req)
    requires ProviderName(cfg.provider) == "openai" && cfg.openAiKey == None
    ensures var t := Turn(cfg, up, req, freshId, disconnect);
      && ResponseStatus(t.response) == 200
      && t.response == Streamed([], Some(HttpError(400, "Missing OpenAI setup.")))
      && t.records == InboundRecords(ResolveSessionId(req.sessionId, freshId), req.messages)
  {
    assert InboundRecords(ResolveSessionId(req.sessionId, freshId), req.messages) + []
        == InboundRecords(ResolveSessionId(req.sessionId, freshId), req.messages);
  }

  /** The evidently intended turn: a setup error the generator would raise
      before contacting any upstream is answered as that HTTP error. */
  function CheckedTurn(cfg: Config, up: Upstream, req: ChatRequest, freshId: string, disconnect: seq<bool>): Relay
  {
    var t := Turn(cfg, up, req, freshId, disconnect);
    if ValidRequest(req) then
      var sid := ResolveSessionId(req.sessionId, freshId);
      match SelectGenerator(ProviderName(cfg.provider), cfg, up, req.messages, sid)
      case Some(Raises(None, HttpError(status, detail))) => Relay(t.records, Rejected(status, detail))
      case _ => t
    else t
  }

  /** `chat` with the provider's setup checked before the stream starts. */
  method ChatChecked(store: Store, cfg: Config, up: Upstream, req: ChatRequest, freshId: string, disconnect: seq<bool>)
    returns (resp: ChatResponse)
    modifies store
    ensures store.history == old(store.history) + CheckedTurn(cfg, up, req, freshId, disconnect).records
    ensures store.files == old(store.files)
    ensures resp == CheckedTurn(cfg, up, req, freshId, disconnect).response
  {
    var valid := Validate(req);
    if valid.Err? {
      return Unprocessable(valid.error);
    }
    var sid := ResolveSessionId(req.sessionId, freshId);
    PersistInbound(store, sid, req.messages);
    var name := ProviderName(cfg.provider);
    var gen := Dispatch(name, cfg, up, req.messages, sid);
    if gen.None? {
      return Rejected(400, "Unknown PROVIDER: " + name);
    }
    var g := gen.value;
    if g.Raises? && g.sent.None? && g.error.HttpError? {
      assert InboundRecords(sid, req.messages) + [] == InboundRecords(sid, req.messages);
      return Rejected(g.error.status, g.error.detail);
    }
    resp := EventGen(store, g, disconnect);
    Reassociate(old(store.history), InboundRecords(sid, req.messages), Drive(g, disconnect).records);
  }

  /** With the check, a missing key for either hosted provider is answered
      400 with the adapter's detail; every other turn is unchanged. */
  lemma CheckedSetupErrorIs400(cfg: Config, up: Upstream, req: ChatRequest, freshId: string, disconnect: seq<bool>)
    requires ValidRequest(req)
    ensures var name := ProviderName(cfg.provider);
      var t := CheckedTurn(cfg, up, req, freshId, disconnect);
      && (name == "openai" && (!Present(cfg.openAiKey) || !cfg.openAiClient) ==>
            ResponseStatus(t.response) == 400 && t.response == Rejected(400, "Missing OpenAI setup."))
      && (name == "openrouter" && !Present(cfg.openRouterKey) ==>
            ResponseStatus(t.response) == 400 && t.response == Rejected(400, "Missing OPENROUTER_API_KEY."))
      && t.records == Turn(cfg, up, req, freshId, disconnect).records
      && ((name == "openai" && Present(cfg.openAiKey) && cfg.openAiClient)
          || (name == "openrouter" && Present(cfg.openRouterKey)) || name == "mock" ==>
            t == Turn(cfg, up, req, freshId, disconnect))
  {
  }
}
