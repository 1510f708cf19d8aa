/**
 * services/providers.py: the three streaming adapters the chat route
 * dispatches to. Each is an async generator; the model runs its body
 * and returns what that body does when it is driven to exhaustion: either
 * the error the first pull raises, or the chunks it yields in order
 * together with the one assistant row its epilogue (`save_history` after
 * the loop) writes. Whether that epilogue runs is decided by the consumer
 * (see Chat). The upstreams are inputs: the OpenAI delta stream as a
 * sequence of optional deltas, the OpenRouter response as a status and a
 * sequence of lines with an abstract `parse` for the JSON on a data line.
 */
module Providers {
  import opened Wrappers
  import opened Text
  import opened Sse
  import opened Models

  type Frame = seq<byte>

  datatype ProviderError =
    | HttpError(status: nat, detail: string)  // HTTPException(status_code=..., detail=...)
    | UpstreamStatus(status: nat)             // httpx.HTTPStatusError from raise_for_status()

  /** The chat-completion request an adapter sends: model, messages, `stream=True`. */
  datatype UpstreamRequest = UpstreamRequest(model: string, messages: seq<Message>, stream: bool)

  /** What running a generator to exhaustion does. `sent` is the upstream request made, if any. */
  datatype Generator =
    | Raises(sent: Option<UpstreamRequest>, error: ProviderError)
    | Yields(sent: Option<UpstreamRequest>, chunks: seq<Frame>, onExhaustion: ChatRecord)

  /** One `sse_line({"content": c})` per content, in order. */
  function Frames(contents: seq<string>): (fs: seq<Frame>)
    ensures |fs| == |contents|
  {
    seq(|contents|, i requires 0 <= i < |contents| => SseLine(contents[i]))
  }

  /** The text a client assembles from a run of frames: their contents, concatenated. */
  function Shown(chunks: seq<Frame>): Option<string>
  {
    if chunks == [] then Some("")
    else
      match (Shown(chunks[..|chunks| - 1]), DecodeFrame(chunks[|chunks| - 1]))
      case (Some(a), Some(b)) => Some(a + b)
      case _ => None
  }

  lemma FramesSnoc(contents: seq<string>, x: string)
    ensures Frames(contents + [x]) == Frames(contents) + [SseLine(x)]
  {
    var l, r := Frames(contents + [x]), Frames(contents) + [SseLine(x)];
    assert |l| == |r|;
    forall i | 0 <= i < |l| ensures l[i] == r[i] {
      if i < |contents| {
        assert (contents + [x])[i] == contents[i];
      }
    }
  }

  /** Frames of some contents show exactly those contents, joined. */
  lemma {:induction false} ShownFrames(contents: seq<string>)
    ensures Shown(Frames(contents)) == Some(Concat(contents))
    decreases |contents|
  {
    if contents == [] {
      assert Frames(contents) == [];
    } else {
      var init := contents[..|contents| - 1];
      assert Frames(contents)[..|contents| - 1] == Frames(init);
      ShownFrames(init);
      FrameRoundTrip(contents[|contents| - 1]);
    }
  }

  /** A credential is usable when it is truthy: set and non-empty. */
  predicate Present(key: Option<string>)
  {
    key.Some? && key.value != ""
  }

  // ----- mock ---------------------------------------------------------------

  const MockReply := "Hi! This is the mock provider. Switch PROVIDER=openai or PROVIDER=openrouter for real responses."

  /** Each token with the trailing space the mock adds to it. */
  function Spaced(tokens: seq<string>): (r: seq<string>)
    ensures |r| == |tokens|
  {
    seq(|tokens|, i requires 0 <= i < |tokens| => tokens[i] + " ")
  }

  lemma SpacedCons(x: string, rest: seq<string>)
    ensures Spaced([x] + rest) == [x + " "] + Spaced(rest)
  {
    var l, r := Spaced([x] + rest), [x + " "] + Spaced(rest);
    assert |l| == |r|;
    forall i | 0 <= i < |l| ensures l[i] == r[i] {
      if i > 0 {
        assert ([x] + rest)[i] == rest[i - 1];
      }
    }
  }

  lemma SpacedSnoc(tokens: seq<string>, x: string)
    ensures Spaced(tokens + [x]) == Spaced(tokens) + [x + " "]
  {
    var l, r := Spaced(tokens + [x]), Spaced(tokens) + [x + " "];
    assert |l| == |r|;
    forall i | 0 <= i < |l| ensures l[i] == r[i] {
      if i < |tokens| {
        assert (tokens + [x])[i] == tokens[i];
      }
    }
  }

  function MockGenerator(sessionId: string, reply: string): Generator
  {
    Yields(None, Frames(Spaced(Split(reply, ' '))), ChatRecord(sessionId, "assistant", reply))
  }

  /** `stream_mock`: one frame per `" "`-separated token of the fixed reply
      (the dispatcher passes `MockReply`). */
  method StreamMock(sessionId: string, reply: string) returns (gen: Generator)
    ensures gen == MockGenerator(sessionId, reply)
  {
    var tokens := Split(reply, ' ');
    var chunks: seq<Frame> := [];
    var i := 0;
    while i < |tokens|
      invariant 0 <= i <= |tokens|
      invariant chunks == Frames(Spaced(tokens[..i]))
    {
      assert tokens[..i + 1] == tokens[..i] + [tokens[i]];
      SpacedSnoc(tokens[..i], tokens[i]);
      FramesSnoc(Spaced(tokens[..i]), tokens[i] + " ");
      chunks := chunks + [SseLine(tokens[i] + " ")];
      i := i + 1;
    }
    assert tokens[..i] == tokens;
    gen := Yields(None, chunks, ChatRecord(sessionId, "assistant", reply));
  }

  /** Giving every part a trailing space and joining them is joining them
      with a space and adding one more at the end. */
  lemma {:induction false} SpacedJoin(parts: seq<string>)
    requires |parts| >= 1
    ensures Concat(Spaced(parts)) == JoinWith(parts, " ") + " "
    decreases |parts|
  {
    assert parts == [parts[0]] + parts[1..];
    SpacedCons(parts[0], parts[1..]);
    ConcatCons(parts[0] + " ", Spaced(parts[1..]));
    if |parts| == 1 {
      assert Spaced(parts[1..]) == [];
    } else {
      SpacedJoin(parts[1..]);
    }
  }

  /** Splitting on a space and giving every token a trailing space rebuilds
      the text with one extra space at the end. */
  lemma SpacedSplit(s: string)
    ensures Concat(Spaced(Split(s, ' '))) == s + " "
  {
    SpacedJoin(Split(s, ' '));
    SplitJoin(s, ' ');
  }

  /** The mock's frames carry the tokens of the reply in order, each with a
      trailing space; together they show the reply plus one space, while the
      row it saves holds the reply without it. */
  lemma MockOutput(sessionId: string, reply: string)
    ensures var g := MockGenerator(sessionId, reply); var tokens := Split(reply, ' ');
      && |g.chunks| == |tokens|
      && (forall i :: 0 <= i < |tokens| ==> DecodeFrame(g.chunks[i]) == Some(tokens[i] + " "))
      && Shown(g.chunks) == Some(reply + " ")
      && g.onExhaustion == ChatRecord(sessionId, "assistant", reply)
  {
    var tokens := Split(reply, ' ');
    forall i | 0 <= i < |tokens| ensures DecodeFrame(SseLine(tokens[i] + " ")) == Some(tokens[i] + " ") {
      FrameRoundTrip(tokens[i] + " ");
    }
    ShownFrames(Spaced(tokens));
    SpacedSplit(reply);
  }

  // ----- OpenAI --------------------------------------------------------------

  /** `if delta:` on `delta or ""`: the delta as a one-element run when it is non-empty. */
  function Keep(delta: Option<string>): (r: seq<string>)
    ensures r == (if delta.GetOr("") != "" then [delta.GetOr("")] else [])
  {
    match delta
    case Some(d) => if d != "" then [d] else []
    case None => []
  }

  /** `delta = ... or ""; if delta:`: the non-empty deltas, in upstream order. */
  function Deltas(events: seq<Option<string>>): (ds: seq<string>)
    ensures |ds| <= |events|
    ensures forall i :: 0 <= i < |ds| ==> ds[i] != ""
  {
    if events == [] then []
    else
      Deltas(events[..|events| - 1]) + Keep(events[|events| - 1])
  }

  lemma {:induction false} DeltasAppend(a: seq<Option<string>>, b: seq<Option<string>>)
    ensures Deltas(a + b) == Deltas(a) + Deltas(b)
    decreases |b|
  {
    if b == [] {
      assert a + b == a;
    } else {
      var b' := b[..|b| - 1];
      assert (a + b)[..|a + b| - 1] == a + b';
      DeltasAppend(a, b');
    }
  }

  lemma DeltasCons(x: Option<string>, rest: seq<Option<string>>)
    ensures Deltas([x] + rest) == Keep(x) + Deltas(rest)
  {
    DeltasAppend([x], rest);
    assert [x][..0] == [];
  }

  /** Dropping the empty deltas loses no text: the kept deltas join to
      everything the upstream sent. */
  lemma {:induction false} DeltasKeepAllText(events: seq<Option<string>>)
    ensures Concat(Deltas(events)) == ConcatPresent(events)
    decreases |events|
  {
    if events != [] {
      var init := events[..|events| - 1];
      var d := events[|events| - 1].GetOr("");
      DeltasKeepAllText(init);
      if d != "" {
        ConcatSnoc(Deltas(init), d);
        assert Deltas(events) == Deltas(init) + [d];
      } else {
        assert Deltas(events) == Deltas(init);
      }
    }
  }

  function OpenAIGenerator(sessionId: string, key: Option<string>, clientInstalled: bool, model: string,
                           messages: seq<Message>, events: seq<Option<string>>): Generator
  {
    if !Present(key) || !clientInstalled then Raises(None, HttpError(400, "Missing OpenAI setup."))
    else
      Yields(Some(UpstreamRequest(model, messages, true)), Frames(Deltas(events)),
             ChatRecord(sessionId, "assistant", Concat(Deltas(events))))
  }

  /** `stream_openai`: credentials are checked before the client is built;
      each non-empty delta is appended to `reply_text` and yielded. */
  method StreamOpenAI(sessionId: string, key: Option<string>, clientInstalled: bool, model: string,
                      messages: seq<Message>, events: seq<Option<string>>) returns (gen: Generator)
    ensures gen == OpenAIGenerator(sessionId, key, clientInstalled, model, messages, events)
  {
    if !Present(key) || !clientInstalled {
      return Raises(None, HttpError(400, "Missing OpenAI setup."));
    }
    var request := UpstreamRequest(model, messages, true);
    var replyText := "";
    var chunks: seq<Frame> := [];
    var i := 0;
    while i < |events|
      invariant 0 <= i <= |events|
      invariant replyText == Concat(Deltas(events[..i]))
      invariant chunks == Frames(Deltas(events[..i]))
    {
      var delta := events[i].GetOr("");
      assert events[..i + 1][..i] == events[..i];
      assert Deltas(events[..i + 1]) == Deltas(events[..i]) + Keep(events[i]);
      if delta != "" {
        FramesSnoc(Deltas(events[..i]), delta);
        ConcatSnoc(Deltas(events[..i]), delta);
        replyText := replyText + delta;
        chunks := chunks + [SseLine(delta)];
      } else {
        assert Deltas(events[..i + 1]) == Deltas(events[..i]);
      }
      i := i + 1;
    }
    assert events[..i] == events;
    gen := Yields(Some(request), chunks, ChatRecord(sessionId, "assistant", replyText));
  }

  /** The OpenAI adapter fails before any request when the key or the client
      is missing; otherwise it sends the messages unchanged, emits each
      non-empty delta once in order, and the row it saves holds exactly the
      text its frames show, which is all the text the upstream sent. */
  lemma OpenAIOutput(sessionId: string, key: Option<string>, clientInstalled: bool, model: string,
                     messages: seq<Message>, events: seq<Option<string>>)
    ensures var g := OpenAIGenerator(sessionId, key, clientInstalled, model, messages, events);
      && (g.Raises? <==> !Present(key) || !clientInstalled)
      && (g.Raises? ==> g.sent.None? && g.error.status == 400)
      && (g.Yields? ==> g.sent == Some(UpstreamRequest(model, messages, true))
                        && Shown(g.chunks) == Some(g.onExhaustion.content)
                        && g.onExhaustion.content == ConcatPresent(events)
                        && (forall i :: 0 <= i < |g.chunks| ==> DecodeFrame(g.chunks[i]) == Some(Deltas(events)[i])))
  {
    ShownFrames(Deltas(events));
    DeltasKeepAllText(events);
    forall i | 0 <= i < |Deltas(events)| ensures DecodeFrame(SseLine(Deltas(events)[i])) == Some(Deltas(events)[i]) {
      FrameRoundTrip(Deltas(events)[i]);
    }
  }

  // ----- OpenRouter ------------------------------------------------------------

  /** A line the relay looks at: non-empty and starting with `data: `. */
  predicate IsDataLine(line: string)
  {
    line != "" && DataPrefix <= line
  }

  /** A data line whose stripped payload is `[DONE]`. */
  predicate IsDone(line: string)
  {
    IsDataLine(line) && Strip(line[|DataPrefix|..]) == "[DONE]"
  }

  /** The delta a single line would contribute that is not `[DONE]`: the parsed payload of a data line, nothing for any other line. */
  function LineDelta(line: string, parse: string -> Option<string>): Option<string>
  {
    if IsDataLine(line) then parse(line[|DataPrefix|..]) else None
  }

  /** The deltas relayed from the upstream lines: non-data lines are
      skipped, the first `[DONE]` ends the stream, and a payload that does
      not parse, has no delta, or has an empty one is skipped. */
  function RelayedDeltas(lines: seq<string>, parse: string -> Option<string>): (ds: seq<string>)
    ensures forall i :: 0 <= i < |ds| ==> ds[i] != ""
  {
    if lines == [] || IsDone(lines[0]) then []
    else Keep(LineDelta(lines[0], parse)) + RelayedDeltas(lines[1..], parse)
  }

  /** One line of the relay, as seen from position `i`. */
  lemma RelayStep(lines: seq<string>, i: nat, parse: string -> Option<string>)
    requires i < |lines|
    ensures RelayedDeltas(lines[i..], parse)
         == if IsDone(lines[i]) then [] else Keep(LineDelta(lines[i], parse)) + RelayedDeltas(lines[i + 1..], parse)
  {
    assert lines[i..][1..] == lines[i + 1..];
  }

  // The ways the relay loop moves on, each from `prefix` relayed so far.

  lemma RelaySkip(lines: seq<string>, i: nat, parse: string -> Option<string>, prefix: seq<string>)
    requires i < |lines| && !IsDataLine(lines[i])
    requires RelayedDeltas(lines, parse) == prefix + RelayedDeltas(lines[i..], parse)
    ensures RelayedDeltas(lines, parse) == prefix + RelayedDeltas(lines[i + 1..], parse)
  {
    RelayStep(lines, i, parse);
    assert [] + RelayedDeltas(lines[i + 1..], parse) == RelayedDeltas(lines[i + 1..], parse);
  }

  lemma RelayData(lines: seq<string>, i: nat, parse: string -> Option<string>, prefix: seq<string>)
    requires i < |lines| && IsDataLine(lines[i]) && !IsDone(lines[i])
    requires RelayedDeltas(lines, parse) == prefix + RelayedDeltas(lines[i..], parse)
    ensures var d := parse(lines[i][|DataPrefix|..]);
      RelayedDeltas(lines, parse)
      == (if d.Some? && d.value != "" then prefix + [d.value] else prefix) + RelayedDeltas(lines[i + 1..], parse)
  {
    RelayStep(lines, i, parse);
    var d := parse(lines[i][|DataPrefix|..]);
    var rest := RelayedDeltas(lines[i + 1..], parse);
    assert LineDelta(lines[i], parse) == d;
    if d.Some? && d.value != "" {
      Reassociate(prefix, [d.value], rest);
    } else {
      assert [] + rest == rest;
    }
  }

  lemma RelayEnd(lines: seq<string>, i: nat, parse: string -> Option<string>, prefix: seq<string>)
    requires i == |lines| || (i < |lines| && IsDone(lines[i]))
    requires RelayedDeltas(lines, parse) == prefix + RelayedDeltas(lines[i..], parse)
    ensures RelayedDeltas(lines, parse) == prefix
  {
    if i < |lines| {
      RelayStep(lines, i, parse);
    }
    assert prefix + [] == prefix;
  }

  function OpenRouterGenerator(sessionId: string, key: Option<string>, model: string, messages: seq<Message>,
                               status: nat, lines: seq<string>, parse: string -> Option<string>): Generator
  {
    if !Present(key) then Raises(None, HttpError(400, "Missing OPENROUTER_API_KEY."))
    else if !(200 <= status < 300) then Raises(Some(UpstreamRequest(model, messages, true)), UpstreamStatus(status))
    else
      Yields(Some(UpstreamRequest(model, messages, true)), Frames(RelayedDeltas(lines, parse)),
             ChatRecord(sessionId, "assistant", Concat(RelayedDeltas(lines, parse))))
  }

  /** `stream_openrouter`: the key is checked before the request; a non-2xx
      status raises before any line is read; then the line loop. */
  method StreamOpenRouter(sessionId: string, key: Option<string>, model: string, messages: seq<Message>,
                          status: nat, lines: seq<string>, parse: string -> Option<string>)
    returns (gen: Generator)
    ensures gen == OpenRouterGenerator(sessionId, key, model, messages, status, lines, parse)
  {
    if !Present(key) {
      return Raises(None, HttpError(400, "Missing OPENROUTER_API_KEY."));
    }
    var request := UpstreamRequest(model, messages, true);
    if !(200 <= status < 300) {
      return Raises(Some(request), UpstreamStatus(status));
    }
    var replyText := "";
    var chunks: seq<Frame> := [];
    ghost var emitted: seq<string> := [];
    var i := 0;
    while i < |lines|
      invariant 0 <= i <= |lines|
      invariant RelayedDeltas(lines, parse) == emitted + RelayedDeltas(lines[i..], parse)
      invariant replyText == Concat(emitted)
      invariant chunks == Frames(emitted)
    {
      var line := lines[i];
      if line != "" && DataPrefix <= line {
        var data := line[|DataPrefix|..];
        if Strip(data) == "[DONE]" {
          break;
        }
        var delta := parse(data);
        RelayData(lines, i, parse, emitted);
        if delta.Some? && delta.value != "" {
          ConcatSnoc(emitted, delta.value);
          FramesSnoc(emitted, delta.value);
          replyText := replyText + delta.value;
          chunks := chunks + [SseLine(delta.value)];
          emitted := emitted + [delta.value];
        }
      } else {
        RelaySkip(lines, i, parse, emitted);
      }
      i := i + 1;
    }
    RelayEnd(lines, i, parse, emitted);
    gen := Yields(Some(request), chunks, ChatRecord(sessionId, "assistant", replyText));
  }

  /** Nothing after the first `[DONE]` line is read: the relayed deltas do
      not depend on the lines that follow it. */
  lemma {:induction false} RelayStopsAtDone(before: seq<string>, done: string, after: seq<string>,
                                            parse: string -> Option<string>)
    requires IsDone(done)
    ensures RelayedDeltas(before + [done] + after, parse) == RelayedDeltas(before, parse)
    decreases |before|
  {
    if before == [] {
      assert before + [done] + after == [done] + after;
    } else {
      assert (before + [done] + after)[1..] == before[1..] + [done] + after;
      RelayStopsAtDone(before[1..], done, after, parse);
    }
  }

  /** What each line would contribute, line by line. */
  function LineDeltas(lines: seq<string>, parse: string -> Option<string>): (ds: seq<Option<string>>)
    ensures |ds| == |lines|
    ensures forall i :: 0 <= i < |lines| ==> ds[i] == LineDelta(lines[i], parse)
  {
    if lines == [] then [] else [LineDelta(lines[0], parse)] + LineDeltas(lines[1..], parse)
  }

  /** Without a `[DONE]` line the relay keeps exactly the non-empty parsed
      deltas of the data lines: skipped lines are dropped without error. */
  lemma {:induction false} RelayWithoutDone(lines: seq<string>, parse: string -> Option<string>)
    requires forall i :: 0 <= i < |lines| ==> !IsDone(lines[i])
    ensures RelayedDeltas(lines, parse) == Deltas(LineDeltas(lines, parse))
    decreases |lines|
  {
    if lines != [] {
      assert !IsDone(lines[0]);
      RelayWithoutDone(lines[1..], parse);
      DeltasCons(LineDelta(lines[0], parse), LineDeltas(lines[1..], parse));
    }
  }

  /** The OpenRouter adapter fails before any request without a key, and
      before any line with a non-2xx status; otherwise the row it saves holds
      exactly the text its frames show. */
  lemma OpenRouterOutput(sessionId: string, key: Option<string>, model: string, messages: seq<Message>,
                         status: nat, lines: seq<string>, parse: string -> Option<string>)
    ensures var g := OpenRouterGenerator(sessionId, key, model, messages, status, lines, parse);
      && (!Present(key) ==> g == Raises(None, HttpError(400, "Missing OPENROUTER_API_KEY.")))
      && (Present(key) ==> g.sent == Some(UpstreamRequest(model, messages, true)))
      && (g.Yields? <==> Present(key) && 200 <= status < 300)
      && (g.Yields? ==> Shown(g.chunks) == Some(g.onExhaustion.content))
  {
    ShownFrames(RelayedDeltas(lines, parse));
  }
}
