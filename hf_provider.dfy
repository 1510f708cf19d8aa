/**
 * services/hf_provider.py: the Hugging Face Inference API adapter. The
 * HTTP exchange is an input: `HfReply` is what the POST of the request
 * returned (or the transport failure it raised). Exceptions are `Err`
 * values whose `ErrorMessage` is what `str(e)` gives.
 */
module HfProvider {
  import opened Wrappers
  import opened Text
  import opened Models
  import Providers
  import Sse
  import EventStream

  const ApiBase := "https://api-inference.huggingface.co/models/"
  const ChatMaxNewTokens := 512
  const SummaryInstruction := "Summarize the following text:\n\n"
  const ChunkSize := 50

  /** The POST: URL, `Authorization` header, `inputs` and `max_new_tokens`. */
  datatype HfRequest = HfRequest(url: string, authorization: string, inputs: string, maxNewTokens: nat)

  /** An element of a JSON list result, with the two keys the adapter looks for. */
  datatype HfItem = HfItem(generatedText: Option<string>, summaryText: Option<string>)

  /** `resp.json()`: a list of items, or any other JSON value. `rendered` is `str(result)`. */
  datatype HfResult = HfList(items: seq<HfItem>, rendered: string) | HfOther(rendered: string)

  /** A response with its status, its body text and its body parsed as JSON
      (`Err` with the parser's message when it is not JSON), or the message
      of the transport error the client raised. */
  datatype HfReply =
    | HfResponse(status: nat, text: string, json: Result<HfResult, string>)
    | HfUnreachable(message: string)

  datatype HfError =
    | MissingKey                           // ValueError("HF_API_KEY is missing")
    | ApiError(status: nat, body: string)  // RuntimeError(f"Hugging Face API error ...")
    | InvalidJson(message: string)         // the decode error of resp.json()
    | Transport(message: string)           // an httpx error

  /** What a call did: the request it sent, if any, and its outcome. */
  datatype HfCall = HfCall(sent: Option<HfRequest>, result: Result<string, HfError>)

  /** `str(e)` of the exception behind an error. */
  function ErrorMessage(e: HfError): string
  {
    match e
    case MissingKey => "HF_API_KEY is missing"
    case ApiError(status, body) => "Hugging Face API error " + Decimal(status) + ": " + body
    case InvalidJson(m) => m
    case Transport(m) => m
  }

  /** The message of a non-200 answer carries its status and its whole body:
      the digits after the fixed prefix read back as the status, and the body
      follows verbatim. */
  lemma ApiErrorMessage(status: nat, body: string)
    ensures var m := ErrorMessage(ApiError(status, body));
      var p := "Hugging Face API error ";
      var d := |Decimal(status)|;
      && m[..|p|] == p
      && DecimalValue(m[|p|..|p| + d]) == status
      && m[|p| + d..] == ": " + body
  {
    var p := "Hugging Face API error ";
    var m := ErrorMessage(ApiError(status, body));
    assert m == p + Decimal(status) + (": " + body);
    assert m[|p|..|p| + |Decimal(status)|] == Decimal(status);
    DecimalRoundTrip(status);
  }

  // ----- call_hf ----------------------------------------------------------------

  /** One prompt line: `f"{m.role.capitalize()}: {m.content}\n"`. */
  function PromptLine(m: Message): string
  {
    Capitalize(m.role) + ": " + m.content + "\n"
  }

  function PromptLines(ms: seq<Message>): (lines: seq<string>)
    ensures |lines| == |ms|
  {
    seq(|ms|, i requires 0 <= i < |ms| => PromptLine(ms[i]))
  }

  lemma PromptLinesSnoc(ms: seq<Message>, i: nat)
    requires i < |ms|
    ensures PromptLines(ms[..i + 1]) == PromptLines(ms[..i]) + [PromptLine(ms[i])]
  {
    assert ms[..i + 1][..i] == ms[..i];
  }

  /** The conversation as one prompt: a line per message, then `Assistant:`. */
  function Prompt(ms: seq<Message>): string
  {
    Concat(PromptLines(ms)) + "Assistant:"
  }

  /** The prompt is never empty, so removing it from the reply is well defined,
      and it ends with the cue for the model's turn. */
  lemma PromptEndsWithCue(ms: seq<Message>)
    ensures |Prompt(ms)| >= 10
    ensures Prompt(ms)[|Prompt(ms)| - 10..] == "Assistant:"
  {
  }

  /** Capitalising a word written in lower-case ASCII upper-cases its first letter only. */
  lemma CapitalizeWord(w: string)
    requires |w| >= 1 && forall i :: 0 <= i < |w| ==> 'a' <= w[i] <= 'z'
    ensures Capitalize(w) == [UpperChar(w[0])] + w[1..]
  {
    assert Lower(w[1..]) == w[1..];
  }

  /** Capitalising a valid role gives one of the three speaker labels. */
  lemma RoleLabels(role: string)
    requires ValidRole(role)
    ensures Capitalize(role) == (if role == "user" then "User" else if role == "assistant" then "Assistant" else "System")
  {
    CapitalizeWord(role);
    if role == "user" {
      assert UpperChar('u') == 'U';
      assert ['U'] + "ser" == "User";
    } else if role == "assistant" {
      assert UpperChar('a') == 'A';
      assert ['A'] + "ssistant" == "Assistant";
    } else {
      assert UpperChar('s') == 'S';
      assert ['S'] + "ystem" == "System";
    }
  }

  function ChatRequestFor(key: string, model: string, messages: seq<Message>): HfRequest
  {
    HfRequest(ApiBase + model, "Bearer " + key, Prompt(messages), ChatMaxNewTokens)
  }

  /** Status and body checks shared by both calls: anything but 200 is an error. */
  function Receive(reply: HfReply): Result<HfResult, HfError>
  {
    match reply
    case HfUnreachable(m) => Err(Transport(m))
    case HfResponse(status, text, json) =>
      if status != 200 then Err(ApiError(status, text))
      else
        match json
        case Err(m) => Err(InvalidJson(m))
        case Ok(res) => Ok(res)
  }

  /** `resp.status_code != 200` is the only status test: a 2xx other than 200
      is an error too, and the error carries the body. */
  lemma ReceiveStatus(reply: HfReply)
    requires reply.HfResponse?
    ensures Receive(reply).Ok? <==> reply.status == 200 && reply.json.Ok?
    ensures reply.status != 200 ==> Receive(reply) == Err(ApiError(reply.status, reply.text))
  {
  }

  /** The reply of a generation call: `generated_text` of the first item with
      every copy of the prompt removed, then `summary_text` of the first item,
      both stripped; anything else is returned as `str(result)`. */
  function ExtractReply(res: HfResult, prompt: string): string
  {
    if res.HfList? && |res.items| > 0 && res.items[0].generatedText.Some? then
      Strip(RemoveAll(res.items[0].generatedText.value, prompt))
    else if res.HfList? && |res.items| > 0 && res.items[0].summaryText.Some? then
      Strip(res.items[0].summaryText.value)
    else res.rendered
  }

  /** A model that echoes the prompt and then continues gets only its
      continuation back, stripped, provided the continuation does not
      repeat the prompt. */
  lemma EchoRemoved(prompt: string, continuation: string, summary: Option<string>, rendered: string)
    requires prompt != [] && !Occurs(prompt, continuation)
    ensures ExtractReply(HfList([HfItem(Some(prompt + continuation), summary)], rendered), prompt)
         == Strip(continuation)
  {
    RemoveAllLeading(prompt, continuation);
    RemoveAllAbsent(continuation, prompt);
  }

  /** A reply read from a list item has no whitespace left at either end;
      `generated_text` takes precedence over `summary_text`: when it is
      present, the summary and the rendering of the result are ignored, and
      otherwise the prompt plays no part. */
  lemma ExtractedIsStripped(res: HfResult, prompt: string)
    requires res.HfList? && |res.items| > 0
    requires res.items[0].generatedText.Some? || res.items[0].summaryText.Some?
    ensures var r := ExtractReply(res, prompt);
      && Strip(r) == r
      && (res.items[0].generatedText.Some? ==> |r| <= |res.items[0].generatedText.value|)
    ensures res.items[0].generatedText.Some? ==>
      ExtractReply(res, prompt) == ExtractReply(HfList([res.items[0].(summaryText := None)] + res.items[1..], ""), prompt)
    ensures res.items[0].generatedText.None? ==> ExtractReply(res, prompt) == ExtractReply(res, "")
  {
    var item := res.items[0];
    if item.generatedText.Some? {
      StripIdempotent(RemoveAll(item.generatedText.value, prompt));
      StripSlice(RemoveAll(item.generatedText.value, prompt));
      assert ([item.(summaryText := None)] + res.items[1..])[0] == item.(summaryText := None);
    } else {
      StripIdempotent(item.summaryText.value);
    }
  }

  /** What `call_hf` does: reject a missing key before any request, else send
      the prompt and read the reply. */
  function ChatCall(key: Option<string>, model: string, messages: seq<Message>, reply: HfReply): HfCall
  {
    if !Providers.Present(key) then HfCall(None, Err(MissingKey))
    else
      var sent := Some(ChatRequestFor(key.value, model, messages));
      match Receive(reply)
      case Err(e) => HfCall(sent, Err(e))
      case Ok(res) => HfCall(sent, Ok(ExtractReply(res, Prompt(messages))))
  }

  /** `call_hf`: the `prompt +=` loop, then the request and the extraction. */
  method CallHf(key: Option<string>, model: string, messages: seq<Message>, reply: HfReply) returns (call: HfCall)
    ensures call == ChatCall(key, model, messages, reply)
  {
    if !Providers.Present(key) {
      return HfCall(None, Err(MissingKey));
    }
    var prompt := "";
    var i := 0;
    while i < |messages|
      invariant 0 <= i <= |messages|
      invariant prompt == Concat(PromptLines(messages[..i]))
    {
      PromptLinesSnoc(messages, i);
      ConcatSnoc(PromptLines(messages[..i]), PromptLine(messages[i]));
      prompt := prompt + PromptLine(messages[i]);
      i := i + 1;
    }
    assert messages[..i] == messages;
    prompt := prompt + "Assistant:";
    var request := HfRequest(ApiBase + model, "Bearer " + key.value, prompt, ChatMaxNewTokens);
    match Receive(reply)
    case Err(e) =>
      call := HfCall(Some(request), Err(e));
    case Ok(res) =>
      call := HfCall(Some(request), Ok(ExtractReply(res, prompt)));
  }

  /** Without a key nothing is sent; with one, exactly the prompt of the
      conversation is sent with a budget of 512 new tokens, and a non-200
      answer is an error naming the status and body. */
  lemma ChatCallContract(key: Option<string>, model: string, messages: seq<Message>, reply: HfReply)
    ensures var c := ChatCall(key, model, messages, reply);
      && (!Providers.Present(key) <==> c.sent.None?)
      && (!Providers.Present(key) ==> c.result == Err(MissingKey))
      && (c.sent.Some? ==> c.sent.value.inputs == Prompt(messages) && c.sent.value.maxNewTokens == 512
                           && c.sent.value.url == ApiBase + model)
      && (Providers.Present(key) && reply.HfResponse? && reply.status != 200 ==>
            c.result == Err(ApiError(reply.status, reply.text)))
  {
  }

  // ----- stream_hf --------------------------------------------------------------

  /** `text[i:i+50]`, the slice starting at `i`, cut at the end of the text. */
  function Slice(t: string, i: nat): (c: string)
    requires i <= |t|
  {
    if i + ChunkSize <= |t| then t[i..i + ChunkSize] else t[i..]
  }

  /** The slices at `0, 50, 100, ...` below `len(text)`: ceil(len/50) of them. */
  function Chunks(t: string): (cs: seq<string>)
    ensures ChunkSize * (|cs| - 1) < |t| <= ChunkSize * |cs| || (t == [] && cs == [])
  {
    seq((|t| + ChunkSize - 1) / ChunkSize, k requires 0 <= k < (|t| + ChunkSize - 1) / ChunkSize => Slice(t, ChunkSize * k))
  }

  /** A slice start inside the text is the start of a chunk. */
  lemma ChunkAt(t: string, k: nat)
    requires ChunkSize * k < |t|
    ensures k < |Chunks(t)| && Chunks(t)[k] == Slice(t, ChunkSize * k)
  {
  }

  /** The first multiple of 50 at or past the end of the text counts the chunks. */
  lemma ChunkCount(t: string, k: nat)
    requires |t| <= ChunkSize * k
    requires k == 0 || ChunkSize * (k - 1) < |t|
    ensures k == |Chunks(t)|
  {
  }

  lemma ChunksCons(t: string)
    requires t != []
    ensures Chunks(t) == [Slice(t, 0)] + (if |t| > ChunkSize then Chunks(t[ChunkSize..]) else [])
  {
    var cs := Chunks(t);
    if |t| > ChunkSize {
      var rest := Chunks(t[ChunkSize..]);
      assert |cs| == 1 + |rest|;
      forall k | 1 <= k < |cs| ensures cs[k] == rest[k - 1] {
        assert t[ChunkSize..][ChunkSize * (k - 1)..] == t[ChunkSize * k..];
      }
      assert cs == [cs[0]] + rest;
    } else {
      assert |cs| == 1;
    }
  }

  /** The chunks give back the text, every chunk but the last is 50
      characters long and the last one 1 to 50. */
  lemma {:induction false} ChunksPartition(t: string)
    ensures Concat(Chunks(t)) == t
    ensures forall k :: 0 <= k < |Chunks(t)| - 1 ==> |Chunks(t)[k]| == ChunkSize
    ensures Chunks(t) != [] ==> 1 <= |Chunks(t)[|Chunks(t)| - 1]| <= ChunkSize
    decreases |t|
  {
    if t != [] {
      ChunksCons(t);
      if |t| > ChunkSize {
        ChunksPartition(t[ChunkSize..]);
        ConcatCons(Slice(t, 0), Chunks(t[ChunkSize..]));
        assert t[..ChunkSize] + t[ChunkSize..] == t;
      } else {
        ConcatCons(Slice(t, 0), []);
        assert t + [] == t;
      }
    }
  }

  /** `f"data: {chunk}\n\n"`: the chunk as is, no JSON encoding. */
  function RawFrame(c: string): string
  {
    Sse.DataPrefix + c + "\n\n"
  }

  const DoneFrame := "data: [DONE]\n\n"

  function RawFrames(cs: seq<string>): (fs: seq<string>)
    ensures |fs| == |cs|
  {
    seq(|cs|, k requires 0 <= k < |cs| => RawFrame(cs[k]))
  }

  lemma RawFramesSnoc(cs: seq<string>, k: nat)
    requires k < |cs|
    ensures RawFrames(cs[..k + 1]) == RawFrames(cs[..k]) + [RawFrame(cs[k])]
  {
    assert cs[..k + 1][..k] == cs[..k];
  }

  /** What `stream_hf` yields once `call_hf` returned `text`. */
  function HfStream(text: string): seq<string>
  {
    RawFrames(Chunks(text)) + [DoneFrame]
  }

  /** The `for i in range(0, len(text), 50)` loop: one raw frame per slice. */
  method FrameSlices(text: string) returns (out: seq<string>)
    ensures out == RawFrames(Chunks(text))
  {
    ghost var cs := Chunks(text);
    out := [];
    var i := 0;
    ghost var k := 0;
    while i < |text|
      invariant i == ChunkSize * k
      invariant 0 <= k <= |cs|
      invariant k == 0 || ChunkSize * (k - 1) < |text|
      invariant out == RawFrames(cs[..k])
    {
      ChunkAt(text, k);
      var chunk := if i + ChunkSize <= |text| then text[i..i + ChunkSize] else text[i..];
      assert chunk == cs[k];
      RawFramesSnoc(cs, k);
      out := out + [RawFrame(chunk)];
      i := i + ChunkSize;
      k := k + 1;
    }
    ChunkCount(text, k);
    assert cs[..k] == cs;
  }

  /** `stream_hf`: call the model, then yield the slices and the end marker.
      An error of `call_hf` is raised at the first pull, before any frame. */
  method StreamHf(key: Option<string>, model: string, messages: seq<Message>, reply: HfReply)
    returns (sent: Option<HfRequest>, frames: Result<seq<string>, HfError>)
    ensures sent == ChatCall(key, model, messages, reply).sent
    ensures match ChatCall(key, model, messages, reply).result
            case Err(e) => frames == Err(e)
            case Ok(text) => frames == Ok(HfStream(text))
  {
    var call := CallHf(key, model, messages, reply);
    sent := call.sent;
    if call.result.Err? {
      return sent, Err(call.result.error);
    }
    var out := FrameSlices(call.result.value);
    frames := Ok(out + [DoneFrame]);
  }

  /** The stream always ends with the `[DONE]` frame, which is the only
      frame for an empty text; each other frame carries one chunk. */
  lemma HfStreamShape(text: string)
    ensures var fs := HfStream(text);
      && |fs| == |Chunks(text)| + 1
      && fs[|fs| - 1] == DoneFrame
      && (text == [] ==> fs == [DoneFrame])
      && forall k :: 0 <= k < |fs| - 1 ==> fs[k] == Sse.DataPrefix + Chunks(text)[k] + "\n\n"
  {
  }

  /** A chunk without line breaks reaches a client as one event carrying the
      chunk itself. */
  lemma RawFrameIsOneEvent(c: string)
    requires EventStream.NoLineBreak(c)
    ensures EventStream.Events(RawFrame(c)) == [c]
  {
    EventStream.DataFrameIsOneEvent(c);
  }

  /** A reply that is exactly `[DONE]` yields a frame equal to the end
      marker, so a client cannot tell it from the end of the stream. */
  lemma DoneReplyIsAmbiguous()
    ensures HfStream("[DONE]") == [DoneFrame, DoneFrame]
  {
    assert Chunks("[DONE]") == ["[DONE]"];
    assert RawFrame("[DONE]") == DoneFrame;
    assert RawFrames(["[DONE]"]) == [DoneFrame];
  }

  // The four steps of reading the frame of `"a\nb"`.

  lemma ReadDataA()
    ensures EventStream.Run(EventStream.Idle, "data: a") == EventStream.Step(EventStream.Parser("data: a", "", false), [])
  {
    EventStream.RunPlain(EventStream.Idle, "data: a");
  }

  lemma ReadFirstBreak()
    ensures EventStream.Run(EventStream.Parser("data: a", "", false), "\n") == EventStream.Step(EventStream.Parser("", "a\n", false), [])
  {
    EventStream.EndDataLine("a", "");
    assert Sse.DataPrefix + "a" == "data: a";
    assert "" + "a" + "\n" == "a\n";
  }

  lemma ReadB()
    ensures EventStream.Run(EventStream.Parser("", "a\n", false), "b") == EventStream.Step(EventStream.Parser("b", "a\n", false), [])
  {
  }

  lemma ReadEnd()
    ensures EventStream.Run(EventStream.Parser("b", "a\n", false), "\n\n") == EventStream.Step(EventStream.Idle, ["a"])
  {
    assert EventStream.ParseField("b") == EventStream.Field("b", "");
    var q := EventStream.Parser("", "a\n", false);
    assert EventStream.Feed(EventStream.Parser("b", "a\n", false), '\n') == EventStream.Step(q, []);
    assert ("a\n")[..1] == "a";
    assert EventStream.Feed(q, '\n') == EventStream.Step(EventStream.Idle, ["a"]);
  }

  /** Because the chunk is not escaped, a line break inside it ends the data
      line: a client reading the frame of `"a\nb"` gets only `"a"`. */
  lemma RawFrameLosesText()
    ensures EventStream.Events(RawFrame("a\nb")) == ["a"]
  {
    assert RawFrame("a\nb") == "data: a" + "\n" + "b" + "\n\n";
    var p := EventStream.Parser("data: a", "", false);
    var q := EventStream.Parser("", "a\n", false);
    var r := EventStream.Parser("b", "a\n", false);
    ReadDataA();
    ReadFirstBreak();
    ReadB();
    ReadEnd();
    EventStream.RunConcat(EventStream.Idle, "data: a", "\n");
    EventStream.RunConcat(EventStream.Idle, "data: a" + "\n", "b");
    EventStream.RunConcat(EventStream.Idle, "data: a" + "\n" + "b", "\n\n");
  }

  // ----- summarize_text ---------------------------------------------------------

  function SummaryRequestFor(key: string, model: string, text: string, maxTokens: nat): HfRequest
  {
    HfRequest(ApiBase + model, "Bearer " + key, SummaryInstruction + text, maxTokens)
  }

  /** The summary read from a list result: `generated_text` of the first item,
      else its `summary_text`, stripped and without prompt removal; anything
      else is `str(result)`. */
  function ExtractSummary(res: HfResult): string
  {
    if res.HfList? && |res.items| > 0 && res.items[0].generatedText.Some? then Strip(res.items[0].generatedText.value)
    else if res.HfList? && |res.items| > 0 && res.items[0].summaryText.Some? then Strip(res.items[0].summaryText.value)
    else res.rendered
  }

  /** `summarize_text(text, max_tokens)`. */
  function SummarizeText(key: Option<string>, model: string, text: string, maxTokens: nat, reply: HfReply): HfCall
  {
    if !Providers.Present(key) then HfCall(None, Err(MissingKey))
    else
      var sent := Some(SummaryRequestFor(key.value, model, text, maxTokens));
      match Receive(reply)
      case Err(e) => HfCall(sent, Err(e))
      case Ok(res) => HfCall(sent, Ok(ExtractSummary(res)))
  }

  /** Without a key nothing is sent; with one, the instruction followed by
      the text is sent with `max_new_tokens` equal to the argument, and the
      outcome is an error exactly when the answer is not a 200 with a JSON body. */
  lemma SummarizeContract(key: Option<string>, model: string, text: string, maxTokens: nat, reply: HfReply)
    ensures var c := SummarizeText(key, model, text, maxTokens, reply);
      && (!Providers.Present(key) <==> c.sent.None?)
      && (!Providers.Present(key) ==> c.result == Err(MissingKey))
      && (c.sent.Some? ==> c.sent.value.inputs == SummaryInstruction + text
                           && c.sent.value.inputs[|SummaryInstruction|..] == text
                           && c.sent.value.maxNewTokens == maxTokens)
      && (Providers.Present(key) ==>
            (c.result.Ok? <==> reply.HfResponse? && reply.status == 200 && reply.json.Ok?))
  {
  }

  /** Unlike a generation call, a summary is not cleaned of the input: a model
      that echoes it gets the echo back. */
  lemma SummaryKeepsEcho(text: string, summary: Option<string>, rendered: string)
    requires text != [] && !Text.IsSpace(text[0]) && !Text.IsSpace(text[|text| - 1])
    ensures ExtractSummary(HfList([HfItem(Some(text), summary)], rendered)) == text
  {
  }
}
