# Chat backend core, modelled in Dafny

This project models the request-handling core of the Python chat backend
`apps/backend-py`. The backend takes a chat request, stores the inbound
messages, and streams a reply from one of three providers: a mock, OpenAI,
or OpenRouter. Each reply fragment goes out as a Server-Sent Events frame
`data: {"content": …}\n\n`, and the provider stores its assistant row once
its stream is exhausted. The transcript is read back per session. A separate
upload router keeps the text of uploaded files, or a Hugging Face summary of
long ones, and can clear them again.

Modules, one per source file:

- `Wrappers`: Option and Result.
- `Text`: the Python string built-ins the code uses, over code points. These are `"".join`, `split(" ")`, `"\n".join`, `strip()`, `replace(prompt, "")`, `lower()`, `capitalize()` and `str(n)`.
- `Sse`: `sse_line`. This covers `json.dumps` string escaping with `ensure_ascii` (section 7 of RFC 8259, with surrogate pairs), UTF-8 encoding, and the decoder that inverts the frame.
- `EventStream`: the client side of the stream. It is the line and data-field part of the event-stream interpretation in section 9.2.6 of the WHATWG HTML Living Standard.
- `Models`: `Message`, `ChatRequest`, the `ChatHistory` and `FileContext` rows, request validation, and `session_id or str(uuid4())`.
- `Tables`: the database as a class `Store` whose two tables are `seq` fields. `SaveHistory` is `save_history`.
- `History`: `GET /history/{session_id}`.
- `Providers`: the mock, OpenAI and OpenRouter generators.
- `HfProvider`: `call_hf`, `stream_hf` and `summarize_text`.
- `Chat`: `POST /chat`, including the `event_gen` relay.
- `Upload`: `POST /upload` and `DELETE /upload/clear`.

## How generators are modelled

- A provider generator becomes a `Generator` value in one of two forms:
  - `Raises(sent, error)`: the generator raises at its first pull. `sent` is the upstream request already made, if any.
  - `Yields(sent, chunks, onExhaustion)`: the chunks it yields, and the assistant row its epilogue writes.
- The epilogue is reached only by the pull that exhausts the generator.
- `Chat.RelayChunks` is the `event_gen` loop. It pulls chunk `i`, consults the disconnect oracle `disconnect[i]`, then either forwards the chunk or stops.
- The row is written only when every chunk was pulled without a disconnect.
- Each upstream is an input:
  - OpenAI: the sequence of optional deltas it would stream.
  - OpenRouter: the response status, the lines it would send, and an abstract JSON reading `line -> Option<delta>`.
  - Hugging Face: the response (status, body text and parsed JSON), or a transport failure.
- An uploaded file is the result of each extractor. Each result is `Err` carrying the message of the exception the library raised.
- `uuid4()` becomes a `freshId` parameter.

## Model

| member | source | states |
|---|---|---|
| Sse.EscapePrintable | apps/backend-py/services/sse.py:4 | with `ensure_ascii` the escaped text is printable ASCII only: no raw LF or CR, nothing non-ASCII |
| Sse.EscapeChar | apps/backend-py/services/sse.py:4 | definition of what `json.dumps` writes for one character inside a string: `\"` and `\\`, the escapes `\b \f \n \r \t`, printable ASCII as itself, `\uXXXX` below U+10000 and a surrogate pair above; inverted by the decoder in `Sse.UnescapeChar` |
| Sse.Escape | apps/backend-py/services/sse.py:4 | definition of the body of the JSON string literal, one `EscapeChar` per character; `Sse.UnescapeEscape` proves the decoder recovers the string |
| Sse.JsonContent | apps/backend-py/services/sse.py:4 | definition of `json.dumps({"content": s})` with the default separators: `{"content": "` + escaped body + `"}` |
| Sse.SseLine | apps/backend-py/services/sse.py:3-4 | definition of `sse_line`: the UTF-8 bytes of `data: ` + the JSON + `\n\n`; its shape and round trip are `Sse.SseLineShape` and `Sse.FrameRoundTrip` |
| Sse.Unescape | apps/backend-py/services/sse.py:4 | definition of the client's strict reading of a string-literal body the encoder writes, independent of the encoder: `None` for a raw quote or control character, a bad escape, or an unpaired surrogate escape; `Sse.UnescapeEscape` proves it inverts the encoder |
| Sse.DecodeFrame | apps/backend-py/services/sse.py:4 | definition of a client reading one frame: ASCII bytes, the `data: ` prefix and `\n\n` suffix removed, then the `content` of the JSON |
| Sse.EventTextShape | apps/backend-py/services/sse.py:4 | the frame text starts with `data: `, ends with `\n\n`, and everything before those two line feeds is printable ASCII |
| Sse.Utf8OfAscii | apps/backend-py/services/sse.py:4 | on ASCII text UTF-8 writes one byte per character, equal to its code |
| Sse.SseLineShape | apps/backend-py/services/sse.py:3-4 | the encoded frame, defined for every string, has as many bytes as characters; it starts with the bytes of `data: ` and ends with two LFs; it has no LF or CR before those |
| Sse.Hex4RoundTrip | apps/backend-py/services/sse.py:4 | the four hex digits of a `\uXXXX` escape read back as the code unit |
| Sse.CombineSplit | apps/backend-py/services/sse.py:4 | a code point above U+FFFF is recovered from the surrogate pair it is escaped as |
| Sse.UnescapeChar | apps/backend-py/services/sse.py:4 | reading back the escape of any one character yields that character and continues with the rest |
| Sse.UnescapeEscape | apps/backend-py/services/sse.py:4 | decoding the escaped body of any string gives back that string |
| Sse.JsonContentRoundTrip | apps/backend-py/services/sse.py:4 | `json.loads(json.dumps({"content": s}))["content"] == s` for every `s` |
| Sse.FrameRoundTrip | apps/backend-py/services/sse.py:4 | removing the prefix and suffix of a frame's bytes and decoding the JSON returns the original content, for every string |
| EventStream.FirstColon | apps/backend-py/services/sse.py:4 | the field/value split of an event-stream line: no colon before the position, a colon at it when inside the line |
| EventStream.RunConcat | apps/backend-py/services/sse.py:4 | the client reader is incremental: reading `a + b` is reading `a`, then `b` from the state `a` left |
| EventStream.DataLine | apps/backend-py/services/sse.py:4 | `data: ` followed by a payload is the `data` field with that payload |
| EventStream.DataFrameIsOneEvent | apps/backend-py/services/sse.py:4 | `data: ` + a payload without line breaks + a blank line is exactly one event with that payload, and leaves the reader idle |
| EventStream.FrameIsOneEvent | apps/backend-py/services/sse.py:4 | one `sse_line` frame is exactly one event, carrying the JSON payload |
| EventStream.FramesAreEvents | apps/backend-py/services/sse.py:4 | a body of consecutive frames is read as one event per frame, in order |
| EventStream.FramesDeliverContents | apps/backend-py/services/sse.py:4 | a client reading a body of frames decodes every content, in order, and nothing else |
| Models.FirstInvalid | apps/backend-py/models/message.py:4-6 | none exactly when every message has a valid role; otherwise the index of one whose role is invalid |
| Models.Validate | apps/backend-py/models/message.py:4-10 | a request is accepted, unchanged, iff every message's role is exactly `user`, `assistant` or `system`, content being free; a rejection names an invalid message |
| Models.ResolveSessionId | apps/backend-py/routes/chat.py:15 | definition of `req.session_id or str(uuid4())`: a supplied non-empty id as is, an absent or empty one replaced by the fresh id |
| Tables.Store.SaveHistory | apps/backend-py/services/providers.py:18-21 | the history table gains exactly the record `(session_id, role, content)` at its end; earlier rows and the file table are unchanged |
| Tables.Store.AddFileContext | apps/backend-py/routes/upload.py:53-55 | the file table gains exactly the row `(session_id, filename, content)` at its end; the history table is unchanged |
| History.GetHistory | apps/backend-py/routes/history.py:9-13 | the result has no more entries than the log |
| History.HistoryAppend | apps/backend-py/routes/history.py:11-13 | the query distributes over a log split in two, keeping insertion order |
| History.HistoryAfterSave | apps/backend-py/routes/history.py:11-13 | after `save_history(sid, r, c)` the history of `sid` ends with `(r, c)` and every other session's history is unchanged |
| History.HistoryMembers | apps/backend-py/routes/history.py:11-13 | `{role, content}` is in the result iff some row of that session has that role and content; no row of another session contributes |
| History.HistoryOfUnknown | apps/backend-py/routes/history.py:11-13 | a session without rows yields an empty list rather than an error |
| Text.SplitJoin | apps/backend-py/services/providers.py:25 | joining the parts of `s.split(" ")` with the separator gives back `s` |
| Text.Split | apps/backend-py/services/providers.py:25 | definition of `str.split(" ")`: always at least one part, consecutive separators giving empty parts; stated in `Text.SplitJoin` and `Text.SplitPartsAvoidSep` |
| Text.SplitPartsAvoidSep | apps/backend-py/services/providers.py:25 | no part of a split contains the separator |
| Text.StripSlice | apps/backend-py/services/hf_provider.py:45 | `strip()` keeps a contiguous slice, cuts only whitespace, and leaves no whitespace at either end |
| Text.StripIdempotent | apps/backend-py/services/hf_provider.py:45 | stripping twice is stripping once |
| Text.Strip | apps/backend-py/services/hf_provider.py:45 | definition of `str.strip()` over Python's whitespace; stated in `Text.StripSlice` and `Text.StripIdempotent` |
| Text.RemoveAll | apps/backend-py/services/hf_provider.py:45 | definition of `str.replace(prompt, "")`: non-overlapping occurrences removed from the left, an empty pattern changing nothing; stated in `Text.RemoveAllAbsent` and `Text.RemoveAllLeading` |
| Text.RemoveAllAbsent | apps/backend-py/services/hf_provider.py:45 | `replace(pat, "")` of a pattern that does not occur changes nothing |
| Text.RemoveAllLeading | apps/backend-py/services/hf_provider.py:45 | a leading copy of the pattern is removed and the rest is treated alone |
| Text.Capitalize | apps/backend-py/services/hf_provider.py:22 | definition of `str.capitalize` over ASCII letters: first character upper case, the rest lower case, same length; what it does to the three roles is proved in `HfProvider.RoleLabels` |
| Text.LowerIdempotent | apps/backend-py/config.py:6 | lower-casing an already lower-cased name changes nothing |
| Text.Lower | apps/backend-py/config.py:6 | definition of `str.lower()` over ASCII letters, character by character |
| Text.DecimalRoundTrip | apps/backend-py/services/hf_provider.py:39 | the digits `str(n)` writes read back as `n` |
| Text.Decimal | apps/backend-py/services/hf_provider.py:39 | definition of `str(status_code)`: decimal digits without a leading zero; stated in `Text.DecimalRoundTrip` |
| Providers.ShownFrames | apps/backend-py/services/providers.py:26 | the frames of a run of contents show exactly those contents, concatenated |
| Providers.StreamMock | apps/backend-py/services/providers.py:23-28 | the token loop builds one `sse_line({"content": token + " "})` per token of `reply.split(" ")`, then the assistant row holding `reply` |
| Providers.MockGenerator | apps/backend-py/services/providers.py:23-28 | definition of the mock generator: one frame per `" "`-token plus a space, no upstream request, and the reply saved on exhaustion; stated in `Providers.MockOutput` |
| Providers.SpacedJoin | apps/backend-py/services/providers.py:25-26 | giving every token a trailing space and concatenating is joining with spaces plus one final space |
| Providers.SpacedSplit | apps/backend-py/services/providers.py:24-26 | the mock's fragments concatenate to `reply + " "` for every reply |
| Providers.MockOutput | apps/backend-py/services/providers.py:24-28 | one frame per token, each decoding to `token + " "`; the fragments show `reply + " "` while the row stores `reply` without it |
| Providers.Deltas | apps/backend-py/services/providers.py:43-44 | the kept deltas are no more than the events and none is empty |
| Providers.DeltasAppend | apps/backend-py/services/providers.py:42-46 | filtering deltas distributes over a split of the upstream events |
| Providers.DeltasKeepAllText | apps/backend-py/services/providers.py:43-45 | dropping empty or missing deltas loses no text: the kept ones join to the text of all events |
| Providers.StreamOpenAI | apps/backend-py/services/providers.py:30-47 | the key/client check, the request, and the loop that emits each non-empty delta once in order and stores `reply_text` |
| Providers.OpenAIGenerator | apps/backend-py/services/providers.py:30-47 | definition of the OpenAI generator: the 400 setup error before any request, else the request, one frame per non-empty delta and their concatenation saved; stated in `Providers.OpenAIOutput` |
| Providers.OpenAIOutput | apps/backend-py/services/providers.py:31-47 | fails with 400 before any request iff the key or the client is missing; otherwise sends the messages unchanged with `stream=True`; each frame decodes to the next kept delta; the stored text is both what the frames show and all the upstream text |
| Providers.RelayedDeltas | apps/backend-py/services/providers.py:66-77 | the relayed deltas are never empty |
| Providers.StreamOpenRouter | apps/backend-py/services/providers.py:49-80 | the key check, `raise_for_status`, and the line loop that skips non-data lines, stops at `[DONE]`, skips unparsable lines and stores `reply_text` |
| Providers.OpenRouterGenerator | apps/backend-py/services/providers.py:49-80 | definition of the OpenRouter generator: the 400 key error, a non-2xx status raised after the request, else the relayed deltas framed and saved; stated in `Providers.OpenRouterOutput` |
| Providers.RelayStopsAtDone | apps/backend-py/services/providers.py:67-71 | nothing after the first `[DONE]` data line is read |
| Providers.RelayWithoutDone | apps/backend-py/services/providers.py:66-79 | without `[DONE]` the relay keeps exactly the non-empty parsed deltas of the data lines; other lines are dropped without error |
| Providers.OpenRouterOutput | apps/backend-py/services/providers.py:50-80 | no key: 400 before any request; otherwise the request carries the messages; the generator yields iff the status is 2xx, and the stored text is what its frames show |
| HfProvider.ApiErrorMessage | apps/backend-py/services/hf_provider.py:38-39 | the message of a non-200 answer is the fixed prefix, the status's digits (reading back as the status), `: `, then the whole body |
| HfProvider.PromptLine | apps/backend-py/services/hf_provider.py:22 | definition of one prompt line: the capitalised role, `: `, the content and a line feed |
| HfProvider.Prompt | apps/backend-py/services/hf_provider.py:20-23 | definition of the prompt: the lines of all messages in order, then `Assistant:`; the loop building it is `HfProvider.CallHf` |
| HfProvider.Receive | apps/backend-py/services/hf_provider.py:31-41 | definition of reading the POST: a transport failure, a status other than 200 (with the body) or a body that is not JSON is an error, else the JSON result; stated in `HfProvider.ReceiveStatus` |
| HfProvider.ExtractReply | apps/backend-py/services/hf_provider.py:43-54 | definition of the extraction: `generated_text` of the first item with the prompt removed and stripped, else its `summary_text` stripped, else `str(result)`; stated in `HfProvider.ExtractedIsStripped` and `HfProvider.EchoRemoved` |
| HfProvider.ChatCall | apps/backend-py/services/hf_provider.py:11-54 | definition of `call_hf`: missing key before any request, else the request and the reading of its answer; stated in `HfProvider.ChatCallContract` |
| HfProvider.HfStream | apps/backend-py/services/hf_provider.py:63-66 | definition of what `stream_hf` yields after a successful call: one raw frame per slice, then the end marker; stated in `HfProvider.HfStreamShape` |
| HfProvider.ExtractSummary | apps/backend-py/services/hf_provider.py:94-100 | definition of the summary read from the result: `generated_text` of the first item stripped, else `summary_text` stripped, else `str(result)`; no prompt removal |
| HfProvider.SummarizeText | apps/backend-py/services/hf_provider.py:68-100 | definition of `summarize_text`: missing key before any request, else the instruction and text with the token budget, and the reading of the answer; stated in `HfProvider.SummarizeContract` |
| HfProvider.PromptEndsWithCue | apps/backend-py/services/hf_provider.py:20-23 | the prompt is never empty and ends with `Assistant:` |
| HfProvider.RoleLabels | apps/backend-py/services/hf_provider.py:22 | a valid role is labelled `User`, `Assistant` or `System` |
| HfProvider.ReceiveStatus | apps/backend-py/services/hf_provider.py:38-41 | only status 200 with a JSON body is accepted; any other status is an error carrying the status and body, so another 2xx also fails |
| HfProvider.EchoRemoved | apps/backend-py/services/hf_provider.py:44-45 | a model that echoes the prompt and continues gets only its continuation, stripped |
| HfProvider.ExtractedIsStripped | apps/backend-py/services/hf_provider.py:44-49 | a reply read from a list item has no whitespace at either end; when the first item has `generated_text` the reply is the same with its `summary_text` dropped and any `str(result)`, so `generated_text` wins; without it the prompt plays no part |
| HfProvider.CallHf | apps/backend-py/services/hf_provider.py:11-54 | the `prompt +=` loop, the request and the extraction give exactly the call `call_hf` makes |
| HfProvider.ChatCallContract | apps/backend-py/services/hf_provider.py:16-39 | no key: `ValueError` and nothing sent; with a key the request carries the prompt, 512 new tokens and the model's URL; a non-200 status is an error with status and body |
| HfProvider.ChunksPartition | apps/backend-py/services/hf_provider.py:64-65 | the 50-character slices concatenate back to the text; every slice but the last has length 50 and the last has length 1 to 50 |
| HfProvider.Chunks | apps/backend-py/services/hf_provider.py:64 | the number of slices is ceil(len/50) |
| HfProvider.FrameSlices | apps/backend-py/services/hf_provider.py:64-65 | the slice loop yields one raw `data: ` frame per 50-character slice of the reply, in order, covering the whole reply |
| HfProvider.StreamHf | apps/backend-py/services/hf_provider.py:56-66 | an error of `call_hf` is raised before any frame; otherwise the frames are exactly those of the slices, then the end marker |
| HfProvider.HfStreamShape | apps/backend-py/services/hf_provider.py:64-66 | the stream always ends with `data: [DONE]\n\n`, an empty text yields only that, and each other frame is `data: ` + the raw slice + a blank line |
| HfProvider.RawFrameIsOneEvent | apps/backend-py/services/hf_provider.py:65 | a slice without line breaks reaches the client as one event carrying it verbatim |
| HfProvider.RawFrameLosesText | apps/backend-py/services/hf_provider.py:65 | because the slice is not JSON-escaped, a line break inside it changes the event (`a\nb` is read as `a`) |
| HfProvider.DoneReplyIsAmbiguous | apps/backend-py/services/hf_provider.py:64-66 | a reply that is exactly `[DONE]` yields a frame equal to the end marker |
| HfProvider.SummarizeContract | apps/backend-py/services/hf_provider.py:68-100 | no key: `ValueError` and nothing sent; with a key the input is the instruction followed by the text and `max_new_tokens` is the argument; the result is an error exactly when the answer is not a 200 with a JSON body |
| HfProvider.SummaryKeepsEcho | apps/backend-py/services/hf_provider.py:95-98 | unlike a chat reply, a summary is not cleaned of the input text |
| Chat.ProviderNameIgnoresCase | apps/backend-py/config.py:6 | the provider name does not depend on the setting's case, and defaults to `mock` |
| Chat.ProviderName | apps/backend-py/config.py:6 | definition of `os.getenv("PROVIDER", "mock").lower()`, the setting an input |
| Chat.SelectGenerator | apps/backend-py/routes/chat.py:23-30 | definition of the `if/elif` chain: `mock`, `openai` and `openrouter` get their adapters with the configured or default model, any other name none; stated in `Chat.Dispatch` and `Chat.ProviderGetsMessages` |
| Chat.Drive | apps/backend-py/routes/chat.py:32-38 | definition of the relay: a raising generator sends nothing; otherwise the chunks up to the first disconnect, and the assistant row only when all were pulled; stated in `Chat.RelayIsPrefix` and `Chat.AssistantRowIffExhausted` |
| Chat.Turn | apps/backend-py/routes/chat.py:14-38 | definition of the whole turn as written: 422 with no rows for an invalid request, else the inbound rows, then 400 for an unknown provider or the relay; stated in `Chat.InboundFirst`, `Chat.InvalidWritesNothing` and `Chat.MockTurn` |
| Chat.CheckedTurn | apps/backend-py/routes/chat.py:14-38 | definition of the corrected turn: as `Chat.Turn`, but a setup error the generator raises before any request is answered as that HTTP error; stated in `Chat.CheckedSetupErrorIs400` |
| Chat.InboundRecords | apps/backend-py/routes/chat.py:19-20 | one row per inbound message |
| Chat.InboundRead | apps/backend-py/routes/chat.py:19-20 | read back, the inbound rows are the request's messages, in order, under the resolved session only |
| Chat.InboundHistory | apps/backend-py/routes/chat.py:19-20 | after the inbound loop the session's history ends with the request's messages, and other sessions' histories are unchanged |
| Chat.Dispatch | apps/backend-py/routes/chat.py:23-30 | the `if/elif` chain picks the adapter matching the name, and none for any other name |
| Chat.ProviderGetsMessages | apps/backend-py/routes/chat.py:23-28 | only `mock`, `openai` and `openrouter` select a generator, and every adapter that sends a request sends exactly `req.messages` |
| Chat.FirstDisconnect | apps/backend-py/routes/chat.py:33-35 | the first pulled chunk at which a disconnect is observed; no disconnect before it |
| Chat.RelayChunks | apps/backend-py/routes/chat.py:32-36 | the relayed body is the chunks before the first disconnect; the generator is exhausted iff no disconnect was seen |
| Chat.PersistInbound | apps/backend-py/routes/chat.py:19-20 | the history table gains the inbound rows in request order |
| Chat.EventGen | apps/backend-py/routes/chat.py:32-38 | the relay writes the generator's row only on exhaustion and answers the streamed body |
| Chat.Chat | apps/backend-py/routes/chat.py:14-38 | the turn as written: the rows written, in order, and the response |
| Chat.InboundFirst | apps/backend-py/routes/chat.py:14-30 | a valid turn first writes every inbound row, then at most one more; an unknown provider answers 400 after the inbound rows are written |
| Chat.InvalidWritesNothing | apps/backend-py/models/message.py:4-10 | a request with an invalid role is answered 422 and writes nothing |
| Chat.RelayIsPrefix | apps/backend-py/routes/chat.py:32-36 | the body is a prefix of the generator's chunks, unchanged and in order; the chunk at which a disconnect is seen is not forwarded; with no disconnect the body is every chunk |
| Chat.AssistantRowIffExhausted | apps/backend-py/routes/chat.py:32-36 | the assistant row is written iff the generator yields and no disconnect is seen on any pulled chunk; it is then the generator's row, after all inbound rows |
| Chat.DriveConnected | apps/backend-py/routes/chat.py:32-36 | with no disconnect, a yielding generator is relayed whole and saves its row |
| Chat.MockTurn | apps/backend-py/routes/chat.py:14-38 | a mock turn without disconnect writes the inbound rows then the mock's reply, and sends every mock frame |
| Chat.MockTurnHistory | apps/backend-py/routes/chat.py:14-38 | after a mock turn the session's history is the old one, then the request's messages, then the reply |
| Chat.SetupErrorIsStreamedAs200 | apps/backend-py/routes/chat.py:30-38 | as written, a missing OpenAI key gives a 200 stream with no frame that ends in an error; the inbound rows stay |
| Chat.ChatChecked | apps/backend-py/routes/chat.py:14-38 | `chat` with the adapter's setup error answered before the stream starts |
| Chat.CheckedSetupErrorIs400 | apps/backend-py/services/providers.py:31-51 | with the check, a missing key or client for a hosted provider is answered 400 with the adapter's detail; rows are as before and every other turn is unchanged |
| Upload.Classify | apps/backend-py/routes/upload.py:20-30 | the suffix tests in order `.txt`, `.pdf`, `.docx`; the first that matches wins; none for any other name |
| Upload.Content | apps/backend-py/routes/upload.py:19-30 | definition of the text read from the file for its suffix, or the message of what stopped reading it (`400: Unsupported file type` for any other suffix) |
| Upload.PdfText | apps/backend-py/routes/upload.py:23-25 | the page loop builds the pages' texts concatenated, a page without text adding `""` |
| Upload.PdfTextSkipsEmptyPages | apps/backend-py/routes/upload.py:24-25 | the PDF content is the join of every page's text, a page without text counting as empty |
| Upload.Retained | apps/backend-py/routes/upload.py:35-46 | definition of the threshold rule: the notice and the text kept, given the outcome of summarising; stated in `Upload.KeepRule` and `Upload.NoticeNamesFile` |
| Upload.KeepRule | apps/backend-py/routes/upload.py:35-46 | up to 2000 characters the content is kept verbatim; above, the summary when summarising succeeded, else exactly the first 2000 characters with the partial notice naming the error |
| Upload.NoticeNamesFile | apps/backend-py/routes/upload.py:40-46 | every notice starts with the clip, a space and the file name |
| Upload.ReadContent | apps/backend-py/routes/upload.py:19-30 | the file's text as the branch on its suffix reads it, or the message of what stopped it |
| Upload.UploadSpec | apps/backend-py/routes/upload.py:16-64 | definition of the upload: a 500 naming the reading error with nothing written, else one `system` notice row, one file row and the `saved` answer under the resolved session; stated in `Upload.UploadWritesNoticeAndFile` and `Upload.UnsupportedIs500` |
| Upload.Process | apps/backend-py/routes/upload.py:35-46 | the notice and the text kept are exactly those of the threshold rule: verbatim up to 2000 characters, else the summary, or on a summarising error the first 2000 characters with the error named |
| Upload.UploadFile | apps/backend-py/routes/upload.py:16-64 | on success one `system` notice row and one file row are appended under the resolved session, answering `saved`; any failure appends nothing and answers 500 naming it |
| Upload.UnsupportedIs500 | apps/backend-py/routes/upload.py:29-64 | an unsupported suffix is answered 500 `Failed to process file: 400: Unsupported file type` and writes nothing |
| Upload.UploadWritesNoticeAndFile | apps/backend-py/routes/upload.py:48-61 | a successful upload writes exactly one `system` notice that clearing would remove and one file row for that file, both under the resolved session |
| Upload.ClearUploadedFiles | apps/backend-py/routes/upload.py:66-83 | the history table loses the session's notices and the file table every row of the session, and nothing else; the rows that remain keep their order (`Upload.PurgeNoticesAppend`, `Upload.PurgeFilesAppend`) |
| Upload.IsUploadNotice | apps/backend-py/routes/upload.py:72-76 | definition of the rows the history delete matches: that session, role `system`, content starting with the clip |
| Upload.PurgeNotices | apps/backend-py/routes/upload.py:71-77 | definition of the history left by the delete, in order; stated in `Upload.PurgeNoticesAppend`, `Upload.PurgeNoticesOne`, `Upload.PurgeNoticesMembers` and `Upload.PurgeKeepsOtherSessions` |
| Upload.PurgeFiles | apps/backend-py/routes/upload.py:79-81 | definition of the file rows left by the delete, in order; stated in `Upload.PurgeFilesAppend`, `Upload.PurgeFilesOne` and `Upload.PurgeFilesMembers` |
| Upload.PurgeNoticesMembers | apps/backend-py/routes/upload.py:71-77 | a history row survives iff it is not a `system` row of that session whose content starts with the clip |
| Upload.PurgeFilesMembers | apps/backend-py/routes/upload.py:79-81 | a file row survives iff it belongs to another session |
| Upload.PurgeNoticesAppend | apps/backend-py/routes/upload.py:71-77 | the history delete distributes over a log split in two, so the surviving rows keep their order and each survives once |
| Upload.PurgeNoticesOne | apps/backend-py/routes/upload.py:72-76 | a single row is dropped iff it is one of the session's notices, and is otherwise kept unchanged |
| Upload.PurgeFilesAppend | apps/backend-py/routes/upload.py:79-81 | the file delete distributes over a table split in two, so the surviving rows keep their order and each survives once |
| Upload.PurgeFilesOne | apps/backend-py/routes/upload.py:80 | a single file row is dropped iff it belongs to the session |
| Upload.PurgeKeepsOtherSessions | apps/backend-py/routes/upload.py:71-77 | every other session's history is unchanged, order included |
| Upload.PurgeNoticesIdempotent | apps/backend-py/routes/upload.py:71-77 | clearing notices twice is clearing them once |
| Upload.PurgeFilesIdempotent | apps/backend-py/routes/upload.py:79-81 | clearing files twice is clearing them once |
| Upload.UploadThenClear | apps/backend-py/routes/upload.py:48-81 | clearing after an upload leaves both tables as clearing before it would |

## Left out

- Network I/O (the OpenAI client, `httpx` streaming, Hugging Face POSTs) is replaced by inputs: a delta sequence, a status with a line sequence, and an `HfReply`.
- `async` scheduling, `asyncio.sleep` and the transport's disconnect detection: concurrency and runtime. A disconnect is a boolean oracle per pulled chunk.
- `uuid4()` is a `freshId` parameter.
- ORM machinery: auto-increment ids (a row's id is its place in the log), `created_at`, commits and the session lifetime.
- Database exceptions are not modelled. So the 500 `Failed to clear files` path of `clear_uploaded_files` is not modelled, and neither is a write failure inside `upload_file`.
- Environment loading in `config.py` and `hf_provider.py`: the provider name, keys and models are parameters. Only the lower-casing of the provider name is modelled.
- The `temperature` float in the Hugging Face payload and the `HTTP-Referer`/`X-Title` headers of the OpenRouter request are not modelled. Neither affects the result.
- `print` calls.
- PDF, DOCX and UTF-8 extraction of uploads: foreign libraries. Their results are inputs.
- A missing `filename` (`None`) is not modelled. Its `endswith` would raise and be answered 500.
- The JSON parser applied to OpenRouter lines is an abstract `line -> Option<delta>`, which covers both the parse failures and the missing deltas that the code skips.
- `resp.json()` of a Hugging Face answer is an input, as is `str(result)` of it.
- HfProvider.ExtractReply and HfProvider.ExtractSummary: the JSON result is narrowed to a list of items with optional string `generated_text`/`summary_text`, or any other value. Two shapes raise in the code and cannot be represented here. One is a first item that is not an object: for a string, `in` is a substring test and the indexing then raises `TypeError`. The other is a `generated_text` or `summary_text` that is `null` or not a string, where `.replace`/`.strip` raises.
- Python's `str(e)` of a transport error and of `resp.json()` failures are input strings.
- Exceptions the OpenAI client or the OpenRouter stream could raise mid-stream are not modelled.
- Request-time failures of the upstream calls are not modelled: `client.chat.completions.create(...)` raising at the first pull (a wrong key, a rate limit, a connection error; services/providers.py:35-39) and a connect error while opening `client.stream(...)` (services/providers.py:62-64). In the code either makes the generator raise before any frame, after the request was sent, and no assistant row is written.
- Providers.OpenAIOutput: its `g.Raises? <==> !Present(key) || !clientInstalled` holds of the model only, because the request-time failures above are not inputs.
- Providers.OpenRouterOutput: its `g.Yields? <==> Present(key) && 200 <= status < 300` likewise leaves out a connect error while opening the stream.
- Text.Lower: maps ASCII letters only, not the full Unicode case mapping of `str.lower`. Text.Capitalize is limited the same way.
- EventStream: only the `data` field and line endings are interpreted. `event`, `id` and `retry` fields and the BOM are not modelled.
- Escaping: every non-ASCII character under U+10000 is one `\uXXXX`, and each one above is a surrogate pair. Lone surrogates in a Python `str` are not modelled: a Dafny `char` is a Unicode scalar value.
- Sse.Unescape: stricter than `json.loads`. It rejects `\uXXXX` escapes of a lone surrogate, which `json.loads` accepts as a one-character string. The encoder never writes such an escape, so the round trips are unaffected.
- The history query has no `ORDER BY`. Insertion order is a modelling assumption.
- `stream_hf` is not dispatched by `routes/chat.py`, so `HfProvider.StreamHf` stands alone.
- `routes/upload.py` is not registered in `main.py`, so neither upload endpoint is reachable in the application as shipped. The router's logic is modelled anyway.
- There is no file-context aggregation or system-message injection in this code, so none is modelled.
- Behaviour of the code worth noting:
  - the mock's fragments show `reply + " "`, one trailing space more than the stored reply;
  - no assistant row is written after a disconnect, not even the part already shown;
  - an unknown provider is answered 400 only after the inbound rows are written.

## Findings

| source | as written | input that shows it | evidently intended | confidence | as-written member | corrected member |
|---|---|---|---|---|---|---|
| apps/backend-py/services/providers.py:31-32 | the `HTTPException(400)` for a missing OpenAI key or client (and likewise for a missing OpenRouter key, lines 50-51) is raised inside the generator. It therefore surfaces at the first pull, after `StreamingResponse` has sent status 200. | `PROVIDER=openai` with no `OPENAI_API_KEY` and any valid request: the client gets a 200 `text/event-stream` with no frame that ends abnormally | the client is answered 400 with the detail `Missing OpenAI setup.` | high (Starlette's `StreamingResponse` sends the status before iterating the body); not executed | Chat.SetupErrorIsStreamedAs200 | Chat.CheckedSetupErrorIs400 |
