/**
 * routes/upload.py: `POST /upload` reads a text, PDF or Word file, keeps
 * its text whole when it is short and a summary (or the first 2000
 * characters, when summarising fails) when it is long, and records a
 * notice in the session's history; `DELETE /upload/clear` removes a
 * session's notices and stored files. The extraction libraries are
 * inputs: what decoding, PDF page extraction and paragraph reading give
 * for the uploaded bytes, `Err` carrying the message of what they raised.
 */
module Upload {
  import opened Wrappers
  import opened Text
  import opened Models
  import opened Tables
  import opened History
  import Hf = HfProvider

  const UploadRawThreshold := 2000
  const SummaryTokens := 500
  const Clip: char := '\U{1F4CE}'

  datatype FileKind = Txt | Pdf | Docx

  predicate EndsWith(s: string, suffix: string)
  {
    |suffix| <= |s| && s[|s| - |suffix|..] == suffix
  }

  /** The suffix tests, in the order the handler makes them. */
  function Classify(filename: string): (k: Option<FileKind>)
    ensures k == Some(Txt) <==> EndsWith(filename, ".txt")
    ensures k == Some(Pdf) <==> EndsWith(filename, ".pdf") && !EndsWith(filename, ".txt")
    ensures k == Some(Docx) <==> EndsWith(filename, ".docx") && !EndsWith(filename, ".txt") && !EndsWith(filename, ".pdf")
    ensures k.None? <==> !EndsWith(filename, ".txt") && !EndsWith(filename, ".pdf") && !EndsWith(filename, ".docx")
  {
    if EndsWith(filename, ".txt") then Some(Txt)
    else if EndsWith(filename, ".pdf") then Some(Pdf)
    else if EndsWith(filename, ".docx") then Some(Docx)
    else None
  }

  /** An uploaded file: its name, and what each reader makes of its bytes. */
  datatype UploadedFile = UploadedFile(
    filename: string,
    decoded: Result<string, string>,             // `.decode("utf-8")`
    pages: Result<seq<Option<string>>, string>,  // `page.extract_text()` of each page
    paragraphs: Result<seq<string>, string>)     // `p.text` of each paragraph

  /** `str(HTTPException(400, "Unsupported file type"))`. */
  const UnsupportedType := "400: Unsupported file type"

  /** The file's text, or the message of the exception that stopped reading it. */
  function Content(f: UploadedFile): Result<string, string>
  {
    match Classify(f.filename)
    case None => Err(UnsupportedType)
    case Some(Txt) => f.decoded
    case Some(Pdf) => (match f.pages case Err(m) => Err(m) case Ok(ps) => Ok(ConcatPresent(ps)))
    case Some(Docx) => (match f.paragraphs case Err(m) => Err(m) case Ok(ps) => Ok(JoinWith(ps, "\n")))
  }

  /** The `content += page.extract_text() or ""` loop. */
  method PdfText(pages: seq<Option<string>>) returns (content: string)
    ensures content == ConcatPresent(pages)
  {
    content := "";
    var i := 0;
    while i < |pages|
      invariant 0 <= i <= |pages|
      invariant content == ConcatPresent(pages[..i])
    {
      assert pages[..i + 1][..i] == pages[..i];
      content := content + pages[i].GetOr("");
      i := i + 1;
    }
    assert pages[..i] == pages;
  }

  /** A page without text adds nothing: the content is the text of the other pages. */
  lemma {:induction false} PdfTextSkipsEmptyPages(pages: seq<Option<string>>)
    ensures ConcatPresent(pages) == Concat(seq(|pages|, i requires 0 <= i < |pages| => pages[i].GetOr("")))
    decreases |pages|
  {
    var texts := seq(|pages|, i requires 0 <= i < |pages| => pages[i].GetOr(""));
    if pages != [] {
      var init := pages[..|pages| - 1];
      PdfTextSkipsEmptyPages(init);
      assert texts[..|texts| - 1] == seq(|init|, i requires 0 <= i < |init| => init[i].GetOr(""));
    }
  }

  /** The three notices; each starts with the clip and the file name. */
  function SummarisedNotice(filename: string): string
  {
    [Clip] + " " + filename + " uploaded \U{2014} summarised and added to context."
  }

  function PartialNotice(filename: string, error: string): string
  {
    [Clip] + " " + filename + " uploaded (partial content stored, summarisation failed). Error: " + error
  }

  function RawNotice(filename: string): string
  {
    [Clip] + " " + filename + " uploaded and added to context."
  }

  /** What is kept of the content: the notice and the stored text. */
  datatype Kept = Kept(notice: string, text: string)

  /** The threshold rule. `summary` is what `summarize_text` gave, consulted
      only above the threshold. */
  function Retained(filename: string, content: string, summary: Result<string, Hf.HfError>): Kept
  {
    if |content| > UploadRawThreshold then
      match summary
      case Ok(s) => Kept(SummarisedNotice(filename), s)
      case Err(e) => Kept(PartialNotice(filename, Hf.ErrorMessage(e)), content[..UploadRawThreshold])
    else Kept(RawNotice(filename), content)
  }

  /** Up to 2000 characters the content is kept verbatim; above, the summary
      when there is one, else exactly the first 2000 characters. */
  lemma KeepRule(filename: string, content: string, summary: Result<string, Hf.HfError>)
    ensures var k := Retained(filename, content, summary);
      && (|content| <= UploadRawThreshold ==> k.text == content)
      && (|content| > UploadRawThreshold && summary.Ok? ==> k.text == summary.value)
      && (|content| > UploadRawThreshold && summary.Err? ==>
            |k.text| == UploadRawThreshold && k.text <= content
            && k.notice == PartialNotice(filename, Hf.ErrorMessage(summary.error)))
      && (summary.Err? ==> |k.text| <= |content|)
  {
  }

  /** Every notice starts with the clip, a space and the file name. */
  lemma NoticeNamesFile(filename: string, content: string, summary: Result<string, Hf.HfError>)
    ensures var n := Retained(filename, content, summary).notice;
      |n| >= 2 + |filename| && n[..2 + |filename|] == [Clip, ' '] + filename
  {
    var n := Retained(filename, content, summary).notice;
    assert n[..2 + |filename|] == [Clip] + " " + filename;
  }

  datatype UploadResponse =
    | Saved(sessionId: string, filename: string)  // {"session_id", "filename", "status": "saved"}
    | Failed(status: nat, detail: string)

  /** The rows an upload writes and its answer. */
  datatype UploadOutcome = UploadOutcome(records: seq<ChatRecord>, contexts: seq<FileContext>, response: UploadResponse)

  /** `upload_file`: any exception becomes a 500 naming it; the summariser is
      called with the content and a budget of 500 tokens. */
  function UploadSpec(f: UploadedFile, sessionId: Option<string>, freshId: string,
                      hfKey: Option<string>, hfModel: string, hfReply: Hf.HfReply): UploadOutcome
  {
    match Content(f)
    case Err(m) => UploadOutcome([], [], Failed(500, "Failed to process file: " + m))
    case Ok(content) =>
      var sid := ResolveSessionId(sessionId, freshId);
      var k := Retained(f.filename, content, Hf.SummarizeText(hfKey, hfModel, content, SummaryTokens, hfReply).result);
      UploadOutcome([ChatRecord(sid, "system", k.notice)], [FileContext(sid, f.filename, k.text)], Saved(sid, f.filename))
  }

  /** The branch on the suffix that reads the file's text. */
  method ReadContent(f: UploadedFile) returns (r: Result<string, string>)
    ensures r == Content(f)
  {
    var kind := Classify(f.filename);
    if kind == Some(Txt) {
      r := f.decoded;
    } else if kind == Some(Pdf) {
      if f.pages.Err? {
        return Err(f.pages.error);
      }
      var text := PdfText(f.pages.value);
      r := Ok(text);
    } else if kind == Some(Docx) {
      if f.paragraphs.Err? {
        return Err(f.paragraphs.error);
      }
      r := Ok(JoinWith(f.paragraphs.value, "\n"));
    } else {
      r := Err(UnsupportedType);
    }
  }

  /** The threshold branch: the text to store and the notice to record. */
  method Process(filename: string, content: string, hfKey: Option<string>, hfModel: string, hfReply: Hf.HfReply)
    returns (notice: string, processed: string)
    ensures Kept(notice, processed) == Retained(filename, content, Hf.SummarizeText(hfKey, hfModel, content, SummaryTokens, hfReply).result)
  {
    processed := content;
    if |content| > UploadRawThreshold {
      var call := Hf.SummarizeText(hfKey, hfModel, content, SummaryTokens, hfReply);
      if call.result.Ok? {
        processed := call.result.value;
        notice := SummarisedNotice(filename);
      } else {
        processed := content[..UploadRawThreshold];
        notice := PartialNotice(filename, Hf.ErrorMessage(call.result.error));
      }
    } else {
      notice := RawNotice(filename);
    }
  }

  method UploadFile(store: Store, f: UploadedFile, sessionId: Option<string>, freshId: string,
                    hfKey: Option<string>, hfModel: string, hfReply: Hf.HfReply)
    returns (resp: UploadResponse)
    modifies store
    ensures store.history == old(store.history) + UploadSpec(f, sessionId, freshId, hfKey, hfModel, hfReply).records
    ensures store.files == old(store.files) + UploadSpec(f, sessionId, freshId, hfKey, hfModel, hfReply).contexts
    ensures resp == UploadSpec(f, sessionId, freshId, hfKey, hfModel, hfReply).response
  {
    var read := ReadContent(f);
    if read.Err? {
      return Failed(500, "Failed to process file: " + read.error);
    }
    var content := read.value;
    var sid := ResolveSessionId(sessionId, freshId);
    var notice, processed := Process(f.filename, content, hfKey, hfModel, hfReply);
    store.SaveHistory(sid, "system", notice);
    store.AddFileContext(sid, f.filename, processed);
    resp := Saved(sid, f.filename);
  }

  /** An unsupported file is answered 500 with the 400 inside its detail and writes nothing. */
  lemma UnsupportedIs500(f: UploadedFile, sessionId: Option<string>, freshId: string,
                         hfKey: Option<string>, hfModel: string, hfReply: Hf.HfReply)
    requires !EndsWith(f.filename, ".txt") && !EndsWith(f.filename, ".pdf") && !EndsWith(f.filename, ".docx")
    ensures UploadSpec(f, sessionId, freshId, hfKey, hfModel, hfReply)
         == UploadOutcome([], [], Failed(500, "Failed to process file: 400: Unsupported file type"))
  {
    assert Content(f) == Err(UnsupportedType);
    assert "Failed to process file: " + UnsupportedType == "Failed to process file: 400: Unsupported file type";
  }

  /** A successful upload writes one `system` notice and one stored file,
      both under the resolved session; the notice is one `Clear` removes. */
  lemma UploadWritesNoticeAndFile(f: UploadedFile, sessionId: Option<string>, freshId: string,
                                  hfKey: Option<string>, hfModel: string, hfReply: Hf.HfReply)
    requires Content(f).Ok?
    ensures var u := UploadSpec(f, sessionId, freshId, hfKey, hfModel, hfReply);
      var sid := ResolveSessionId(sessionId, freshId);
      && u.response == Saved(sid, f.filename)
      && |u.records| == 1 && |u.contexts| == 1
      && u.records[0].sessionId == sid && u.records[0].role == "system"
      && IsUploadNotice(u.records[0], sid)
      && u.contexts[0].sessionId == sid && u.contexts[0].filename == f.filename
  {
    var content := Content(f).value;
    var sid := ResolveSessionId(sessionId, freshId);
    var k := Retained(f.filename, content, Hf.SummarizeText(hfKey, hfModel, content, SummaryTokens, hfReply).result);
    assert UploadSpec(f, sessionId, freshId, hfKey, hfModel, hfReply)
        == UploadOutcome([ChatRecord(sid, "system", k.notice)], [FileContext(sid, f.filename, k.text)], Saved(sid, f.filename));
    NoticeIsUploadNotice(f.filename, content, Hf.SummarizeText(hfKey, hfModel, content, SummaryTokens, hfReply).result, sid);
  }

  /** The notice an upload records is one that clearing removes. */
  lemma NoticeIsUploadNotice(filename: string, content: string, summary: Result<string, Hf.HfError>, sid: string)
    ensures IsUploadNotice(ChatRecord(sid, "system", Retained(filename, content, summary).notice), sid)
  {
    NoticeNamesFile(filename, content, summary);
    var n := Retained(filename, content, summary).notice;
    assert n[0] == n[..2 + |filename|][0];
  }


  // ----- clear ------------------------------------------------------------------------

  /** A row the history delete matches: the session's, role `system`, content
      LIKE `📎%` (a prefix test; `%` is the only wildcard in the pattern). */
  predicate IsUploadNotice(r: ChatRecord, sid: string)
  {
    r.sessionId == sid && r.role == "system" && |r.content| >= 1 && r.content[0] == Clip
  }

  function PurgeNotices(log: seq<ChatRecord>, sid: string): (kept: seq<ChatRecord>)
    ensures |kept| <= |log|
  {
    if log == [] then []
    else
      var last := log[|log| - 1];
      PurgeNotices(log[..|log| - 1], sid) + (if IsUploadNotice(last, sid) then [] else [last])
  }

  function PurgeFiles(files: seq<FileContext>, sid: string): (kept: seq<FileContext>)
    ensures |kept| <= |files|
  {
    if files == [] then []
    else
      var last := files[|files| - 1];
      PurgeFiles(files[..|files| - 1], sid) + (if last.sessionId == sid then [] else [last])
  }

  /** `clear_uploaded_files`: both deletes, committed together. */
  method ClearUploadedFiles(store: Store, sid: string)
    modifies store
    ensures store.history == PurgeNotices(old(store.history), sid)
    ensures store.files == PurgeFiles(old(store.files), sid)
  {
    store.history := PurgeNotices(store.history, sid);
    store.files := PurgeFiles(store.files, sid);
  }

  /** A row survives exactly when it is not one of the session's notices. */
  lemma {:induction false} PurgeNoticesMembers(log: seq<ChatRecord>, sid: string, r: ChatRecord)
    ensures r in PurgeNotices(log, sid) <==> r in log && !IsUploadNotice(r, sid)
    decreases |log|
  {
    if log != [] {
      var init := log[..|log| - 1];
      PurgeNoticesMembers(init, sid, r);
      assert log == init + [log[|log| - 1]];
    }
  }

  /** A stored file survives exactly when it belongs to another session. */
  lemma {:induction false} PurgeFilesMembers(files: seq<FileContext>, sid: string, f: FileContext)
    ensures f in PurgeFiles(files, sid) <==> f in files && f.sessionId != sid
    decreases |files|
  {
    if files != [] {
      var init := files[..|files| - 1];
      PurgeFilesMembers(init, sid, f);
      assert files == init + [files[|files| - 1]];
    }
  }

  /** The history delete is an in-order filter: it distributes over a log
      split in two, and a single row is kept or dropped on its own merits,
      which together fix the order and the multiplicity of what survives. */
  lemma {:induction false} PurgeNoticesAppend(a: seq<ChatRecord>, b: seq<ChatRecord>, sid: string)
    ensures PurgeNotices(a + b, sid) == PurgeNotices(a, sid) + PurgeNotices(b, sid)
    decreases |b|
  {
    if b == [] {
      assert a + b == a;
    } else {
      var init := b[..|b| - 1];
      var last := b[|b| - 1];
      PurgeNoticesAppend(a, init, sid);
      assert (a + b)[..|a + b| - 1] == a + init;
      assert (a + b)[|a + b| - 1] == last;
      Reassociate(PurgeNotices(a, sid), PurgeNotices(init, sid), if IsUploadNotice(last, sid) then [] else [last]);
    }
  }

  lemma PurgeNoticesOne(r: ChatRecord, sid: string)
    ensures PurgeNotices([r], sid) == (if IsUploadNotice(r, sid) then [] else [r])
  {
    assert [r][..0] == [];
  }

  /** The file delete is an in-order filter in the same sense. */
  lemma {:induction false} PurgeFilesAppend(a: seq<FileContext>, b: seq<FileContext>, sid: string)
    ensures PurgeFiles(a + b, sid) == PurgeFiles(a, sid) + PurgeFiles(b, sid)
    decreases |b|
  {
    if b == [] {
      assert a + b == a;
    } else {
      var init := b[..|b| - 1];
      var last := b[|b| - 1];
      PurgeFilesAppend(a, init, sid);
      assert (a + b)[..|a + b| - 1] == a + init;
      assert (a + b)[|a + b| - 1] == last;
      Reassociate(PurgeFiles(a, sid), PurgeFiles(init, sid), if last.sessionId == sid then [] else [last]);
    }
  }

  lemma PurgeFilesOne(f: FileContext, sid: string)
    ensures PurgeFiles([f], sid) == (if f.sessionId == sid then [] else [f])
  {
    assert [f][..0] == [];
  }

  /** Every other session keeps its whole history, in order. */
  lemma {:induction false} PurgeKeepsOtherSessions(log: seq<ChatRecord>, sid: string, other: string)
    requires other != sid
    ensures GetHistory(PurgeNotices(log, sid), other) == GetHistory(log, other)
    decreases |log|
  {
    if log != [] {
      var init := log[..|log| - 1];
      var last := log[|log| - 1];
      PurgeKeepsOtherSessions(init, sid, other);
      HistoryAppend(PurgeNotices(init, sid), if IsUploadNotice(last, sid) then [] else [last], other);
      if last.sessionId == other {
        assert [last][..0] == [];
      }
    }
  }

  /** Clearing twice is clearing once. */
  lemma {:induction false} PurgeNoticesIdempotent(log: seq<ChatRecord>, sid: string)
    ensures PurgeNotices(PurgeNotices(log, sid), sid) == PurgeNotices(log, sid)
    decreases |log|
  {
    if log != [] {
      var init := log[..|log| - 1];
      var last := log[|log| - 1];
      PurgeNoticesIdempotent(init, sid);
      var p := PurgeNotices(init, sid);
      if !IsUploadNotice(last, sid) {
        var q := p + [last];
        assert q[..|q| - 1] == p && q[|q| - 1] == last;
        assert PurgeNotices(q, sid) == PurgeNotices(p, sid) + [last];
        assert PurgeNotices(log, sid) == q;
      } else {
        assert PurgeNotices(log, sid) == p + [];
        assert p + [] == p;
      }
    }
  }

  lemma {:induction false} PurgeFilesIdempotent(files: seq<FileContext>, sid: string)
    ensures PurgeFiles(PurgeFiles(files, sid), sid) == PurgeFiles(files, sid)
    decreases |files|
  {
    if files != [] {
      var init := files[..|files| - 1];
      var last := files[|files| - 1];
      PurgeFilesIdempotent(init, sid);
      var p := PurgeFiles(init, sid);
      if last.sessionId != sid {
        var q := p + [last];
        assert q[..|q| - 1] == p && q[|q| - 1] == last;
        assert PurgeFiles(q, sid) == PurgeFiles(p, sid) + [last];
        assert PurgeFiles(files, sid) == q;
      } else {
        assert PurgeFiles(files, sid) == p + [];
        assert p + [] == p;
      }
    }
  }

  /** Clearing after an upload leaves the tables as clearing before it would. */
  lemma UploadThenClear(log: seq<ChatRecord>, files: seq<FileContext>, f: UploadedFile, sessionId: Option<string>,
                        freshId: string, hfKey: Option<string>, hfModel: string, hfReply: Hf.HfReply)
    requires Content(f).Ok?
    ensures var u := UploadSpec(f, sessionId, freshId, hfKey, hfModel, hfReply);
      var sid := ResolveSessionId(sessionId, freshId);
      && PurgeNotices(log + u.records, sid) == PurgeNotices(log, sid)
      && PurgeFiles(files + u.contexts, sid) == PurgeFiles(files, sid)
  {
    var u := UploadSpec(f, sessionId, freshId, hfKey, hfModel, hfReply);
    UploadWritesNoticeAndFile(f, sessionId, freshId, hfKey, hfModel, hfReply);
    assert (log + u.records)[..|log|] == log;
    assert (files + u.contexts)[..|files|] == files;
  }
}
