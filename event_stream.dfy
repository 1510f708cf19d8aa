/**
 * How a client reads the response body: the event-stream interpretation of
 * section 9.2.6 of the WHATWG HTML Living Standard, restricted to the
 * `data` field. The `event`, `id` and `retry` fields occur only in the
 * unescaped frames of the Hugging Face stream, when a reply contains a
 * line break, and are not interpreted; the leading byte order mark is not
 * modelled.
 * Lines end at LF, CR or CRLF; a blank line dispatches the buffered data,
 * and data left without a closing blank line at the end is discarded.
 */
module EventStream {
  import opened Wrappers
  import Text
  import opened Sse

  datatype Parser = Parser(line: string, data: string, afterCR: bool)

  const Idle := Parser("", "", false)

  /** The parser after some input, and the data of the events dispatched meanwhile. */
  datatype Step = Step(parser: Parser, events: seq<string>)

  function FirstColon(line: string): (k: nat)
    ensures k <= |line|
    ensures forall i :: 0 <= i < k ==> line[i] != ':'
    ensures k < |line| ==> line[k] == ':'
  {
    if line == [] || line[0] == ':' then 0 else 1 + FirstColon(line[1..])
  }

  datatype Field = Field(name: string, value: string)

  /** A non-blank line that is not a comment: the field name before the first
      colon and the value after it, less one leading space; a line without a
      colon is a field name with an empty value. */
  function ParseField(line: string): Field
  {
    var k := FirstColon(line);
    if k == |line| then Field(line, "")
    else
      var v := line[k + 1..];
      Field(line[..k], if v != [] && v[0] == ' ' then v[1..] else v)
  }

  /** What happens when the current line ends. */
  function EndLine(p: Parser): Step
  {
    if p.line == [] then
      if p.data == [] then Step(Parser([], [], p.afterCR), [])
      else Step(Parser([], [], p.afterCR), [p.data[..|p.data| - 1]])
    else if p.line[0] == ':' then Step(p.(line := []), [])
    else
      var f := ParseField(p.line);
      if f.name == "data" then Step(Parser([], p.data + f.value + "\n", p.afterCR), [])
      else Step(p.(line := []), [])
  }

  function Feed(p: Parser, c: char): Step
  {
    if c == '\n' && p.afterCR then Step(p.(afterCR := false), [])
    else if c == '\n' || c == '\r' then
      var st := EndLine(p);
      Step(st.parser.(afterCR := c == '\r'), st.events)
    else Step(p.(line := p.line + [c], afterCR := false), [])
  }

  function Run(p: Parser, s: string): Step
    decreases |s|
  {
    if s == [] then Step(p, [])
    else
      var first := Feed(p, s[0]);
      var rest := Run(first.parser, s[1..]);
      Step(rest.parser, first.events + rest.events)
  }

  /** The data of every event a client reads from a body. */
  function Events(body: string): seq<string>
  {
    Run(Idle, body).events
  }

  /** Reading two pieces in a row is reading the first, then the second from where the first left off. */
  lemma {:induction false} RunConcat(p: Parser, a: string, b: string)
    ensures Run(p, a + b)
         == Step(Run(Run(p, a).parser, b).parser, Run(p, a).events + Run(Run(p, a).parser, b).events)
    decreases |a|
  {
    if a == [] {
      assert a + b == b;
    } else {
      var first := Feed(p, a[0]);
      assert (a + b)[0] == a[0] && (a + b)[1..] == a[1..] + b;
      RunConcat(first.parser, a[1..], b);
      var mid := Run(first.parser, a[1..]);
      Reassociate(first.events, mid.events, Run(mid.parser, b).events);
    }
  }

  predicate NoLineBreak(s: string)
  {
    forall i :: 0 <= i < |s| ==> s[i] != '\n' && s[i] != '\r'
  }

  /** Text without line breaks only extends the current line. */
  lemma {:induction false} RunPlain(p: Parser, s: string)
    requires NoLineBreak(s) && !p.afterCR
    ensures Run(p, s) == Step(p.(line := p.line + s), [])
    decreases |s|
  {
    if s == [] {
      assert p.line + s == p.line;
    } else {
      var c := s[0];
      var q := p.(line := p.line + [c]);
      assert c != '\n' && c != '\r';
      assert Feed(p, c) == Step(q, []);
      assert NoLineBreak(s[1..]) by {
        forall i | 0 <= i < |s[1..]| ensures s[1..][i] != '\n' && s[1..][i] != '\r' {
          assert s[1..][i] == s[i + 1];
        }
      }
      RunPlain(q, s[1..]);
      assert [c] + s[1..] == s;
      assert (p.line + [c]) + s[1..] == p.line + ([c] + s[1..]);
    }
  }

  /** `data: ` followed by a payload is the data field with that payload as its value. */
  lemma DataLine(j: string)
    ensures ParseField(DataPrefix + j) == Field("data", j)
  {
    var line := DataPrefix + j;
    var k := FirstColon(line);
    assert line[4] == ':';
    assert line[0] != ':' && line[1] != ':' && line[2] != ':' && line[3] != ':';
    assert k == 4;
    assert line[..4] == "data";
    assert line[5..] == " " + j;
    assert (" " + j)[1..] == j;
  }

  /** The line feed after a data line appends its payload and a line feed to the buffered data. */
  lemma EndDataLine(j: string, data: string)
    ensures Run(Parser(DataPrefix + j, data, false), "\n") == Step(Parser("", data + j + "\n", false), [])
  {
    var p := Parser(DataPrefix + j, data, false);
    var q := Parser("", data + j + "\n", false);
    DataLine(j);
    assert p.line[0] == 'd';
    assert EndLine(p) == Step(q, []);
    assert Feed(p, '\n') == Step(q, []);
    assert "\n"[0] == '\n' && "\n"[1..] == [];
  }

  /** `data: ` + a payload without line breaks + a blank line is exactly one
      event carrying that payload, and leaves the reader as it found it. */
  lemma DataFrameIsOneEvent(j: string)
    requires NoLineBreak(j)
    ensures Run(Idle, DataPrefix + j + "\n\n") == Step(Idle, [j])
  {
    var line := DataPrefix + j;
    assert NoLineBreak(line) by {
      assert forall i :: 0 <= i < |line| ==> line[i] == if i < |DataPrefix| then DataPrefix[i] else j[i - |DataPrefix|];
    }
    RunConcat(Idle, line, "\n\n");
    RunPlain(Idle, line);
    var p := Parser(line, "", false);
    assert Idle.(line := Idle.line + line) == p;
    DataLine(j);
    assert Feed(p, '\n') == Step(Parser([], j + "\n", false), []);
    var q := Parser([], j + "\n", false);
    assert (j + "\n")[..|j|] == j;
    assert Feed(q, '\n') == Step(Idle, [j]);
    assert Run(p, "\n\n") == Step(Idle, [j]);
  }

  /** One frame is exactly one event, carrying the JSON payload, and leaves the reader as it found it. */
  lemma FrameIsOneEvent(s: string)
    ensures Run(Idle, EventText(s)) == Step(Idle, [JsonContent(s)])
  {
    var j := JsonContent(s);
    EventTextShape(s);
    assert EventText(s) == DataPrefix + j + "\n\n";
    assert NoLineBreak(j) by {
      assert forall i :: 0 <= i < |j| ==> EventText(s)[|DataPrefix| + i] == j[i];
    }
    DataFrameIsOneEvent(j);
  }

  function EventTexts(contents: seq<string>): seq<string>
  {
    seq(|contents|, i requires 0 <= i < |contents| => EventText(contents[i]))
  }

  function JsonContents(contents: seq<string>): seq<string>
  {
    seq(|contents|, i requires 0 <= i < |contents| => JsonContent(contents[i]))
  }

  lemma EventTextsSnoc(init: seq<string>, last: string)
    ensures EventTexts(init + [last]) == EventTexts(init) + [EventText(last)]
    ensures JsonContents(init + [last]) == JsonContents(init) + [JsonContent(last)]
  {
  }

  /** A body made of frames is read as exactly one event per frame, in order. */
  lemma {:induction false} FramesAreEvents(contents: seq<string>)
    ensures Run(Idle, Text.Concat(EventTexts(contents))) == Step(Idle, JsonContents(contents))
    decreases |contents|
  {
    if contents == [] {
      assert EventTexts(contents) == [] && JsonContents(contents) == [];
    } else {
      var init := contents[..|contents| - 1];
      var last := contents[|contents| - 1];
      assert contents == init + [last];
      EventTextsSnoc(init, last);
      var a, b := Text.Concat(EventTexts(init)), EventText(last);
      Text.ConcatSnoc(EventTexts(init), b);
      FramesAreEvents(init);
      RunConcat(Idle, a, b);
      FrameIsOneEvent(last);
    }
  }

  /** What the client decodes from a body of frames: every `content`, in order. */
  lemma FramesDeliverContents(contents: seq<string>)
    ensures |Events(Text.Concat(EventTexts(contents)))| == |contents|
    ensures forall i :: 0 <= i < |contents| ==>
              DecodeJsonContent(Events(Text.Concat(EventTexts(contents)))[i]) == Some(contents[i])
  {
    FramesAreEvents(contents);
    forall i | 0 <= i < |contents|
      ensures DecodeJsonContent(JsonContents(contents)[i]) == Some(contents[i])
    {
      JsonContentRoundTrip(contents[i]);
    }
  }
}
