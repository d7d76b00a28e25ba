/** The frames of a streamed answer (`internal/server/handlers.go`) and the event stream format that
    clients read them with: sections 9.2.5 (parsing) and 9.2.6 (interpreting) of the WHATWG HTML
    Standard. Characters stand for decoded code points. */
module EventStream {

  const PREFIX: string := "data: "

  /** One write of the handler: a data line and the blank line that ends the event. */
  function Frame(data: string): string { PREFIX + data + "\n\n" }

  function Frames(payloads: seq<string>): string
  {
    if payloads == [] then "" else Frame(payloads[0]) + Frames(payloads[1..])
  }

  predicate IsBreak(c: char) { c == '\n' || c == '\r' }

  ghost predicate Breakless(s: string) { forall i :: 0 <= i < |s| ==> !IsBreak(s[i]) }

  // ---- reading lines -----------------------------------------------------------------------

  /** The index of the first line break, or the length. */
  function BreakAt(s: string): (i: nat)
    ensures i <= |s| && (i < |s| ==> IsBreak(s[i])) && forall j :: 0 <= j < i ==> !IsBreak(s[j])
  {
    if s == "" || IsBreak(s[0]) then 0 else 1 + BreakAt(s[1..])
  }

  /** Lines end with LF, CR or CR LF. What follows the last line end is dropped. */
  function AfterLine(s: string): (rest: string)
    requires BreakAt(s) < |s|
    ensures |rest| < |s|
  {
    var i := BreakAt(s);
    if s[i] == '\r' && i + 1 < |s| && s[i + 1] == '\n' then s[i + 2..] else s[i + 1..]
  }

  function Line(s: string): string { s[..BreakAt(s)] }

  // ---- interpreting them -------------------------------------------------------------------

  function ColonAt(line: string): (i: nat)
    ensures i <= |line| && (i < |line| ==> line[i] == ':') && forall j :: 0 <= j < i ==> line[j] != ':'
  {
    if line == "" || line[0] == ':' then 0 else 1 + ColonAt(line[1..])
  }

  function Field(line: string): string { line[..ColonAt(line)] }

  /** The text after the colon, less one leading space. */
  function Value(line: string): string
  {
    var i := ColonAt(line);
    if i == |line| then ""
    else if i + 1 < |line| && line[i + 1] == ' ' then line[i + 2..]
    else line[i + 1..]
  }

  /** Only data lines add to the buffer; a comment line, which starts with a colon, has no field name. */
  function Buffered(buffer: string, line: string): string
  {
    if Field(line) != "data" then buffer else buffer + Value(line) + "\n"
  }

  /** The data of the events dispatched while reading `s` with this data buffer. The final line feed of
      the buffer is dropped, and an event without data lines is not dispatched. */
  function Dispatched(s: string, buffer: string): seq<string>
    decreases |s|
  {
    if BreakAt(s) == |s| then []
    else if Line(s) != "" then Dispatched(AfterLine(s), Buffered(buffer, Line(s)))
    else if buffer == "" then Dispatched(AfterLine(s), "")
    else [buffer[..|buffer| - 1]] + Dispatched(AfterLine(s), "")
  }

  /** A leading byte order mark is ignored. */
  function Parse(s: string): seq<string>
  {
    Dispatched(if s != "" && s[0] == '\U{FEFF}' then s[1..] else s, "")
  }

  // ---- round trip --------------------------------------------------------------------------

  lemma {:induction false} BreakIs(s: string, i: nat)
    requires i < |s| && IsBreak(s[i]) && forall j :: 0 <= j < i ==> !IsBreak(s[j])
    ensures BreakAt(s) == i
  {
    var k := BreakAt(s);
    assert !(k < i) && !(i < k);
  }

  lemma DataLine(text: string)
    ensures Field(PREFIX + text) == "data" && Value(PREFIX + text) == text
    ensures Buffered("", PREFIX + text) == text + "\n"
  {
    var line := PREFIX + text;
    assert line[4] == ':' && line[0] == 'd' && line[1] == 'a' && line[2] == 't' && line[3] == 'a' && line[5] == ' ';
    assert ColonAt(line) == 4;
    assert line[..4] == "data";
    assert line[6..] == text;
  }

  /** The first line after any breakless prefix, up to a break at position `i` of what follows it. */
  lemma FirstLineAfter(prefix: string, text: string, i: nat)
    requires Breakless(prefix) && i < |text| && IsBreak(text[i]) && forall j :: 0 <= j < i ==> !IsBreak(text[j])
    ensures BreakAt(prefix + text) == |prefix| + i
    ensures Line(prefix + text) == prefix + text[..i]
    ensures AfterLine(prefix + text) == if text[i] == '\r' && i + 1 < |text| && text[i + 1] == '\n' then text[i + 2..] else text[i + 1..]
  {
    hide IsBreak;
    var s := prefix + text;
    var n := |prefix| + i;
    forall j | 0 <= j < n ensures !IsBreak(s[j]) {
      assert s[j] == if j < |prefix| then prefix[j] else text[j - |prefix|];
    }
    BreakIs(s, n);
    assert s[..n] == prefix + text[..i];
    assert s[n + 1..] == text[i + 1..];
    assert i + 1 < |text| ==> s[n + 1] == text[i + 1] && s[n + 2..] == text[i + 2..];
  }

  lemma FirstLine(text: string, i: nat)
    requires i < |text| && IsBreak(text[i]) && Breakless(text[..i])
    ensures BreakAt(PREFIX + text) < |PREFIX + text| && Line(PREFIX + text) == PREFIX + text[..i]
    ensures BreakAt(text) == i && AfterLine(PREFIX + text) == AfterLine(text)
  {
    assert Breakless(PREFIX);
    assert forall j :: 0 <= j < i ==> text[j] == text[..i][j];
    FirstLineAfter(PREFIX, text, i);
    BreakIs(text, i);
  }

  lemma FrameDispatches(data: string, rest: string)
    requires Breakless(data)
    ensures Dispatched(Frame(data) + rest, "") == [data] + Dispatched(rest, "")
  {
    hide IsBreak, AfterLine, BreakAt, Field, Value;
    var text := data + "\n\n" + rest;
    LineFeed();
    assert text[..|data|] == data && text[|data|] == '\n';
    assert Frame(data) + rest == PREFIX + text;
    FirstLine(text, |data|);
    BodyLine(data, rest);
    DataLine(data);
    BlankLineDispatches(rest, data + "\n");
    assert (data + "\n")[..|data|] == data;
  }

  lemma LineFeed()
    ensures IsBreak('\n')
  {
  }

  lemma NothingDispatched()
    ensures Dispatched(Frames([]), "") == []
  {
  }

  // ---- and only those ----------------------------------------------------------------------

  /** What reading the field name and the colon takes away from a line of this length. */
  function Slack(n: nat): nat { if n < 4 then 0 else n - 4 }

  lemma BufferedGrows(buffer: string, line: string)
    ensures |buffer| <= |Buffered(buffer, line)| <= |buffer| + Slack(|line| + 1)
  {
    if Field(line) == "data" {
      assert ColonAt(line) == 4;
    }
  }

  lemma BlankLineDispatches(rest: string, buffer: string)
    requires buffer != ""
    ensures Dispatched("\n" + rest, buffer) == [buffer[..|buffer| - 1]] + Dispatched(rest, "")
  {
    FirstLineAfter("", "\n" + rest, 0);
    assert "" + ("\n" + rest) == "\n" + rest && ("\n" + rest)[1..] == rest;
  }

  predicate IsTail(body: string, rest: string, j: nat, tail: string)
    requires j <= |body|
  {
    tail == body[j..] + "\n\n" + rest
  }

  lemma TailAt(body: string, rest: string, j: nat)
    requires j <= |body| + 1
    ensures var tail := (body + "\n\n" + rest)[j..];
      if j <= |body| then IsTail(body, rest, j, tail) else tail == "\n" + rest
  {
    if j <= |body| {
      assert body + "\n\n" + rest == body[..j] + (body[j..] + "\n\n" + rest);
    } else {
      assert body + "\n\n" + rest == (body + "\n") + ("\n" + rest);
    }
  }

  /** The first line of `body` ahead of a blank line. The body is over when it is a single line, whose
      end takes the first of the two line feeds with it. */
  lemma BodyLine(body: string, rest: string)
    ensures var text, i := body + "\n\n" + rest, BreakAt(body);
      && BreakAt(text) == i < |text| && Line(text) == body[..i]
      && (AfterLine(text) == "\n" + rest || exists j: nat :: i < j <= |body| && IsTail(body, rest, j, AfterLine(text)))
  {
    hide IsTail, BreakAt, IsBreak;
    var text, i := body + "\n\n" + rest, BreakAt(body);
    FirstBreak(body, rest);
    assert text[..i] == body[..i];
    var j := if text[i] == '\r' && i + 1 < |text| && text[i + 1] == '\n' then i + 2 else i + 1;
    assert AfterLine(text) == text[j..];
    TailAt(body, rest, j);
  }

  lemma FirstBreak(body: string, rest: string)
    ensures BreakAt(body + "\n\n" + rest) == BreakAt(body) < |body + "\n\n" + rest|
    ensures BreakAt(body) == |body| ==> (body + "\n\n" + rest)[|body|] == '\n'
  {
    var text, i := body + "\n\n" + rest, BreakAt(body);
    assert text[i] == if i < |body| then body[i] else '\n';
    forall j | 0 <= j < i ensures !IsBreak(text[j]) {
      assert text[j] == body[j];
    }
    BreakIs(text, i);
  }

  /** What is buffered and what stands before the blank line bound the next event. */
  lemma {:induction false} NextEventBound(body: string, rest: string, buffer: string)
    requires buffer != ""
    ensures var events := Dispatched(body + "\n\n" + rest, buffer);
      events != [] && |events[0]| <= |buffer| - 1 + Slack(|body| + 1)
    decreases |body|
  {
    hide Buffered, AfterLine, Line, BreakAt;
    var text, i := body + "\n\n" + rest, BreakAt(body);
    BodyLine(body, rest);
    if Line(text) != "" {
      var buffer' := Buffered(buffer, Line(text));
      BufferedGrows(buffer, Line(text));
      if AfterLine(text) == "\n" + rest {
        BlankLineDispatches(rest, buffer');
      } else {
        var j: nat :| i < j <= |body| && IsTail(body, rest, j, AfterLine(text));
        NextEventBound(body[j..], rest, buffer');
      }
    }
  }

  /** A line break in a payload: the event comes out shorter. */
  lemma BrokenFrameIsMisread(data: string, rest: string)
    requires !Breakless(data)
    ensures var events := Dispatched(Frame(data) + rest, "");
      events != [] && |events[0]| < |data|
  {
    hide IsBreak, Breakless, AfterLine, BreakAt, IsTail, Buffered, Field, Value;
    var text, i := data + "\n\n" + rest, BreakAt(data);
    BreakInside(data);
    assert Frame(data) + rest == PREFIX + text;
    assert text[..i] == data[..i];
    FirstLine(text, i);
    DataLine(data[..i]);
    BodyLine(data, rest);
    if AfterLine(text) == "\n" + rest {
      BlankLineDispatches(rest, data[..i] + "\n");
    } else {
      var j: nat :| i < j <= |data| && IsTail(data, rest, j, AfterLine(text));
      TailIs(data, rest, j, AfterLine(text));
      NextEventBound(data[j..], rest, data[..i] + "\n");
    }
  }

  lemma TailIs(body: string, rest: string, j: nat, tail: string)
    requires j <= |body| && IsTail(body, rest, j, tail)
    ensures tail == body[j..] + "\n\n" + rest
  {
  }

  lemma BreakInside(data: string)
    requires !Breakless(data)
    ensures BreakAt(data) < |data| && Breakless(data[..BreakAt(data)])
  {
  }

  lemma {:induction false} FramesDispatchIff(payloads: seq<string>)
    ensures Dispatched(Frames(payloads), "") == payloads <==> forall p :: p in payloads ==> Breakless(p)
  {
    hide Dispatched, Breakless;
    if payloads == [] {
      NothingDispatched();
    } else {
      var data, rest := payloads[0], payloads[1..];
      assert [data] + rest == payloads;
      if Breakless(data) {
        FramesDispatchIff(rest);
        FrameDispatches(data, Frames(rest));
        assert ([data] + Dispatched(Frames(rest), ""))[1..] == Dispatched(Frames(rest), "");
      } else {
        BrokenFrameIsMisread(data, Frames(rest));
      }
    }
  }

  /** Main result: what the handler writes is read back as exactly its payloads, empty ones included,
      when and only when no payload has a line break. */
  lemma RoundTripIff(payloads: seq<string>)
    ensures Parse(Frames(payloads)) == payloads <==> forall p :: p in payloads ==> Breakless(p)
  {
    FramesDispatchIff(payloads);
    if payloads != [] {
      assert Frames(payloads)[0] == 'd';
    }
  }
}
