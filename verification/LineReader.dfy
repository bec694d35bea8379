/** The JSONL buffer of the Claude CLI adapter: data events in, accumulated text and usage out. */
module LineReader {
  import opened Domain
  import opened Text

  /** A parsed JSON value; a missing field is None, JavaScript's undefined. */
  datatype Json =
    | Null | Bool(b: bool) | Num(n: real) | Str(s: string) | Arr(items: seq<Json>) | Obj(fields: map<string, Json>)

  type Parser = string -> Option<Json>
  /** `String(value)` for a truthy value that is no string. */
  type Stringify = Json -> string

  function Get(j: Option<Json>, key: string): Option<Json> {
    if j.Some? && j.value.Obj? && key in j.value.fields then Some(j.value.fields[key]) else None
  }

  predicate Truthy(j: Option<Json>) {
    match j
    case None => false
    case Some(Null) => false
    case Some(Bool(b)) => b
    case Some(Num(n)) => n != 0.0
    case Some(Str(s)) => s != ""
    case Some(_) => true
  }

  predicate IsStr(j: Option<Json>, s: string) {
    j == Some(Str(s))
  }

  function NumberOr(j: Option<Json>, old_: real): real {
    if j.Some? && j.value.Num? then j.value.n else old_
  }

  // ----- What one line does -----

  /** The accumulators, and the deltas handed to `onText`. */
  datatype Accum = Accum(resultText: string, assistantText: string, streamedText: string, tokensIn: real,
                         tokensOut: real, sent: seq<string>)

  const EMPTY := Accum("", "", "", 0.0, 0.0, [])

  function DeltaText(str: Stringify, text: Option<Json>): string {
    if !Truthy(text) then "" else if text.value.Str? then text.value.s else str(text.value)
  }

  function HandleEvent(str: Stringify, acc: Accum, ev: Json): Accum {
    var kind, delta := Get(Some(ev), "type"), Get(Some(ev), "delta");
    if IsStr(kind, "content_block_delta") && Truthy(delta) && IsStr(Get(delta, "type"), "text_delta") then
      var t := DeltaText(str, Get(delta, "text"));
      if t == "" then acc else acc.(streamedText := acc.streamedText + t, sent := acc.sent + [t])
    else if IsStr(kind, "message_delta") && Truthy(Get(Some(ev), "usage")) then
      acc.(tokensOut := NumberOr(Get(Get(Some(ev), "usage"), "output_tokens"), acc.tokensOut))
    else if IsStr(kind, "message_start") then
      acc.(tokensIn := NumberOr(Get(Get(Get(Some(ev), "message"), "usage"), "input_tokens"), acc.tokensIn))
    else acc
  }

  function TakeUsage(acc: Accum, usage: Option<Json>): Accum {
    acc.(tokensIn := NumberOr(Get(usage, "input_tokens"), acc.tokensIn),
         tokensOut := NumberOr(Get(usage, "output_tokens"), acc.tokensOut))
  }

  predicate IsTextPart(j: Json) {
    IsStr(Get(Some(j), "type"), "text") && Get(Some(j), "text").Some? && Get(Some(j), "text").value.Str?
  }

  function TextParts(items: seq<Json>): seq<string> {
    if items == [] then []
    else (if IsTextPart(items[0]) then [Get(Some(items[0]), "text").value.s] else []) + TextParts(items[1..])
  }

  function Concat(parts: seq<string>): string {
    if parts == [] then "" else parts[0] + Concat(parts[1..])
  }

  function HandleObject(str: Stringify, acc: Accum, obj: Json): Accum {
    var kind, message := Get(Some(obj), "type"), Get(Some(obj), "message");
    if IsStr(kind, "stream_event") && Truthy(Get(Some(obj), "event")) then
      HandleEvent(str, acc, Get(Some(obj), "event").value)
    else if kind.Some? && kind.value.Str? && "content_block" <= kind.value.s then HandleEvent(str, acc, obj)
    else if IsStr(kind, "assistant") && Get(message, "content").Some? && Get(message, "content").value.Arr? then
      var parts := TextParts(Get(message, "content").value.items);
      TakeUsage(if parts == [] then acc else acc.(assistantText := Concat(parts)), Get(message, "usage"))
    else if IsStr(kind, "result") then
      var result := Get(Some(obj), "result");
      var said := if result.Some? && result.value.Str? then acc.(resultText := result.value.s) else acc;
      TakeUsage(said, Get(Some(obj), "usage"))
    else acc
  }

  /** A bare `null` has no fields to read: the handler throws before it has changed anything. */
  predicate Throws(parse: Parser, line: string) {
    Trim(line) != "" && parse(Trim(line)) == Some(Null)
  }

  /** A blank line or one that is no JSON is noise. */
  function HandleLine(parse: Parser, str: Stringify, acc: Accum, line: string): Accum {
    var s := Trim(line);
    if s == "" then acc
    else
      match parse(s)
      case None => acc
      case Some(Null) => acc
      case Some(obj) => HandleObject(str, acc, obj)
  }

  function HandleLines(parse: Parser, str: Stringify, acc: Accum, lines: seq<string>): Accum
    decreases |lines|
  {
    if lines == [] then acc else HandleLines(parse, str, HandleLine(parse, str, acc, lines[0]), lines[1..])
  }

  // ----- Lines of an output -----

  /** `indexOf('\n')`. */
  function IndexOfNewline(s: string): (r: int)
    ensures -1 <= r < |s| && (r >= 0 ==> s[r] == '\n')
    ensures forall i :: 0 <= i < |s| && (r < 0 || i < r) ==> s[i] != '\n'
  {
    if s == "" then -1
    else if s[0] == '\n' then 0
    else
      var r := IndexOfNewline(s[1..]);
      assert forall i :: 0 < i < |s| ==> s[i] == s[1..][i - 1];
      if r < 0 then -1 else r + 1
  }

  lemma NewlineUnique(s: string, n: nat)
    requires n < |s| && s[n] == '\n' && forall i :: 0 <= i < n ==> s[i] != '\n'
    ensures IndexOfNewline(s) == n
  {}

  /** What stands between the newlines; the last line has none behind it. */
  function Lines(s: string): seq<string> {
    var nl := IndexOfNewline(s);
    if nl < 0 then [s] else [s[..nl]] + Lines(s[nl + 1..])
  }

  function JoinLines(lines: seq<string>): string {
    if lines == [] then "" else if |lines| == 1 then lines[0] else lines[0] + "\n" + JoinLines(lines[1..])
  }

  /** The lines are the text cut at its newlines and nowhere else. */
  lemma {:induction false} LinesExact(s: string)
    ensures Lines(s) != [] && JoinLines(Lines(s)) == s
    ensures forall i :: 0 <= i < |Lines(s)| ==> '\n' !in Lines(s)[i]
    decreases |s|
  {
    var nl := IndexOfNewline(s);
    if nl >= 0 {
      var rest := s[nl + 1..];
      LinesExact(rest);
      assert ([s[..nl]] + Lines(rest))[1..] == Lines(rest);
      assert s == s[..nl] + "\n" + rest;
    }
  }

  function NonBlank(lines: seq<string>): seq<string> {
    if lines == [] then [] else (if Trim(lines[0]) == "" then [] else [lines[0]]) + NonBlank(lines[1..])
  }

  lemma BlankIsNoise(parse: Parser, str: Stringify, acc: Accum, line: string)
    ensures Trim(line) == "" ==> HandleLine(parse, str, acc, line) == acc
  {}

  lemma {:induction false} BlanksAreNoise(parse: Parser, str: Stringify, acc: Accum, lines: seq<string>)
    ensures HandleLines(parse, str, acc, lines) == HandleLines(parse, str, acc, NonBlank(lines))
    decreases |lines|
  {
    hide HandleLine;
    if lines != [] {
      BlankIsNoise(parse, str, acc, lines[0]);
      BlanksAreNoise(parse, str, HandleLine(parse, str, acc, lines[0]), lines[1..]);
      var rest := NonBlank(lines[1..]);
      assert ([lines[0]] + rest)[1..] == rest;
      assert [] + rest == rest;
    }
  }

  // ----- The buffer -----

  datatype Reader = Reader(acc: Accum, buf: string)

  /** The inner loop: handle every complete line and keep the rest; a line that throws stays in front of the buffer. */
  function Drain(parse: Parser, str: Stringify, r: Reader): Reader
    decreases |r.buf|
  {
    var nl := IndexOfNewline(r.buf);
    if nl < 0 || Throws(parse, r.buf[..nl]) then r
    else Drain(parse, str, Reader(HandleLine(parse, str, r.acc, r.buf[..nl]), r.buf[nl + 1..]))
  }

  function OnData(parse: Parser, str: Stringify, r: Reader, d: string): Reader {
    Drain(parse, str, r.(buf := r.buf + d))
  }

  function OnEach(parse: Parser, str: Stringify, r: Reader, data: seq<string>): Reader
    decreases |data|
  {
    if data == [] then r else OnEach(parse, str, OnData(parse, str, r, data[0]), data[1..])
  }

  /** At close the whole leftover is handled as one text, newlines and all. */
  function AtClose(parse: Parser, str: Stringify, r: Reader): Accum {
    HandleLine(parse, str, r.acc, r.buf)
  }

  lemma DrainStep(parse: Parser, str: Stringify, r: Reader, nl: int)
    requires nl == IndexOfNewline(r.buf)
    ensures nl < 0 || Throws(parse, r.buf[..nl]) ==> Drain(parse, str, r) == r
    ensures nl >= 0 && !Throws(parse, r.buf[..nl]) ==>
              Drain(parse, str, r)
                  == Drain(parse, str, Reader(HandleLine(parse, str, r.acc, r.buf[..nl]), r.buf[nl + 1..]))
  {
    hide Throws, HandleLine, IndexOfNewline;
  }

  lemma CutBoth(s: string, d: string, nl: nat)
    requires nl == IndexOfNewline(s)
    ensures nl == IndexOfNewline(s + d) && (s + d)[..nl] == s[..nl] && (s + d)[nl + 1..] == s[nl + 1..] + d
  {
    NewlineUnique(s + d, nl);
  }

  lemma {:induction false} DrainAppend(parse: Parser, str: Stringify, r: Reader, d: string)
    ensures Drain(parse, str, r.(buf := r.buf + d)) == OnData(parse, str, Drain(parse, str, r), d)
    decreases |r.buf|
  {
    hide HandleLine, Drain, IndexOfNewline, Throws;
    var nl := IndexOfNewline(r.buf);
    DrainStep(parse, str, r, nl);
    if nl >= 0 && !Throws(parse, r.buf[..nl]) {
      CutBoth(r.buf, d, nl);
      DrainStep(parse, str, r.(buf := r.buf + d), nl);
      DrainAppend(parse, str, Reader(HandleLine(parse, str, r.acc, r.buf[..nl]), r.buf[nl + 1..]), d);
    }
  }

  /** Any split of an output into data events leaves the reader as the whole output at once would. */
  lemma {:induction false} SplitIrrelevant(parse: Parser, str: Stringify, r: Reader, data: seq<string>)
    ensures OnEach(parse, str, Drain(parse, str, r), data) == Drain(parse, str, r.(buf := r.buf + Concat(data)))
    decreases |data|
  {
    hide Drain;
    if data == [] {
      assert r.buf + "" == r.buf;
    } else {
      DrainAppend(parse, str, r, data[0]);
      SplitIrrelevant(parse, str, r.(buf := r.buf + data[0]), data[1..]);
      assert (r.buf + data[0]) + Concat(data[1..]) == r.buf + Concat(data);
    }
  }

  /** Where the reading of complete lines ends: at the first that throws, or at the last, which has no newline. */
  function FirstThrow(parse: Parser, lines: seq<string>): (i: nat)
    requires lines != []
    ensures i < |lines| && (forall j :: 0 <= j < i ==> !Throws(parse, lines[j]))
    ensures i < |lines| - 1 ==> Throws(parse, lines[i])
  {
    if |lines| == 1 || Throws(parse, lines[0]) then 0 else 1 + FirstThrow(parse, lines[1..])
  }

  lemma ThrowFirst(parse: Parser, line: string, rest: seq<string>)
    requires rest != []
    ensures var (lines, i) := ([line] + rest, FirstThrow(parse, rest));
            if Throws(parse, line) then FirstThrow(parse, lines) == 0 && lines[..0] == [] && lines[0..] == lines
            else && FirstThrow(parse, lines) == i + 1
                 && lines[..i + 1] == [line] + rest[..i] && lines[i + 1..] == rest[i..]
  {
    hide Throws;
    assert ([line] + rest)[1..] == rest;
    var lines, i := [line] + rest, FirstThrow(parse, rest);
    assert lines[..i + 1] == [line] + rest[..i] && lines[i + 1..] == rest[i..];
  }

  lemma HandleFirst(parse: Parser, str: Stringify, acc: Accum, line: string, rest: seq<string>)
    ensures HandleLines(parse, str, acc, [line] + rest)
            == HandleLines(parse, str, HandleLine(parse, str, acc, line), rest)
    ensures HandleLines(parse, str, acc, []) == acc
  {
    assert ([line] + rest)[1..] == rest;
  }

  lemma LinesFirst(s: string, nl: nat)
    requires nl == IndexOfNewline(s)
    ensures Lines(s) == [s[..nl]] + Lines(s[nl + 1..]) && Lines(s[nl + 1..]) != []
  {
    LinesExact(s[nl + 1..]);
  }

  lemma {:induction false} DrainLines(parse: Parser, str: Stringify, r: Reader)
    ensures Lines(r.buf) != []
    ensures var i := FirstThrow(parse, Lines(r.buf));
            Drain(parse, str, r)
                == Reader(HandleLines(parse, str, r.acc, Lines(r.buf)[..i]), JoinLines(Lines(r.buf)[i..]))
    decreases |r.buf|
  {
    hide HandleLine, HandleLines, Throws, FirstThrow, Lines, JoinLines, Drain;
    var nl := IndexOfNewline(r.buf);
    LinesExact(r.buf);
    DrainStep(parse, str, r, nl);
    if nl >= 0 {
      var line, rest := r.buf[..nl], r.buf[nl + 1..];
      LinesFirst(r.buf, nl);
      ThrowFirst(parse, line, Lines(rest));
      if Throws(parse, line) {
        HandleFirst(parse, str, r.acc, line, []);
      } else {
        DrainLines(parse, str, Reader(HandleLine(parse, str, r.acc, line), rest));
        HandleFirst(parse, str, r.acc, line, Lines(rest)[..FirstThrow(parse, Lines(rest))]);
      }
    } else {
      LastLine(r.buf);
      HandleFirst(parse, str, r.acc, "", []);
      OnlyOne(parse, r.buf);
    }
  }

  lemma OnlyOne(parse: Parser, line: string)
    ensures FirstThrow(parse, [line]) == 0 && [line][..0] == [] && [line][0..] == [line] && JoinLines([line]) == line
  {}

  /**
   * Chunking does not matter: for any split of the output, the accumulators after the last data
   * event are those of its lines, in order, before the first that throws, and what is left is the
   * text from there on, or else the last line.
   */
  lemma ChunkingIrrelevant(parse: Parser, str: Stringify, data: seq<string>)
    ensures var lines := Lines(Concat(data));
            && lines != []
            && var i := FirstThrow(parse, lines);
               OnEach(parse, str, Reader(EMPTY, ""), data)
               == Reader(HandleLines(parse, str, EMPTY, lines[..i]), JoinLines(lines[i..]))
  {
    var r := Reader(EMPTY, "");
    SplitIrrelevant(parse, str, r, data);
    assert "" + Concat(data) == Concat(data);
    DrainLines(parse, str, Reader(EMPTY, Concat(data)));
  }

  lemma {:induction false} HandleAppend(parse: Parser, str: Stringify, acc: Accum, a: seq<string>, b: seq<string>)
    ensures HandleLines(parse, str, acc, a + b) == HandleLines(parse, str, HandleLines(parse, str, acc, a), b)
    decreases |a|
  {
    hide HandleLine;
    if a == [] {
      assert a + b == b;
    } else {
      assert (a + b)[1..] == a[1..] + b;
      HandleAppend(parse, str, HandleLine(parse, str, acc, a[0]), a[1..], b);
    }
  }

  lemma LastOfLines(lines: seq<string>)
    requires lines != []
    ensures var i := |lines| - 1; lines[..i] + [lines[i]] == lines && JoinLines(lines[i..]) == lines[i]
  {}

  /** With no line that throws, the accumulators at close are those of the non-blank lines of the whole output. */
  lemma EveryLineHandled(parse: Parser, str: Stringify, data: seq<string>)
    requires forall i :: 0 <= i < |Lines(Concat(data))| ==> !Throws(parse, Lines(Concat(data))[i])
    ensures AtClose(parse, str, OnEach(parse, str, Reader(EMPTY, ""), data))
            == HandleLines(parse, str, EMPTY, NonBlank(Lines(Concat(data))))
    ensures !Throws(parse, OnEach(parse, str, Reader(EMPTY, ""), data).buf)
  {
    hide HandleLine, HandleLines, Throws, Lines, JoinLines, NonBlank, OnEach;
    ChunkingIrrelevant(parse, str, data);
    var lines := Lines(Concat(data));
    var i := FirstThrow(parse, lines);
    assert i == |lines| - 1;
    LastOfLines(lines);
    HandleAppend(parse, str, EMPTY, lines[..i], [lines[i]]);
    OneHandled(parse, str, HandleLines(parse, str, EMPTY, lines[..i]), lines[i]);
    BlanksAreNoise(parse, str, EMPTY, lines);
  }

  /** The deltas passed on, put together, are the streamed text. */
  ghost predicate SentAll(acc: Accum) {
    Concat(acc.sent) == acc.streamedText
  }

  lemma {:induction false} ConcatSnoc(parts: seq<string>, t: string)
    ensures Concat(parts + [t]) == Concat(parts) + t
  {
    if parts == [] {
      assert [t][1..] == [];
      assert [] + [t] == [t];
    } else {
      assert (parts + [t])[1..] == parts[1..] + [t];
      ConcatSnoc(parts[1..], t);
    }
  }

  lemma HandleEventSends(str: Stringify, acc: Accum, ev: Json)
    requires SentAll(acc)
    ensures SentAll(HandleEvent(str, acc, ev))
  {
    ConcatSnoc(acc.sent, DeltaText(str, Get(Get(Some(ev), "delta"), "text")));
  }

  lemma HandleLineSends(parse: Parser, str: Stringify, acc: Accum, line: string)
    requires SentAll(acc)
    ensures SentAll(HandleLine(parse, str, acc, line))
  {
    hide SentAll;
    var s := Trim(line);
    if parse(s).Some? {
      var obj := parse(s).value;
      HandleEventSends(str, acc, obj);
      if Get(Some(obj), "event").Some? { HandleEventSends(str, acc, Get(Some(obj), "event").value); }
      SameSent(acc, HandleObject(str, acc, obj));
    }
  }

  lemma SameSent(a: Accum, b: Accum)
    ensures SentAll(a) && b.sent == a.sent && b.streamedText == a.streamedText ==> SentAll(b)
  {}

  lemma {:induction false} HandleLinesSend(parse: Parser, str: Stringify, acc: Accum, lines: seq<string>)
    requires SentAll(acc)
    ensures SentAll(HandleLines(parse, str, acc, lines))
    decreases |lines|
  {
    hide SentAll, HandleLine;
    if lines != [] {
      HandleLineSends(parse, str, acc, lines[0]);
      HandleLinesSend(parse, str, HandleLine(parse, str, acc, lines[0]), lines[1..]);
    }
  }

  // ----- The outcome -----

  datatype StreamResult = StreamResult(text: string, tokensIn: real, tokensOut: real)

  const EXITED := "claude CLI (stream) exited"
  const NO_TEXT := "claude CLI (stream) produced no text"

  /** The authoritative answer: result, else the full assistant message, else what was streamed. */
  function FinalText(acc: Accum): string {
    Trim(if acc.resultText != "" then acc.resultText
         else if acc.assistantText != "" then acc.assistantText
         else acc.streamedText)
  }

  function Outcome(acc: Accum, code: int): Result<StreamResult> {
    if code != 0 then Err(EXITED)
    else if FinalText(acc) == "" then Err(NO_TEXT)
    else Ok(StreamResult(FinalText(acc), acc.tokensIn, acc.tokensOut))
  }

  /** None: the close handler throws on the leftover, and the promise never settles. */
  function Finish(parse: Parser, str: Stringify, r: Reader, code: int): Option<Result<StreamResult>> {
    if Throws(parse, r.buf) then None else Some(Outcome(AtClose(parse, str, r), code))
  }

  /** The whole stream as a function of its output. */
  function Answer(parse: Parser, str: Stringify, output: string, code: int): Option<Result<StreamResult>> {
    Finish(parse, str, Drain(parse, str, Reader(EMPTY, output)), code)
  }

  /** When the CLI sent neither result nor assistant message, the answer is exactly the deltas passed on, trimmed. */
  lemma StreamedAnswer(parse: Parser, str: Stringify, data: seq<string>, code: int)
    ensures var r := OnEach(parse, str, Reader(EMPTY, ""), data);
            var acc := AtClose(parse, str, r);
            acc.resultText == "" && acc.assistantText == "" ==>
              match Finish(parse, str, r, code)
              case Some(Ok(answer)) => answer.text == Trim(Concat(acc.sent)) && answer.text != ""
              case Some(Err(_)) => code != 0 || Blank(Concat(acc.sent))
              case None => Throws(parse, r.buf)
  {
    ChunkingIrrelevant(parse, str, data);
    var lines := Lines(Concat(data));
    var r := OnEach(parse, str, Reader(EMPTY, ""), data);
    HandleLinesSend(parse, str, EMPTY, lines[..FirstThrow(parse, lines)]);
    HandleLineSends(parse, str, r.acc, r.buf);
    TrimEmpty(Concat(AtClose(parse, str, r).sent));
  }

  // ----- When the promise hangs -----

  /** JSON: a text without blanks around it parses to null exactly if it is `null`. */
  ghost predicate JsonNull(parse: Parser) {
    forall s :: Trim(s) == s ==> (parse(s) == Some(Null) <==> s == "null")
  }

  lemma ThrowsOnNull(parse: Parser, line: string)
    requires JsonNull(parse)
    ensures Throws(parse, line) <==> Trim(line) == "null"
  {
    TrimTwice(line);
  }

  /** The first line that is `null` has nothing but blank lines behind it. */
  ghost predicate NullLast(lines: seq<string>, k: nat) {
    && k < |lines| && Trim(lines[k]) == "null"
    && (forall j :: 0 <= j < k ==> Trim(lines[j]) != "null")
    && (forall j :: k < j < |lines| ==> Trim(lines[j]) == "")
  }

  lemma InkLines(lines: seq<string>)
    requires lines != []
    ensures Ink(JoinLines(lines)) == Ink(lines[0]) + Ink(JoinLines(lines[1..]))
  {
    hide IsSpace, Ink;
    if |lines| > 1 {
      NewlineNoInk();
      InkAppend(lines[0], "\n");
      InkAppend(lines[0] + "\n", JoinLines(lines[1..]));
    } else {
      assert lines[1..] == [];
      InkNothing("");
    }
  }

  lemma {:induction false} InkOfBlanks(lines: seq<string>)
    ensures Ink(JoinLines(lines)) == "" <==> forall j :: 0 <= j < |lines| ==> Trim(lines[j]) == ""
  {
    hide IsSpace, Ink, Trim, Blank;
    if lines == [] {
      NewlineNoInk();
    } else {
      InkLines(lines);
      InkOfBlanks(lines[1..]);
      InkNothing(lines[0]);
      TrimEmpty(lines[0]);
      assert forall j :: 0 < j < |lines| ==> lines[j] == lines[1..][j - 1];
      assert forall j :: 0 <= j < |lines[1..]| ==> lines[1..][j] == lines[j + 1];
    }
  }

  lemma NewlineNoInk()
    ensures Ink("\n") == "" && Blank("\n") && Ink("") == ""
  {}

  lemma NullInk(s: string)
    requires Trim(s) == "null"
    ensures Ink(s) == "null" && !Blank(s)
  {
    InkTrim(s);
    InkNothing(s);
    assert Ink("null") == "null" by {
      assert "null"[1..] == "ull" && "ull"[1..] == "ll" && "ll"[1..] == "l" && "l"[1..] == "";
    }
  }

  /** What is left from a `null` line on is `null` exactly if only blank lines follow. */
  lemma NullLeftover(lines: seq<string>)
    requires lines != [] && Trim(lines[0]) == "null"
    ensures Trim(JoinLines(lines)) == "null" <==> forall j :: 0 < j < |lines| ==> Trim(lines[j]) == ""
  {
    NullInk(lines[0]);
    hide Trim, Ink, IsSpace, Blank;
    InkLines(lines);
    var rest := lines[1..];
    if Trim(JoinLines(lines)) == "null" {
      NullInk(JoinLines(lines));
      assert Ink(JoinLines(rest)) == "";
      InkOfBlanks(rest);
      assert forall j :: 0 < j < |lines| ==> lines[j] == rest[j - 1];
    } else if rest != [] && forall j :: 0 < j < |lines| ==> Trim(lines[j]) == "" {
      assert forall j :: 0 <= j < |rest| ==> rest[j] == lines[j + 1];
      InkOfBlanks(rest);
      BlankTail(lines[0], JoinLines(rest));
    }
  }

  lemma BlankTail(line: string, rest: string)
    requires !Blank(line) && Ink(rest) == ""
    ensures Trim(line + "\n" + rest) == Trim(line)
  {
    InkNothing(rest);
    TrimMore(line, "\n" + rest);
    assert line + "\n" + rest == line + ("\n" + rest);
  }

  lemma FirstNull(parse: Parser, lines: seq<string>)
    requires JsonNull(parse) && lines != []
    ensures var i := FirstThrow(parse, lines);
            && (forall j :: 0 <= j < i ==> Trim(lines[j]) != "null")
            && (i < |lines| - 1 ==> Trim(lines[i]) == "null")
  {
    hide JsonNull, Trim;
    var i := FirstThrow(parse, lines);
    ThrowsOnNull(parse, lines[i]);
    forall j | 0 <= j < i
      ensures Trim(lines[j]) != "null"
    {
      ThrowsOnNull(parse, lines[j]);
    }
  }

  /** From the first `null` line on, or from the last line: what is left is `null` exactly if that `null` is last. */
  lemma LeftoverNull(lines: seq<string>, i: nat)
    requires i < |lines| && (forall j :: 0 <= j < i ==> Trim(lines[j]) != "null")
    requires i < |lines| - 1 ==> Trim(lines[i]) == "null"
    ensures Trim(JoinLines(lines[i..])) == "null" <==> NullLast(lines, i)
  {
    hide Trim;
    var left := lines[i..];
    assert forall j :: i <= j < |lines| ==> lines[j] == left[j - i];
    assert forall j :: 0 <= j < |left| ==> left[j] == lines[i + j];
    if Trim(left[0]) == "null" {
      NullLeftover(left);
    } else {
      assert left == [lines[i]];
    }
  }

  /**
   * The promise never settles exactly when the first `null` line of the output is its last line that
   * is not blank; text behind it makes the leftover no JSON, and the stream settles.
   */
  lemma HangsExactly(parse: Parser, str: Stringify, output: string, code: int)
    requires JsonNull(parse)
    ensures Answer(parse, str, output, code) == None <==> exists k: nat :: NullLast(Lines(output), k)
  {
    hide JsonNull, Trim, Lines, JoinLines, FirstThrow, Throws, HandleLines, Drain;
    DrainLines(parse, str, Reader(EMPTY, output));
    var lines := Lines(output);
    var i := FirstThrow(parse, lines);
    FirstNull(parse, lines);
    LeftoverNull(lines, i);
    ThrowsOnNull(parse, JoinLines(lines[i..]));
    if k: nat :| NullLast(lines, k) { assert k == i; }
  }

  const DELTA_HI := Obj(map["type" := Str("content_block_delta"),
                            "delta" := Obj(map["type" := Str("text_delta"), "text" := Str("hi")])])

  lemma NullLine()
    ensures Lines("null") == ["null"] && Trim("null") == "null"
  {
    TrimSame("null");
  }

  /** An output that is just `null` hangs. */
  lemma BareNullHangs(parse: Parser, str: Stringify, code: int)
    requires JsonNull(parse)
    ensures Answer(parse, str, "null", code) == None
  {
    hide Answer, Throws, Trim;
    NullLine();
    assert NullLast(["null"], 0);
    HangsExactly(parse, str, "null", code);
  }

  lemma HiObject(str: Stringify)
    ensures HandleObject(str, EMPTY, DELTA_HI) == Accum("", "", "hi", 0.0, 0.0, ["hi"])
  {
    assert HandleEvent(str, EMPTY, DELTA_HI) == Accum("", "", "hi", 0.0, 0.0, ["hi"]) by {
      assert "" + "hi" == "hi" && [] + ["hi"] == ["hi"];
    }
  }

  lemma HiDelta(parse: Parser, str: Stringify, delta: string)
    requires parse(delta) == Some(DELTA_HI) && delta != "" && Trim(delta) == delta
    ensures !Throws(parse, delta)
    ensures HandleLine(parse, str, EMPTY, delta) == Accum("", "", "hi", 0.0, 0.0, ["hi"])
  {
    hide Trim, HandleObject, HandleEvent;
    HiObject(str);
  }

  lemma NoJsonLeft(parse: Parser, str: Stringify, acc: Accum, more: string)
    requires more != "" && Trim(more) == more && parse("null\n" + more) == None
    ensures !Throws(parse, "null\n" + more) && HandleLine(parse, str, acc, "null\n" + more) == acc
  {
    hide HandleObject;
    TrimmedEnds(more);
    TrimSame("null\n" + more);
  }

  lemma SecondThrows(parse: Parser, a: string, b: string, c: string)
    requires !Throws(parse, a) && Throws(parse, b)
    ensures FirstThrow(parse, [a, b, c]) == 1
    ensures [a, b, c][..1] == [a] && [a, b, c][1..] == [b, c] && JoinLines([b, c]) == b + "\n" + c
  {
    hide Throws;
    assert [a, b, c][1..] == [b, c] && [b, c][1..] == [c];
  }

  /** A delta, `null` and one more line: the line behind `null` lets the stream settle with the delta's text. */
  lemma NullThenTextSettles(parse: Parser, str: Stringify, delta: string, more: string)
    requires JsonNull(parse) && parse(delta) == Some(DELTA_HI)
    requires delta != "" && Trim(delta) == delta && '\n' !in delta
    requires more != "" && Trim(more) == more && '\n' !in more && parse("null\n" + more) == None
    ensures Answer(parse, str, delta + "\n" + "null" + "\n" + more, 0) == Some(Ok(StreamResult("hi", 0.0, 0.0)))
  {
    hide JsonNull, HandleLine, HandleLines, Throws, Trim, Lines, JoinLines, FirstThrow, Drain;
    var output := delta + "\n" + "null" + "\n" + more;
    ThreeLines(delta, "null", more);
    DrainLines(parse, str, Reader(EMPTY, output));
    NullIsTrimmed();
    ThrowsOnNull(parse, "null");
    HiDelta(parse, str, delta);
    SecondThrows(parse, delta, "null", more);
    OneHandled(parse, str, EMPTY, delta);
    NoJsonLeft(parse, str, Accum("", "", "hi", 0.0, 0.0, ["hi"]), more);
    assert "null" + "\n" + more == "null\n" + more;
  }

  lemma NullIsTrimmed()
    ensures Trim("null") == "null" && Trim("hi") == "hi"
  {
    TrimSame("null");
    TrimSame("hi");
  }

  lemma OneHandled(parse: Parser, str: Stringify, acc: Accum, line: string)
    ensures HandleLines(parse, str, acc, [line]) == HandleLine(parse, str, acc, line)
  {
    assert [line][1..] == [];
  }

  lemma TrimmedEnds(s: string)
    requires s != "" && Trim(s) == s
    ensures !IsSpace(s[0]) && !IsSpace(s[|s| - 1])
  {
    var i, j := TrimWithin(s);
  }

  lemma ThreeLines(a: string, b: string, c: string)
    requires '\n' !in a && '\n' !in b && '\n' !in c
    ensures Lines(a + "\n" + b + "\n" + c) == [a, b, c]
  {
    hide Lines;
    OneLine(a, b + "\n" + c);
    OneLine(b, c);
    LastLine(c);
    assert a + "\n" + (b + "\n" + c) == a + "\n" + b + "\n" + c;
  }

  lemma LastLine(c: string)
    requires '\n' !in c
    ensures Lines(c) == [c]
  {
    assert IndexOfNewline(c) < 0;
  }

  lemma OneLine(a: string, rest: string)
    requires '\n' !in a
    ensures Lines(a + "\n" + rest) == [a] + Lines(rest)
  {
    var s := a + "\n" + rest;
    NewlineUnique(s, |a|);
    assert s[..|a|] == a && s[|a| + 1..] == rest;
  }

  // ----- In place -----

  class CliStream {
    const parse: Parser
    const str: Stringify
    var acc: Accum
    var buf: string

    ghost function Now(): Reader
      reads this
    {
      Reader(acc, buf)
    }

    constructor (parse: Parser, str: Stringify)
      ensures this.parse == parse && this.str == str && Now() == Reader(EMPTY, "")
    {
      this.parse := parse;
      this.str := str;
      acc := EMPTY;
      buf := "";
    }

    /** `threw`: the exception leaves the handler with the line that caused it still in the buffer. */
    method Data(d: string) returns (threw: bool)
      modifies this
      ensures Now() == OnData(parse, str, old(Now()), d)
      ensures threw <==> '\n' in buf
    {
      hide HandleLine, Drain, IndexOfNewline, Throws;
      buf := buf + d;
      var nl := IndexOfNewline(buf);
      while nl >= 0
        invariant nl == IndexOfNewline(buf)
        invariant Drain(parse, str, Now()) == OnData(parse, str, old(Now()), d)
        decreases |buf|
      {
        DrainStep(parse, str, Now(), nl);
        if Throws(parse, buf[..nl]) { return true; }
        acc := HandleLine(parse, str, acc, buf[..nl]);
        buf := buf[nl + 1..];
        nl := IndexOfNewline(buf);
      }
      DrainStep(parse, str, Now(), nl);
      threw := false;
    }

    method Close(code: int) returns (r: Option<Result<StreamResult>>)
      modifies this
      ensures acc == AtClose(parse, str, old(Now())) && r == Finish(parse, str, old(Now()), code)
    {
      if Trim(buf) != "" {
        if Throws(parse, buf) { return None; }
        acc := HandleLine(parse, str, acc, buf);
      }
      if code != 0 { return Some(Err(EXITED)); }
      var text := FinalText(acc);
      if text == "" { return Some(Err(NO_TEXT)); }
      r := Some(Ok(StreamResult(text, acc.tokensIn, acc.tokensOut)));
    }
  }

  /**
   * A whole stream, however it is cut: the outcome depends on the concatenated output and the exit
   * code alone. An exception of a data handler is left to the process, which is taken to go on.
   */
  method RunCliStreaming(parse: Parser, str: Stringify, data: seq<string>, code: int)
      returns (r: Option<Result<StreamResult>>)
    ensures r == Answer(parse, str, Concat(data), code)
  {
    var child := new CliStream(parse, str);
    var i := 0;
    assert data[0..] == data;
    while i < |data|
      invariant i <= |data| && child.parse == parse && child.str == str
      invariant OnEach(parse, str, child.Now(), data[i..]) == OnEach(parse, str, Reader(EMPTY, ""), data)
    {
      assert data[i..][1..] == data[i + 1..];
      var _ := child.Data(data[i]);
      i := i + 1;
    }
    r := child.Close(code);
    SplitIrrelevant(parse, str, Reader(EMPTY, ""), data);
    assert "" + Concat(data) == Concat(data);
  }
}
