/** What the CLI says, message by message, and the answer it amounts to. */
module CliMessages {
  import opened Domain
  import opened Text
  import opened LineReader

  /** Token counts of a message, each there or not. */
  datatype Usage = Usage(input: Option<real>, output: Option<real>)

  /** The messages of the CLI; deltas come wrapped in a stream event or, from some builds, as they are. */
  datatype Msg =
    | Delta(text: string, wrapped: bool)
    | Started(input: real)
    | Progressed(output: real)
    | Full(parts: seq<string>, usage: Usage)
    | Final(text: string, usage: Usage)
    | System

  function Pair(key: string, j: Json): map<string, Json> {
    map[key := j]
  }

  function UsageJson(u: Usage): Json {
    Obj((if u.input.Some? then Pair("input_tokens", Num(u.input.value)) else map[])
        + (if u.output.Some? then Pair("output_tokens", Num(u.output.value)) else map[]))
  }

  function PartsJson(parts: seq<string>): seq<Json> {
    if parts == [] then []
    else [Obj(map["type" := Str("text"), "text" := Str(parts[0])])] + PartsJson(parts[1..])
  }

  function Event(ev: Json): Json {
    Obj(map["type" := Str("stream_event"), "event" := ev])
  }

  function DeltaJson(text: string): Json {
    Obj(map["type" := Str("content_block_delta"),
            "delta" := Obj(map["type" := Str("text_delta"), "text" := Str(text)])])
  }

  /** The JSON of a message. */
  function Encode(m: Msg): Json {
    match m
    case Delta(text, wrapped) => if wrapped then Event(DeltaJson(text)) else DeltaJson(text)
    case Started(input) =>
      Event(Obj(map["type" := Str("message_start"),
                    "message" := Obj(map["usage" := UsageJson(Usage(Some(input), None))])]))
    case Progressed(output) =>
      Event(Obj(map["type" := Str("message_delta"), "usage" := UsageJson(Usage(None, Some(output)))]))
    case Full(parts, usage) =>
      Obj(map["type" := Str("assistant"),
              "message" := Obj(map["content" := Arr(PartsJson(parts)), "usage" := UsageJson(usage)])])
    case Final(text, usage) => Obj(map["type" := Str("result"), "result" := Str(text), "usage" := UsageJson(usage)])
    case System => Obj(map["type" := Str("system")])
  }

  // ----- What the messages amount to -----

  /** The text of the last result. */
  function LastResult(ms: seq<Msg>): string {
    if ms == [] then ""
    else if ms[|ms| - 1].Final? then ms[|ms| - 1].text
    else LastResult(ms[..|ms| - 1])
  }

  /** The text of the last assistant message that has any. */
  function LastFull(ms: seq<Msg>): string {
    if ms == [] then ""
    else
      var last := ms[|ms| - 1];
      if last.Full? && last.parts != [] then Concat(last.parts) else LastFull(ms[..|ms| - 1])
  }

  /** The deltas that have a text. */
  function Deltas(ms: seq<Msg>): seq<string> {
    if ms == [] then []
    else
      var last := ms[|ms| - 1];
      Deltas(ms[..|ms| - 1]) + if last.Delta? && last.text != "" then [last.text] else []
  }

  function InputOf(m: Msg): Option<real> {
    match m
    case Started(input) => Some(input)
    case Full(_, usage) => usage.input
    case Final(_, usage) => usage.input
    case _ => None
  }

  function OutputOf(m: Msg): Option<real> {
    match m
    case Progressed(output) => Some(output)
    case Full(_, usage) => usage.output
    case Final(_, usage) => usage.output
    case _ => None
  }

  /** The last count that was named, or 0. */
  function LastInput(ms: seq<Msg>): real {
    if ms == [] then 0.0
    else if InputOf(ms[|ms| - 1]).Some? then InputOf(ms[|ms| - 1]).value
    else LastInput(ms[..|ms| - 1])
  }

  function LastOutput(ms: seq<Msg>): real {
    if ms == [] then 0.0
    else if OutputOf(ms[|ms| - 1]).Some? then OutputOf(ms[|ms| - 1]).value
    else LastOutput(ms[..|ms| - 1])
  }

  function Total(ms: seq<Msg>): Accum {
    Accum(LastResult(ms), LastFull(ms), Concat(Deltas(ms)), LastInput(ms), LastOutput(ms), Deltas(ms))
  }

  // ----- The reader reads them -----

  lemma UsageRead(acc: Accum, u: Usage)
    ensures var acc' := TakeUsage(acc, Some(UsageJson(u)));
            && acc' == acc.(tokensIn := acc'.tokensIn, tokensOut := acc'.tokensOut)
            && acc'.tokensIn == (if u.input.Some? then u.input.value else acc.tokensIn)
            && acc'.tokensOut == (if u.output.Some? then u.output.value else acc.tokensOut)
  {}

  lemma {:induction false} PartsRead(parts: seq<string>)
    ensures TextParts(PartsJson(parts)) == parts
    decreases |parts|
  {
    if parts != [] {
      PartsRead(parts[1..]);
      var part := Obj(map["type" := Str("text"), "text" := Str(parts[0])]);
      assert IsTextPart(part);
      assert PartsJson(parts)[0] == part && PartsJson(parts)[1..] == PartsJson(parts[1..]);
      assert [parts[0]] + parts[1..] == parts;
    }
  }

  lemma DeltaRead(str: Stringify, acc: Accum, text: string)
    ensures HandleEvent(str, acc, DeltaJson(text))
            == if text == "" then acc else acc.(streamedText := acc.streamedText + text, sent := acc.sent + [text])
  {}

  lemma EventRead(str: Stringify, acc: Accum, ev: Json)
    requires ev.Obj?
    ensures HandleObject(str, acc, Event(ev)) == HandleEvent(str, acc, ev)
  {}

  lemma RawDeltaRead(str: Stringify, acc: Accum, text: string)
    ensures HandleObject(str, acc, DeltaJson(text)) == HandleEvent(str, acc, DeltaJson(text))
  {}

  lemma StartedRead(str: Stringify, acc: Accum, input: real)
    ensures HandleObject(str, acc, Encode(Started(input))) == acc.(tokensIn := input)
  {
    var u := UsageJson(Usage(Some(input), None));
    assert Get(Some(u), "input_tokens") == Some(Num(input));
  }

  lemma ProgressedRead(str: Stringify, acc: Accum, output: real)
    ensures HandleObject(str, acc, Encode(Progressed(output))) == acc.(tokensOut := output)
  {
    var u := UsageJson(Usage(None, Some(output)));
    assert Get(Some(u), "output_tokens") == Some(Num(output));
  }

  lemma FullRead(str: Stringify, acc: Accum, parts: seq<string>, usage: Usage)
    ensures HandleObject(str, acc, Encode(Full(parts, usage)))
            == TakeUsage(if parts == [] then acc else acc.(assistantText := Concat(parts)), Some(UsageJson(usage)))
  {
    PartsRead(parts);
    hide TextParts, PartsJson, UsageJson, TakeUsage;
  }

  lemma FinalRead(str: Stringify, acc: Accum, text: string, usage: Usage)
    ensures HandleObject(str, acc, Encode(Final(text, usage)))
            == TakeUsage(acc.(resultText := text), Some(UsageJson(usage)))
  {
    hide UsageJson, TakeUsage;
  }

  lemma SystemRead(str: Stringify, acc: Accum)
    ensures HandleObject(str, acc, Encode(System)) == acc
  {}

  lemma {:induction false} ConcatOne(parts: seq<string>, t: string)
    ensures Concat(parts + [t]) == Concat(parts) + t && parts + [] == parts
  {
    ConcatSnoc(parts, t);
  }

  /** One more message. */
  lemma MessageRead(str: Stringify, ms: seq<Msg>)
    requires ms != []
    ensures HandleObject(str, Total(ms[..|ms| - 1]), Encode(ms[|ms| - 1])) == Total(ms)
  {
    hide HandleObject, HandleEvent, UsageJson, TakeUsage, Concat;
    var acc := Total(ms[..|ms| - 1]);
    ConcatSnoc(acc.sent, if ms[|ms| - 1].Delta? then ms[|ms| - 1].text else "");
    assert acc.sent + [] == acc.sent;
    match ms[|ms| - 1]
    case Delta(text, wrapped) =>
      DeltaRead(str, acc, text);
      if wrapped { EventRead(str, acc, DeltaJson(text)); } else { RawDeltaRead(str, acc, text); }
    case Started(input) => StartedRead(str, acc, input);
    case Progressed(output) => ProgressedRead(str, acc, output);
    case Full(parts, usage) =>
      FullRead(str, acc, parts, usage);
      UsageRead(if parts == [] then acc else acc.(assistantText := Concat(parts)), usage);
    case Final(text, usage) =>
      FinalRead(str, acc, text, usage);
      UsageRead(acc.(resultText := text), usage);
    case System => SystemRead(str, acc);
  }

  /** Each line is one message, with blanks around it at most. */
  ghost predicate Says(parse: Parser, lines: seq<string>, ms: seq<Msg>) {
    && |lines| == |ms|
    && forall i :: 0 <= i < |lines| ==>
         '\n' !in lines[i] && Trim(lines[i]) != "" && parse(Trim(lines[i])) == Some(Encode(ms[i]))
  }

  lemma {:induction false} LinesRead(parse: Parser, str: Stringify, lines: seq<string>, ms: seq<Msg>)
    requires Says(parse, lines, ms)
    ensures HandleLines(parse, str, EMPTY, lines) == Total(ms)
    ensures forall i :: 0 <= i < |lines| ==> !Throws(parse, lines[i])
    decreases |lines|
  {
    hide HandleObject, Encode;
    if lines == [] {
      NothingTotal();
    } else {
      var n := |lines| - 1;
      LinesRead(parse, str, lines[..n], ms[..n]);
      assert lines == lines[..n] + [lines[n]];
      HandleAppend(parse, str, EMPTY, lines[..n], [lines[n]]);
      MessageRead(str, ms);
      NotNull(ms[n]);
      OneRead(parse, str, Total(ms[..n]), lines[n], Encode(ms[n]));
      assert forall i :: 0 <= i < n ==> lines[i] == lines[..n][i];
    }
  }

  lemma NothingTotal()
    ensures Total([]) == EMPTY
  {}

  lemma NotNull(m: Msg)
    ensures Encode(m).Obj?
  {}

  lemma OneRead(parse: Parser, str: Stringify, acc: Accum, line: string, j: Json)
    requires Trim(line) != "" && parse(Trim(line)) == Some(j) && j.Obj?
    ensures HandleLines(parse, str, acc, [line]) == HandleObject(str, acc, j) && !Throws(parse, line)
  {
    assert [line][1..] == [];
  }

  lemma {:induction false} InNonBlank(lines: seq<string>)
    ensures forall i :: 0 <= i < |lines| ==> Trim(lines[i]) == "" || lines[i] in NonBlank(lines)
    decreases |lines|
  {
    hide Trim;
    if lines != [] {
      InNonBlank(lines[1..]);
      forall i | 0 <= i < |lines|
        ensures Trim(lines[i]) == "" || lines[i] in NonBlank(lines)
      {
        if i > 0 { assert lines[i] == lines[1..][i - 1]; }
      }
    }
  }

  lemma BlankPasses(parse: Parser, line: string)
    ensures Trim(line) == "" ==> !Throws(parse, line)
  {}

  /**
   * For an output that is messages, one a line with blank lines anywhere between them: the answer is the
   * last result, or else the last assistant message with a text, or else all deltas in order, with the
   * token counts named last; and it is an error exactly for a bad exit or if all that is blank.
   */
  lemma CliAnswer(parse: Parser, str: Stringify, output: string, ms: seq<Msg>, code: int)
    requires Says(parse, NonBlank(Lines(output)), ms)
    ensures var said := if LastResult(ms) != "" then LastResult(ms)
                        else if LastFull(ms) != "" then LastFull(ms)
                        else Concat(Deltas(ms));
            Answer(parse, str, output, code)
            == Some(if code != 0 then Err(EXITED)
                    else if Trim(said) == "" then Err(NO_TEXT)
                    else Ok(StreamResult(Trim(said), LastInput(ms), LastOutput(ms))))
  {
    hide Lines, Trim, NonBlank, Says, Throws, HandleLines, Drain, LastResult, LastFull, Deltas, LastInput, LastOutput;
    var lines := Lines(output);
    LinesRead(parse, str, NonBlank(lines), ms);
    InNonBlank(lines);
    assert Concat([output]) == output by { assert [output][1..] == [] && output + "" == output; }
    forall i | 0 <= i < |lines|
      ensures !Throws(parse, lines[i])
    {
      BlankPasses(parse, lines[i]);
      if lines[i] in NonBlank(lines) {
        var k :| 0 <= k < |NonBlank(lines)| && NonBlank(lines)[k] == lines[i];
      }
    }
    EveryLineHandled(parse, str, [output]);
    OneData(parse, str, output);
  }

  lemma OneData(parse: Parser, str: Stringify, output: string)
    ensures OnEach(parse, str, Reader(EMPTY, ""), [output]) == Drain(parse, str, Reader(EMPTY, output))
  {
    hide Drain;
    assert [output][1..] == [] && "" + output == output;
  }
}
