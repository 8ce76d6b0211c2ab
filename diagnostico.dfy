/**
 * The diagnosis page (`/diagnostico`): the symptom checklist, the label lookup, and the reader
 * that turns the route's server-sent event stream back into the analysis text.
 */
module DiagnosticoPage {
  import opened Wrappers
  import opened Strings
  import opened Config
  import opened Diagnosis

  // ---------------------------------------------------------------------------------------------
  // The stream reader

  /** What the reader does with one complete line. */
  datatype LineAction =
    | Skip                     // a comment, a blank line, a non-data line or empty content
    | Finish                   // `data: [DONE]`
    | Append(content: string)  // a delta carrying text
    | PushBack(line: string)   // the payload did not parse: the line goes back on the buffer

  /** The line with one trailing carriage return removed. */
  function StripCr(line: string): (r: string)
    ensures EndsWith(line, "\r") ==> r + "\r" == line
    ensures !EndsWith(line, "\r") ==> r == line
  {
    if EndsWith(line, "\r") then line[..|line| - 1] else line
  }

  /**
   * The trimmed payload of a `data: ` line; `None` for a comment, a blank line or any other
   * line, which the reader skips.
   */
  function Payload(line: string): (r: Option<string>)
    ensures r.Some? <==> StartsWith(line, "data: ")
    ensures r.Some? ==> r.value == Trim(line[6..])
  {
    if StartsWith(line, ":") || Trim(line) == "" then
      assert !StartsWith(line, "data: ") by {
        if StartsWith(line, "data: ") {
          assert line[0] == 'd';
          TrimEmptyIffAllSpace(line);
        }
      }
      None
    else if !StartsWith(line, "data: ") then None
    else Some(Trim(line[6..]))
  }

  function Classify(codec: DeltaCodec, raw: string): LineAction {
    match Payload(StripCr(raw))
    case None => Skip
    case Some(json) =>
      if json == "[DONE]" then Finish
      else match codec.decode(json)
        case None => PushBack(StripCr(raw))
        case Some(content) => if Truthy(content) then Append(content.value) else Skip
  }

  /** Classifying lines with `codec` as the page does. */
  function LineReader(codec: DeltaCodec): string -> LineAction {
    line => Classify(codec, line)
  }

  /** A line the codec cannot parse, behind the `data: ` prefix, is put back as it is. */
  lemma UnparsableLinePutBack(codec: DeltaCodec, line: string)
    requires !EndsWith(line, "\r") && Payload(line).Some? && Payload(line).value != "[DONE]"
    requires codec.decode(Payload(line).value) == None
    ensures Classify(codec, line) == PushBack(line)
  {
  }

  /** Content that is empty or missing is skipped. */
  lemma EmptyContentSkipped(codec: DeltaCodec, line: string)
    requires Payload(StripCr(line)).Some? && Payload(StripCr(line)).value != "[DONE]"
    requires codec.decode(Payload(StripCr(line)).value) in {Some(None), Some(Some(""))}
    ensures Classify(codec, line) == Skip
  {
  }

  /** The reader's variables: `textBuffer`, `fullText` and `streamDone`. */
  datatype Reader = Reader(buffer: string, text: string, done: bool)

  /**
   * The inner loop, with `classify` telling what each line is: take complete lines off the
   * front of the buffer until none is left, the stream ends, or a payload fails to parse.
   */
  function Drain(classify: string -> LineAction, buffer: string, text: string): Reader
    decreases |buffer|
  {
    var k := FindChar(buffer, '\n');
    if k == |buffer| then Reader(buffer, text, false)
    else
      var rest := buffer[k + 1..];
      match classify(buffer[..k])
      case Skip => Drain(classify, rest, text)
      case Append(content) => Drain(classify, rest, text + content)
      case Finish => Reader(rest, text, true)
      case PushBack(line) => Reader(line + "\n" + rest, text, false)
  }

  /** The outer loop over the chunks the response body delivers, starting from `r`. */
  function Read(classify: string -> LineAction, chunks: seq<string>, r: Reader): Reader
    requires !r.done
  {
    if chunks == [] then r
    else
      var d := Drain(classify, r.buffer + chunks[0], r.text);
      if d.done then d else Read(classify, chunks[1..], d)
  }

  const Start := Reader("", "", false)

  /** `streamAnalysis`'s reading loops, over the already decoded chunks. */
  method StreamAnalysis(codec: DeltaCodec, chunks: seq<string>) returns (fullText: string, streamDone: bool)
    ensures fullText == Read(LineReader(codec), chunks, Start).text
    ensures streamDone == Read(LineReader(codec), chunks, Start).done
  {
    ghost var classify := LineReader(codec);
    var textBuffer := "";
    streamDone := false;
    fullText := "";
    var i := 0;
    while !streamDone
      invariant 0 <= i <= |chunks|
      invariant !streamDone ==>
        Read(classify, chunks[i..], Reader(textBuffer, fullText, false)) == Read(classify, chunks, Start)
      invariant streamDone ==> Read(classify, chunks, Start) == Reader(textBuffer, fullText, true)
      decreases |chunks| - i, if streamDone then 0 else 1
    {
      if i == |chunks| {
        break;
      }
      ghost var goal := Read(classify, chunks[i..], Reader(textBuffer, fullText, false));
      textBuffer := textBuffer + chunks[i];
      assert chunks[i..][1..] == chunks[i + 1..];
      ghost var drained := Drain(classify, textBuffer, fullText);
      assert goal == if drained.done then drained else Read(classify, chunks[i + 1..], drained);
      i := i + 1;
      var newlineIndex := FindChar(textBuffer, '\n');
      while newlineIndex < |textBuffer|
        invariant !streamDone
        invariant newlineIndex == FindChar(textBuffer, '\n')
        invariant Drain(classify, textBuffer, fullText) == drained
        decreases |textBuffer|
      {
        var line := textBuffer[..newlineIndex];
        textBuffer := textBuffer[newlineIndex + 1..];
        var action := Classify(codec, line);
        assert action == classify(line);
        if action.Finish? {
          streamDone := true;
          break;
        } else if action.PushBack? {
          textBuffer := action.line + "\n" + textBuffer;
          break;
        } else if action.Append? {
          fullText := fullText + action.content;
        }
        newlineIndex := FindChar(textBuffer, '\n');
      }
      assert Reader(textBuffer, fullText, streamDone) == drained;
    }
  }

  /** Text is only ever appended to: what was read stays a prefix. */
  lemma {:induction false} DrainExtends(classify: string -> LineAction, buffer: string, text: string)
    ensures text <= Drain(classify, buffer, text).text
    decreases |buffer|
  {
    var k := FindChar(buffer, '\n');
    if k < |buffer| {
      match classify(buffer[..k])
      case Skip => DrainExtends(classify, buffer[k + 1..], text);
      case Append(content) =>
        DrainExtends(classify, buffer[k + 1..], text + content);
      case Finish =>
      case PushBack(_) =>
    }
  }

  lemma {:induction false} ReadExtends(classify: string -> LineAction, chunks: seq<string>, r: Reader)
    requires !r.done
    ensures r.text <= Read(classify, chunks, r).text
  {
    if chunks != [] {
      DrainExtends(classify, r.buffer + chunks[0], r.text);
      var d := Drain(classify, r.buffer + chunks[0], r.text);
      if !d.done {
        ReadExtends(classify, chunks[1..], d);
      }
    }
  }

  /** A buffer without a complete line is left for the next chunk. */
  lemma IncompleteTailKept(classify: string -> LineAction, buffer: string, text: string)
    requires '\n' !in buffer
    ensures Drain(classify, buffer, text) == Reader(buffer, text, false)
  {
  }

  /** The first line of `line + "\n" + rest` is `line`, and `rest` follows it. */
  lemma FrontLine(line: string, rest: string)
    requires '\n' !in line
    ensures var buffer := line + "\n" + rest;
      FindChar(buffer, '\n') == |line| && buffer[..|line|] == line && buffer[|line| + 1..] == rest
  {
    var buffer := line + "\n" + rest;
    assert buffer == line + ['\n'] + rest;
    FindCharAt(line, '\n', rest);
    assert buffer[..|line|] == line;
    assert buffer[|line| + 1..] == rest;
  }

  lemma Associative<T>(x: seq<T>, y: seq<T>, z: seq<T>)
    ensures x + y + z == x + (y + z)
  {
  }

  lemma DrainSkip(classify: string -> LineAction, buffer: string, line: string, rest: string, text: string)
    requires buffer == line + "\n" + rest && '\n' !in line && classify(line) == Skip
    ensures Drain(classify, buffer, text) == Drain(classify, rest, text)
  {
    FrontLine(line, rest);
  }

  lemma DrainAppend(classify: string -> LineAction, buffer: string, line: string, rest: string, text: string,
                    content: string)
    requires buffer == line + "\n" + rest && '\n' !in line && classify(line) == Append(content)
    ensures Drain(classify, buffer, text) == Drain(classify, rest, text + content)
  {
    FrontLine(line, rest);
  }

  lemma DrainFinish(classify: string -> LineAction, buffer: string, line: string, rest: string, text: string)
    requires buffer == line + "\n" + rest && '\n' !in line && classify(line) == Finish
    ensures Drain(classify, buffer, text) == Reader(rest, text, true)
  {
    FrontLine(line, rest);
  }

  lemma DrainPushBack(classify: string -> LineAction, buffer: string, line: string, rest: string, text: string)
    requires buffer == line + "\n" + rest && '\n' !in line && classify(line) == PushBack(line)
    ensures Drain(classify, buffer, text) == Reader(buffer, text, false)
  {
    FrontLine(line, rest);
  }

  // ---------------------------------------------------------------------------------------------
  // Reading the canned stream back

  /** The lines of `lines`, each with its newline restored, one after the other. */
  function Terminated(lines: seq<string>): string {
    if lines == [] then "" else lines[0] + "\n" + Terminated(lines[1..])
  }

  /** Splitting at `\n` and putting every newline back gives the text with one more newline. */
  lemma {:induction false} SplitTerminated(text: string)
    ensures Terminated(Split(text, '\n')) == text + "\n"
    decreases |text|
  {
    var k := FindChar(text, '\n');
    if k == |text| {
      assert Split(text, '\n') == [text];
    } else {
      var x, y := text[..k], text[k + 1..];
      assert text == x + ['\n'] + y;
      SplitHead(x, '\n', y);
      TerminatedCons(x, Split(y, '\n'));
      SplitTerminated(y);
    }
  }

  lemma TerminatedCons(x: string, lines: seq<string>)
    ensures Terminated([x] + lines) == x + "\n" + Terminated(lines)
  {
    assert ([x] + lines)[1..] == lines;
  }

  /** Frames, concatenated as one stretch of the body. */
  function Concat(frames: seq<string>): string {
    if frames == [] then "" else frames[0] + Concat(frames[1..])
  }

  lemma {:induction false} ConcatAppend(a: seq<string>, b: seq<string>)
    ensures Concat(a + b) == Concat(a) + Concat(b)
  {
    if a == [] {
      assert a + b == b;
    } else {
      assert (a + b)[0] == a[0];
      assert (a + b)[1..] == a[1..] + b;
      calc {
        Concat(a + b);
        (a + b)[0] + Concat((a + b)[1..]);
        a[0] + Concat(a[1..] + b);
        { ConcatAppend(a[1..], b); }
        a[0] + (Concat(a[1..]) + Concat(b));
        { Associative(a[0], Concat(a[1..]), Concat(b)); }
        Concat(a) + Concat(b);
      }
    }
  }

  function LineFrames(codec: DeltaCodec, lines: seq<string>): (r: seq<string>)
    ensures |r| == |lines|
  {
    seq(|lines|, i requires 0 <= i < |lines| => Frame(codec, lines[i] + "\n"))
  }

  lemma MockFramesSplit(codec: DeltaCodec, text: string)
    ensures MockFrames(codec, text) == LineFrames(codec, Split(text, '\n')) + [DoneFrame]
  {
  }

  /** A `data: ` line whose payload has no space or carriage return at its ends. */
  lemma DataLine(payload: string)
    requires payload != [] && !IsSpace(payload[0]) && !IsSpace(payload[|payload| - 1])
    requires payload[|payload| - 1] != '\r'
    ensures StripCr("data: " + payload) == "data: " + payload
    ensures Payload("data: " + payload) == Some(payload)
  {
    var line := "data: " + payload;
    assert line[|line| - 1] == payload[|payload| - 1];
    assert line[..6] == "data: ";
    assert line[6..] == payload;
    TrimIdentity(payload);
  }

  /** The data line of a frame carrying non-empty text appends that text. */
  lemma FrameLineAppends(codec: DeltaCodec, content: string)
    requires Sound(codec)
    requires content != ""
    ensures Classify(codec, "data: " + codec.encode(content)) == Append(content)
  {
    var e := codec.encode(content);
    assert IsObjectText(e);
    DataLine(e);
    assert e != "[DONE]" by {
      assert e[0] == '{';
    }
  }

  lemma DoneLineFinishes(codec: DeltaCodec)
    ensures Classify(codec, "data: " + "[DONE]") == Finish
  {
    DataLine("[DONE]");
  }

  /** What reading the canned stream needs of the line classifier. */
  ghost predicate ReadsFrames(classify: string -> LineAction, codec: DeltaCodec) {
    && classify("") == Skip
    && classify("data: " + "[DONE]") == Finish
    && forall c :: c != "" ==>
         '\n' !in "data: " + codec.encode(c) && classify("data: " + codec.encode(c)) == Append(c)
  }

  /** The page's classifier, over a sound codec, reads the canned frames. */
  lemma PageReadsFrames(codec: DeltaCodec)
    requires Sound(codec)
    ensures ReadsFrames(LineReader(codec), codec)
  {
    var classify := LineReader(codec);
    BlankLineSkipped(codec);
    DoneLineFinishes(codec);
    forall c | c != ""
      ensures '\n' !in "data: " + codec.encode(c) && classify("data: " + codec.encode(c)) == Append(c)
    {
      FrameLineUnbroken(codec, c);
      FrameLineAppends(codec, c);
    }
  }

  lemma BlankLineSkipped(codec: DeltaCodec)
    ensures Classify(codec, "") == Skip
  {
  }

  lemma FrameLineUnbroken(codec: DeltaCodec, content: string)
    requires Sound(codec)
    ensures '\n' !in "data: " + codec.encode(content)
  {
    assert IsObjectText(codec.encode(content));
  }

  /** A frame is its data line, a line break, and the empty line that closes it. */
  lemma FrameShape(codec: DeltaCodec, content: string, rest: string)
    ensures Frame(codec, content) + rest == ("data: " + codec.encode(content)) + "\n" + ("\n" + rest)
  {
    var line := "data: " + codec.encode(content);
    assert Frame(codec, content) == line + "\n\n";
    assert "\n\n" == "\n" + "\n";
    Associative(line, "\n", "\n");
    Associative(line + "\n", "\n", rest);
  }

  /** One frame carrying non-empty text appends exactly that text and leaves the rest of the buffer. */
  lemma FrameDrained(classify: string -> LineAction, codec: DeltaCodec, content: string, rest: string, text: string)
    requires ReadsFrames(classify, codec)
    requires content != ""
    ensures Drain(classify, Frame(codec, content) + rest, text) == Drain(classify, rest, text + content)
  {
    FrameShape(codec, content, rest);
    LineThenBlank(classify, Frame(codec, content) + rest, "data: " + codec.encode(content), rest, text, content);
  }

  /** A line that appends, then an empty line. */
  lemma LineThenBlank(classify: string -> LineAction, buffer: string, line: string, rest: string, text: string,
                      content: string)
    requires buffer == line + "\n" + ("\n" + rest) && '\n' !in line
    requires classify(line) == Append(content) && classify("") == Skip
    ensures Drain(classify, buffer, text) == Drain(classify, rest, text + content)
  {
    DrainAppend(classify, buffer, line, "\n" + rest, text, content);
    DrainBlank(classify, rest, text + content);
  }

  /** An empty line at the front of the buffer is skipped. */
  lemma DrainBlank(classify: string -> LineAction, rest: string, text: string)
    requires classify("") == Skip
    ensures Drain(classify, "\n" + rest, text) == Drain(classify, rest, text)
  {
    assert "\n" + rest == "" + "\n" + rest;
    DrainSkip(classify, "\n" + rest, "", rest, text);
  }

  /** The closing frame ends the stream, whatever follows it. */
  lemma DoneFrameFinishes(classify: string -> LineAction, codec: DeltaCodec, rest: string, text: string)
    requires ReadsFrames(classify, codec)
    ensures Drain(classify, DoneFrame + rest, text) == Reader("\n" + rest, text, true)
  {
    var line := "data: " + "[DONE]";
    assert DoneFrame + rest == line + "\n" + ("\n" + rest);
    DrainFinish(classify, DoneFrame + rest, line, "\n" + rest, text);
  }

  /** A stretch of line frames adds the lines, newline-terminated, in order. */
  lemma {:induction false} LineFramesDrained(classify: string -> LineAction, codec: DeltaCodec,
                                             lines: seq<string>, rest: string, text: string)
    requires ReadsFrames(classify, codec)
    ensures Drain(classify, Concat(LineFrames(codec, lines)) + rest, text)
         == Drain(classify, rest, text + Terminated(lines))
  {
    if lines == [] {
      assert LineFrames(codec, lines) == [];
      assert "" + rest == rest;
      assert text + "" == text;
    } else {
      var c := lines[0] + "\n";
      var tail := Concat(LineFrames(codec, lines[1..])) + rest;
      FramesFront(codec, lines, rest);
      FrameDrained(classify, codec, c, tail, text);
      LineFramesDrained(classify, codec, lines[1..], rest, text + c);
      TerminatedFront(text, lines);
    }
  }

  /** The frames of a non-empty run of lines: the first line's frame, then the others'. */
  lemma FramesFront(codec: DeltaCodec, lines: seq<string>, rest: string)
    requires lines != []
    ensures Concat(LineFrames(codec, lines)) + rest
         == Frame(codec, lines[0] + "\n") + (Concat(LineFrames(codec, lines[1..])) + rest)
  {
    var frames := LineFrames(codec, lines);
    assert frames[1..] == LineFrames(codec, lines[1..]);
    assert Concat(frames) == frames[0] + Concat(frames[1..]);
    Associative(frames[0], Concat(frames[1..]), rest);
  }

  /** The first line, newline-terminated, then the others. */
  lemma TerminatedFront(text: string, lines: seq<string>)
    requires lines != []
    ensures text + (lines[0] + "\n") + Terminated(lines[1..]) == text + Terminated(lines)
  {
  }

  /** The whole canned stream arriving as one chunk reads back as the canned text plus a newline. */
  lemma MockStreamOneChunk(codec: DeltaCodec, text: string)
    requires Sound(codec)
    ensures Read(LineReader(codec), [Concat(MockFrames(codec, text))], Start) == Reader("\n", text + "\n", true)
  {
    var classify := LineReader(codec);
    PageReadsFrames(codec);
    var lines := Split(text, '\n');
    var body := Concat(MockFrames(codec, text));
    MockFramesSplit(codec, text);
    ConcatAppend(LineFrames(codec, lines), [DoneFrame]);
    assert Concat([DoneFrame]) == DoneFrame;
    assert "" + body == Concat(LineFrames(codec, lines)) + DoneFrame;
    LineFramesDrained(classify, codec, lines, DoneFrame, "");
    assert DoneFrame == DoneFrame + "";
    DoneFrameFinishes(classify, codec, "", Terminated(lines));
    SplitTerminated(text);
    assert "" + Terminated(lines) == text + "\n";
  }

  /** The canned stream delivered frame by frame, as the route enqueues it, reads back the same way. */
  lemma MockStreamFrameByFrame(codec: DeltaCodec, text: string)
    requires Sound(codec)
    ensures Read(LineReader(codec), MockFrames(codec, text), Start) == Reader("\n", text + "\n", true)
  {
    PageReadsFrames(codec);
    MockFramesSplit(codec, text);
    FramesRead(LineReader(codec), codec, Split(text, '\n'), "");
    SplitTerminated(text);
  }

  lemma {:induction false} FramesRead(classify: string -> LineAction, codec: DeltaCodec,
                                      lines: seq<string>, text: string)
    requires ReadsFrames(classify, codec)
    ensures Read(classify, LineFrames(codec, lines) + [DoneFrame], Reader("", text, false))
         == Reader("\n", text + Terminated(lines), true)
  {
    var chunks := LineFrames(codec, lines) + [DoneFrame];
    if lines == [] {
      assert chunks == [DoneFrame];
      DoneChunkRead(classify, codec, text);
    } else {
      var c := lines[0] + "\n";
      assert chunks[0] == Frame(codec, c);
      assert chunks[1..] == LineFrames(codec, lines[1..]) + [DoneFrame];
      FrameChunkRead(classify, codec, c, chunks, text);
      FramesRead(classify, codec, lines[1..], text + c);
      assert text + c + Terminated(lines[1..]) == text + Terminated(lines);
    }
  }

  lemma DoneChunkRead(classify: string -> LineAction, codec: DeltaCodec, text: string)
    requires ReadsFrames(classify, codec)
    ensures Read(classify, [DoneFrame], Reader("", text, false)) == Reader("\n", text, true)
  {
    assert "" + DoneFrame == DoneFrame + "";
    DoneFrameFinishes(classify, codec, "", text);
  }

  /** A chunk holding one frame with non-empty text appends the text and empties the buffer. */
  lemma FrameChunkRead(classify: string -> LineAction, codec: DeltaCodec, content: string,
                       chunks: seq<string>, text: string)
    requires ReadsFrames(classify, codec)
    requires content != "" && chunks != [] && chunks[0] == Frame(codec, content)
    ensures Read(classify, chunks, Reader("", text, false)) == Read(classify, chunks[1..], Reader("", text + content, false))
  {
    assert "" + chunks[0] == Frame(codec, content) + "";
    FrameDrained(classify, codec, content, "", text);
    IncompleteTailKept(classify, "", text + content);
  }

  /**
   * A line put back because its payload does not parse is met again first every time, so once
   * it arrives the reader appends nothing more and never sees `[DONE]`.
   */
  lemma {:induction false} PutBackLineBlocks(classify: string -> LineAction, line: string, rest: string,
                                             text: string, chunks: seq<string>)
    requires '\n' !in line && classify(line) == PushBack(line)
    ensures Read(classify, chunks, Reader(line + "\n" + rest, text, false))
         == Reader(line + "\n" + rest + Concat(chunks), text, false)
    decreases |chunks|
  {
    if chunks != [] {
      var head := line + "\n";
      Associative(head, rest, chunks[0]);
      DrainPushBack(classify, head + rest + chunks[0], line, rest + chunks[0], text);
      PutBackLineBlocks(classify, line, rest + chunks[0], text, chunks[1..]);
      assert Concat(chunks) == chunks[0] + Concat(chunks[1..]);
      Associative(head, rest + chunks[0], Concat(chunks[1..]));
      Associative(rest, chunks[0], Concat(chunks[1..]));
      Associative(head, rest, Concat(chunks));
    }
  }

  // ---------------------------------------------------------------------------------------------
  // The checklist

  /** `toggleSymptom`: checking appends the id; unchecking removes every copy of it. */
  function ToggleSymptom(selected: seq<string>, id: string, checked: bool): (r: seq<string>)
    ensures checked ==> r == selected + [id]
    ensures !checked ==> r == Without(selected, id)
  {
    if checked then selected + [id] else Without(selected, id)
  }

  /** `selected.filter(s => s !== id)`. */
  function Without(selected: seq<string>, id: string): (r: seq<string>)
    ensures id !in r
    ensures forall x :: x != id ==> multiset(r)[x] == multiset(selected)[x]
    ensures |r| <= |selected|
  {
    if selected == [] then []
    else
      assert selected == [selected[0]] + selected[1..];
      if selected[0] == id then Without(selected[1..], id)
    else [selected[0]] + Without(selected[1..], id)
  }

  /** Filtering keeps the surviving ids in their original order: it distributes over `+`. */
  lemma {:induction false} WithoutAppend(a: seq<string>, b: seq<string>, id: string)
    ensures Without(a + b, id) == Without(a, id) + Without(b, id)
  {
    if a == [] {
      assert a + b == b;
    } else {
      assert (a + b)[0] == a[0];
      assert (a + b)[1..] == a[1..] + b;
      WithoutAppend(a[1..], b, id);
      if a[0] != id {
        assert [a[0]] + Without(a[1..], id) + Without(b, id) == [a[0]] + (Without(a[1..], id) + Without(b, id));
      }
    }
  }

  /** A list without the id is left as it is. */
  lemma {:induction false} WithoutAbsent(selected: seq<string>, id: string)
    requires id !in selected
    ensures Without(selected, id) == selected
  {
    if selected != [] {
      WithoutAbsent(selected[1..], id);
    }
  }

  /** Checking and then unchecking an id is the same as unchecking it straight away. */
  lemma CheckThenUncheck(selected: seq<string>, id: string)
    ensures ToggleSymptom(ToggleSymptom(selected, id, true), id, false) == ToggleSymptom(selected, id, false)
  {
    WithoutAppend(selected, [id], id);
    assert Without([id], id) == [];
  }

  datatype Symptom = Symptom(id: string, labelText: string)  // `label` in constants.ts; the word is reserved in Dafny

  /** The checklist the page offers (`SYMPTOMS`). */
  const Symptoms: seq<Symptom> := [
    Symptom("faltan", "Me faltan dientes"),
    Symptom("chuecos", "Dientes chuecos"),
    Symptom("desgastados", "Dientes desgastados"),
    Symptom("manchados", "Dientes manchados"),
    Symptom("movilidad", "Dientes con movilidad"),
    Symptom("sangrado", "Sangrado de encías"),
    Symptom("retraida", "Encía retraída"),
    Symptom("caries", "Caries"),
    Symptom("fractura", "Fractura dental"),
    Symptom("dolor", "Dolor")
  ]

  /** `table.find(s => s.id === id)`. */
  function FindSymptom(table: seq<Symptom>, id: string): (r: Option<nat>)
    ensures r.Some? ==> r.value < |table| && table[r.value].id == id
    ensures r.Some? ==> forall j :: 0 <= j < r.value ==> table[j].id != id
    ensures r == None ==> forall j :: 0 <= j < |table| ==> table[j].id != id
  {
    if table == [] then None
    else if table[0].id == id then Some(0)
    else match FindSymptom(table[1..], id)
      case None => None
      case Some(j) => Some(j + 1)
  }

  /** `find(...)?.label || id`: the entry's label, or the id itself when there is none. */
  function Label(table: seq<Symptom>, id: string): (r: string)
    ensures FindSymptom(table, id) == None ==> r == id
    ensures FindSymptom(table, id).Some? ==> r == (if table[FindSymptom(table, id).value].labelText != "" then table[FindSymptom(table, id).value].labelText else id)
  {
    match FindSymptom(table, id)
    case None => id
    case Some(j) => if table[j].labelText != "" then table[j].labelText else id
  }

  /** An id with no entry in the checklist is sent as its own label. */
  lemma UnknownIdIsItsOwnLabel(table: seq<Symptom>, id: string)
    requires forall j :: 0 <= j < |table| ==> table[j].id != id
    ensures Label(table, id) == id
  {
  }

  /** With distinct ids, every entry's id is sent as that entry's (non-empty) label. */
  lemma KnownIdLabelled(table: seq<Symptom>, i: nat)
    requires i < |table| && table[i].labelText != ""
    requires forall j, k :: 0 <= j < k < |table| ==> table[j].id != table[k].id
    ensures Label(table, table[i].id) == table[i].labelText
  {
    var f := FindSymptom(table, table[i].id);
    assert f.Some?;
    assert f.value == i;
  }

  /** What `generateAnalysis` sends; `None` when nothing is selected and no request is made. */
  function AnalysisRequest(selected: seq<string>): (r: Option<seq<string>>)
    ensures r == None <==> selected == []
    ensures r.Some? ==> |r.value| == |selected|
    ensures r.Some? ==> forall i :: 0 <= i < |selected| ==> r.value[i] == Label(Symptoms, selected[i])
  {
    if selected == [] then None
    else Some(seq(|selected|, i requires 0 <= i < |selected| => Label(Symptoms, selected[i])))
  }

  const NothingSelected := "Por favor selecciona al menos una opción"
  const AnalysisFailed := "Error al obtener diagnóstico"

  /**
   * What `fetch("/api/diagnosis")` gave the page: a response that is not ok or has no body,
   * with the `error` field of its JSON (`None` when the body is not JSON or has no such
   * field), or the stream, as the chunks the reader delivers.
   */
  datatype AnalysisReply = Failed(error: Option<string>) | Streamed(chunks: seq<string>)

  /** `errorData.error || "Error al obtener diagnóstico"`, the message of the error the page throws and shows. */
  function FailureWarning(error: Option<string>): (w: string)
    ensures Truthy(error) ==> w == error.value
    ensures !Truthy(error) ==> w == AnalysisFailed
    ensures w != ""
  {
    OrElse(error, Some(AnalysisFailed)).value
  }

  /** A route error with a message reaches the page as that message; one without, as the page's own. */
  lemma RouteErrorShown(r: Response)
    requires r.ErrorJson?
    ensures FailureWarning(Some(r.error)) == if r.error != "" then r.error else AnalysisFailed
  {
  }

  // ---------------------------------------------------------------------------------------------
  // The page state

  /** The page's React state, updated in place by its handlers. */
  class Page {
    var step: int
    var patientType: Option<string>
    var selected: seq<string>
    var analysis: string

    predicate Valid()
      reads this
    {
      1 <= step <= 3
    }

    constructor ()
      ensures Valid() && step == 1 && patientType == None && selected == [] && analysis == ""
    {
      step := 1;
      patientType := None;
      selected := [];
      analysis := "";
    }

    method ResetToHome()
      modifies this
      ensures Valid() && step == 1 && patientType == None && selected == [] && analysis == ""
    {
      step := 1;
      patientType := None;
      selected := [];
      analysis := "";
    }

    method SelectPatientType(t: Option<string>)
      modifies this
      ensures Valid() && step == 2 && patientType == t
      ensures selected == old(selected) && analysis == old(analysis)
    {
      patientType := t;
      step := 2;
    }

    method Toggle(id: string, checked: bool)
      requires Valid()
      modifies this
      ensures Valid() && selected == ToggleSymptom(old(selected), id, checked)
      ensures step == old(step) && patientType == old(patientType) && analysis == old(analysis)
    {
      selected := ToggleSymptom(selected, id, checked);
    }

    /**
     * `generateAnalysis` with the response already delivered as `reply`: with nothing selected
     * it only warns and posts nothing; otherwise it posts the selected labels with the patient
     * type, clears the analysis and, on a failed response, stays on this step and shows the
     * error; on a stream it moves to step 3 and shows what was read.
     */
    method GenerateAnalysis(codec: DeltaCodec, reply: AnalysisReply) returns (warning: Option<string>, posted: Option<DiagnosisBody>)
      requires Valid()
      modifies this
      ensures Valid()
      ensures posted.None? <==> old(selected) == []
      ensures posted.Some? ==>
        posted.value == DiagnosisBody(Items(AnalysisRequest(old(selected)).value), old(patientType))
      ensures posted.Some? ==> ValidSymptoms(posted.value.symptoms) == Some(AnalysisRequest(old(selected)).value)
      ensures old(selected) == [] ==>
        warning == Some(NothingSelected) && step == old(step) && analysis == old(analysis)
      ensures old(selected) != [] && reply.Failed? ==>
        warning == Some(FailureWarning(reply.error)) && step == old(step) && analysis == ""
      ensures old(selected) != [] && reply.Streamed? ==>
        warning == None && step == 3 && analysis == Read(LineReader(codec), reply.chunks, Start).text
      ensures selected == old(selected) && patientType == old(patientType)
    {
      var labels := AnalysisRequest(selected);
      if labels == None {
        return Some(NothingSelected), None;
      }
      posted := Some(DiagnosisBody(Items(labels.value), patientType));
      analysis := "";
      match reply
      case Failed(error) =>
        warning := Some(FailureWarning(error));
      case Streamed(chunks) =>
        step := 3;
        var fullText, _ := StreamAnalysis(codec, chunks);
        analysis := fullText;
        warning := None;
    }
  }
}
