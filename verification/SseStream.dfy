/** The incremental parser of a turn's event stream, a subset of section 9.2 of the HTML standard. */
module SseStream {
  import opened Wrappers
  import opened Json
  import KeyNormaliser
  import opened Text

  // ---- Splitting -----------------------------------------------------------------------------

  predicate BlankAt(s: string, k: nat) {
    k + 1 < |s| && s[k] == '\n' && s[k + 1] == '\n'
  }

  /** Position of the first blank line, or the length when there is none. */
  function FirstBlank(s: string): (i: nat)
    ensures i <= |s|
    ensures i < |s| ==> BlankAt(s, i)
    ensures forall k: nat | k < i :: !BlankAt(s, k)
  {
    if |s| < 2 then |s|
    else if BlankAt(s, 0) then 0
    else
      var i := FirstBlank(s[1..]);
      assert forall k: nat | 0 < k < 1 + i :: BlankAt(s, k) ==> BlankAt(s[1..], k - 1);
      1 + i
  }

  /** `s.split('\n\n')`. */
  function SplitBlank(s: string): (parts: seq<string>)
    ensures parts != []
  {
    var i := FirstBlank(s);
    if i == |s| then [s] else [s[..i]] + SplitBlank(s[i + 2..])
  }

  function FirstNewline(s: string): (i: nat)
    ensures i <= |s|
    ensures i < |s| ==> s[i] == '\n'
    ensures forall k | 0 <= k < i :: s[k] != '\n'
  {
    if s == "" then 0 else if s[0] == '\n' then 0 else 1 + FirstNewline(s[1..])
  }

  /** `s.split('\n')`. */
  function SplitLines(s: string): (lines: seq<string>)
    ensures lines != []
  {
    var i := FirstNewline(s);
    if i == |s| then [s] else [s[..i]] + SplitLines(s[i + 1..])
  }

  function Init(parts: seq<string>): seq<string>
    requires parts != []
  {
    parts[..|parts| - 1]
  }

  function Last(parts: seq<string>): string
    requires parts != []
  {
    parts[|parts| - 1]
  }

  /** A blank line found stays where it is when text is appended. */
  lemma FirstBlankStays(x: string, y: string)
    requires FirstBlank(x) < |x|
    ensures FirstBlank(x + y) == FirstBlank(x)
  {
    var i := FirstBlank(x);
    assert BlankAt(x + y, i);
    assert forall k: nat | k < i :: BlankAt(x + y, k) ==> BlankAt(x, k);
  }

  lemma ConsParts(head: string, rest: seq<string>)
    requires rest != []
    ensures Init([head] + rest) == [head] + Init(rest) && Last([head] + rest) == Last(rest)
  {
  }

  lemma {:induction false} SplitCons(s: string, i: nat, head: string, rest: string)
    requires FirstBlank(s) == i < |s| && head == s[..i] && rest == s[i + 2..]
    ensures SplitBlank(s) == [head] + SplitBlank(rest)
  {
  }

  lemma {:induction false} SplitLonger(x: string, y: string, i: nat, head: string, rest: string)
    requires FirstBlank(x) == i < |x| && head == x[..i] && rest == x[i + 2..]
    ensures SplitBlank(x + y) == [head] + SplitBlank(rest + y)
  {
    FirstBlankStays(x, y);
    assert (x + y)[..i] == head && (x + y)[i + 2..] == rest + y;
  }

  /** Splitting may stop at any point and go on from the last piece. */
  lemma {:induction false} SplitResumes(x: string, y: string)
    ensures SplitBlank(x + y) == Init(SplitBlank(x)) + SplitBlank(Last(SplitBlank(x)) + y)
    decreases |x|
  {
    var i := FirstBlank(x);
    if i == |x| {
      var whole := SplitBlank(x);
      assert whole == [x] && Init(whole) == [] && Last(whole) == x;
    } else {
      var head, rest := x[..i], x[i + 2..];
      SplitCons(x, i, head, rest);
      SplitLonger(x, y, i, head, rest);
      SplitResumes(rest, y);
      ConsParts(head, SplitBlank(rest));
    }
  }

  // ---- Chunks --------------------------------------------------------------------------------

  function Flatten(chunks: seq<string>): string {
    if chunks == [] then "" else Flatten(chunks[..|chunks| - 1]) + chunks[|chunks| - 1]
  }

  /** The blocks handled so far and the text kept for the next chunk. */
  datatype Progress = Progress(blocks: seq<string>, buffer: string)

  /** What the buffer, split and pop of the loop make of the chunks. */
  function Delivered(chunks: seq<string>): Progress {
    if chunks == [] then Progress([], "")
    else
      var before := Delivered(chunks[..|chunks| - 1]);
      var parts := SplitBlank(before.buffer + chunks[|chunks| - 1]);
      Progress(before.blocks + Init(parts), Last(parts))
  }

  /** In any chunking the blocks handled are all but the last piece of the whole text, and the last
      piece is what is never delivered. */
  lemma {:induction false} DeliveredIsSplit(chunks: seq<string>)
    ensures Delivered(chunks).blocks == Init(SplitBlank(Flatten(chunks)))
    ensures Delivered(chunks).buffer == Last(SplitBlank(Flatten(chunks)))
  {
    if chunks == [] {
      assert SplitBlank("") == [""];
    } else {
      var front, last := chunks[..|chunks| - 1], chunks[|chunks| - 1];
      DeliveredIsSplit(front);
      SplitResumes(Flatten(front), last);
    }
  }

  // ---- One block -------------------------------------------------------------------------------

  /** The last `event: ` line and the last `data: ` line win. */
  function ParseLines(lines: seq<string>): (string, string) {
    if lines == [] then ("", "")
    else
      var (eventType, data) := ParseLines(lines[..|lines| - 1]);
      var line := lines[|lines| - 1];
      if StartsWith(line, "event: ") then (line[7..], data)
      else if StartsWith(line, "data: ") then (eventType, line[6..])
      else (eventType, data)
  }

  /** A block yields an event when both its type and its data are non-empty. */
  function EventOf(block: string): Option<(string, string)> {
    var (eventType, data) := ParseLines(SplitLines(Trim(block, ScriptSpace)));
    if eventType == "" || data == "" then None else Some((eventType, data))
  }

  datatype ErrorText = Said(value: Json) | ServerErrorText | StreamErrorText | NoResultText

  datatype StreamError = StreamError(notFound: bool, text: ErrorText)

  /** What the stream has done so far: stage callbacks, the latest result, the error thrown. */
  datatype Outcome = Outcome(stages: seq<Option<Json>>, result: Option<Json>, error: Option<StreamError>)

  const NOTHING := Outcome([], None, None)

  /** A property of a parsed value; None is undefined. */
  function Field(value: Json, key: string): Option<Json> {
    if value.Obj? then KeyNormaliser.Lookup(value.entries, key) else None
  }

  function Given(value: Option<Json>): bool { value.Some? && value.value != Null }

  function ErrorOf(parsed: Option<Json>): StreamError {
    if !Given(parsed) then StreamError(false, StreamErrorText)
    else
      var err := parsed.value;
      StreamError(
        Field(err, "error") == Some(Str("session_not_found")),
        if Given(Field(err, "message")) then Said(Field(err, "message").value)
        else if Given(Field(err, "detail")) then Said(Field(err, "detail").value)
        else ServerErrorText)
  }

  /** One event. `parse` is `JSON.parse`, None if it throws. */
  function Dispatch(parse: string -> Option<Json>, st: Outcome, eventType: string, data: string): Outcome {
    var parsed := parse(data);
    if eventType == "status" then
      if Given(parsed) then st.(stages := st.stages + [Field(parsed.value, "stage")]) else st
    else if eventType == "result" then
      if parsed.Some? then st.(result := Some(KeyNormaliser.CamelTree(parsed.value))) else st
    else if eventType == "error" then st.(error := Some(ErrorOf(parsed)))
    else st
  }

  /** One block; after an error nothing more is handled. */
  function Handle(parse: string -> Option<Json>, st: Outcome, block: string): Outcome {
    if st.error.Some? then st
    else
      match EventOf(block)
      case None => st
      case Some((eventType, data)) => Dispatch(parse, st, eventType, data)
  }

  function HandleAll(parse: string -> Option<Json>, st: Outcome, blocks: seq<string>): Outcome {
    if blocks == [] then st
    else Handle(parse, HandleAll(parse, st, blocks[..|blocks| - 1]), blocks[|blocks| - 1])
  }

  function Truthy(value: Option<Json>): bool {
    value.Some? &&
    match value.value
    case Null => false
    case Bool(b) => b
    case Num(n) => n != 0.0
    case Str(t) => t != ""
    case Arr(_) => true
    case Obj(_) => true
  }

  /** At the end of the stream a missing or falsy result is an error too. */
  function Finish(st: Outcome): Outcome {
    if st.error.Some? || Truthy(st.result) then st
    else st.(error := Some(StreamError(false, NoResultText)))
  }

  lemma HandleSnoc(parse: string -> Option<Json>, st: Outcome, all: seq<string>, front: seq<string>, last: string)
    requires all == front + [last]
    ensures HandleAll(parse, st, all) == Handle(parse, HandleAll(parse, st, front), last)
  {
    assert all[..|all| - 1] == front;
  }

  lemma {:induction false} HandleConcat(parse: string -> Option<Json>, st: Outcome, a: seq<string>, b: seq<string>)
    ensures HandleAll(parse, st, a + b) == HandleAll(parse, HandleAll(parse, st, a), b)
    decreases |b|
  {
    if b == [] {
      assert a + b == a;
    } else {
      var front, last, middle := b[..|b| - 1], b[|b| - 1], HandleAll(parse, st, a);
      HandleConcat(parse, st, a, front);
      HandleSnoc(parse, st, a + b, a + front, last);
      HandleSnoc(parse, middle, b, front, last);
    }
  }

  lemma {:induction false} ErrorIsFinal(parse: string -> Option<Json>, st: Outcome, blocks: seq<string>)
    requires st.error.Some?
    ensures HandleAll(parse, st, blocks) == st
    decreases |blocks|
  {
    if blocks == [] {
    } else {
      ErrorIsFinal(parse, st, blocks[..|blocks| - 1]);
    }
  }

  /** Blocks after an error do not change the outcome. */
  lemma ErrorAbsorbs(parse: string -> Option<Json>, st: Outcome, a: seq<string>, b: seq<string>)
    requires HandleAll(parse, st, a).error.Some?
    ensures HandleAll(parse, st, a + b) == HandleAll(parse, st, a)
  {
    HandleConcat(parse, st, a, b);
    ErrorIsFinal(parse, HandleAll(parse, st, a), b);
  }

  lemma AbsorbRest(parse: string -> Option<Json>, st: Outcome, some: seq<string>, all: seq<string>)
    requires some <= all && HandleAll(parse, st, some).error.Some?
    ensures HandleAll(parse, st, all) == HandleAll(parse, st, some)
  {
    assert some + all[|some|..] == all;
    ErrorAbsorbs(parse, st, some, all[|some|..]);
  }

  /** The lines of one block, read in order. */
  method ReadLines(lines: seq<string>) returns (eventType: string, data: string)
    ensures (eventType, data) == ParseLines(lines)
  {
    eventType, data := "", "";
    for i := 0 to |lines|
      invariant (eventType, data) == ParseLines(lines[..i])
    {
      assert lines[..i + 1][..i] == lines[..i];
      if StartsWith(lines[i], "event: ") {
        eventType := lines[i][7..];
      } else if StartsWith(lines[i], "data: ") {
        data := lines[i][6..];
      }
    }
    assert lines[..|lines|] == lines;
  }

  /** The event of one block, if it has one. */
  method ReadBlock(block: string) returns (event: Option<(string, string)>)
    ensures event == EventOf(block)
  {
    var eventType, data := ReadLines(SplitLines(Trim(block, ScriptSpace)));
    event := if eventType == "" || data == "" then None else Some((eventType, data));
  }

  /** The blocks of one chunk, up to the first that throws. */
  method HandleParts(parse: string -> Option<Json>, before: Outcome, parts: seq<string>) returns (outcome: Outcome)
    requires before.error == None
    ensures outcome == HandleAll(parse, before, parts)
  {
    outcome := before;
    for j := 0 to |parts|
      invariant outcome.error == None
      invariant outcome == HandleAll(parse, before, parts[..j])
    {
      assert parts[..j + 1][..j] == parts[..j];
      outcome := Handle(parse, outcome, parts[j]);
      if outcome.error.Some? {
        AbsorbRest(parse, before, parts[..j + 1], parts);
        return;
      }
    }
    assert parts[..|parts|] == parts;
  }

  /** The streaming loop: the chunks are what the reader yields before it is done. */
  method PostTurnStreaming(parse: string -> Option<Json>, chunks: seq<string>) returns (outcome: Outcome)
    ensures outcome == Finish(HandleAll(parse, NOTHING, Delivered(chunks).blocks))
  {
    var buffer := "";
    outcome := NOTHING;
    for i := 0 to |chunks|
      invariant outcome.error == None
      invariant buffer == Delivered(chunks[..i]).buffer
      invariant outcome == HandleAll(parse, NOTHING, Delivered(chunks[..i]).blocks)
    {
      assert chunks[..i + 1][..i] == chunks[..i];
      ghost var blocks := Delivered(chunks[..i]).blocks;
      buffer := buffer + chunks[i];
      var parts := SplitBlank(buffer);
      buffer := Last(parts);
      outcome := HandleParts(parse, outcome, Init(parts));
      HandleConcat(parse, NOTHING, blocks, Init(parts));
      if outcome.error.Some? {
        StopEarly(parse, chunks, i + 1);
        return;
      }
    }
    assert chunks[..|chunks|] == chunks;
    outcome := Finish(outcome);
  }

  /** After an error the remaining chunks need not be read. */
  lemma StopEarly(parse: string -> Option<Json>, chunks: seq<string>, n: nat)
    requires n <= |chunks| && HandleAll(parse, NOTHING, Delivered(chunks[..n]).blocks).error.Some?
    ensures HandleAll(parse, NOTHING, Delivered(chunks).blocks) ==
        HandleAll(parse, NOTHING, Delivered(chunks[..n]).blocks)
  {
    DeliveredGrows(chunks, n);
    var some, all := Delivered(chunks[..n]).blocks, Delivered(chunks).blocks;
    AbsorbRest(parse, NOTHING, some, all);
  }

  lemma {:induction false} DeliveredGrows(chunks: seq<string>, n: nat)
    requires n <= |chunks|
    ensures Delivered(chunks[..n]).blocks <= Delivered(chunks).blocks
    decreases |chunks|
  {
    if n == |chunks| {
      assert chunks[..n] == chunks;
    } else {
      var front := chunks[..|chunks| - 1];
      DeliveredGrows(front, n);
      assert front[..n] == chunks[..n];
    }
  }

  /** Stage callbacks, the first error and the last result do not depend on the chunk boundaries. */
  lemma ChunkingIsIrrelevant(parse: string -> Option<Json>, a: seq<string>, b: seq<string>)
    requires Flatten(a) == Flatten(b)
    ensures Delivered(a) == Delivered(b)
    ensures Finish(HandleAll(parse, NOTHING, Delivered(a).blocks)) ==
        Finish(HandleAll(parse, NOTHING, Delivered(b).blocks))
  {
    DeliveredIsSplit(a);
    DeliveredIsSplit(b);
  }

  // ---- Frames as the server writes them ----------------------------------------------------------

  predicate OneLine(s: string) { forall i | 0 <= i < |s| :: s[i] != '\n' }

  /** What stands between two blank lines of the server's stream. */
  function Body(t: string, d: string): string { "event: " + t + "\n" + ("data: " + d) }

  function Frame(t: string, d: string): string { Body(t, d) + "\n\n" }

  lemma {:induction false} OneLineSplit(s: string)
    requires OneLine(s)
    ensures SplitLines(s) == [s]
  {
  }

  lemma {:induction false} TwoLines(a: string, b: string)
    requires OneLine(a) && OneLine(b)
    ensures SplitLines(a + "\n" + b) == [a, b]
  {
    var s := a + "\n" + b;
    assert s[|a|] == '\n' && forall k | 0 <= k < |a| :: s[k] == a[k];
    assert FirstNewline(s) == |a|;
    assert s[..|a|] == a && s[|a| + 1..] == b;
    OneLineSplit(b);
  }

  lemma {:induction false} PairOfLines(a: string, b: string)
    ensures ParseLines([a, b]) ==
      (if StartsWith(b, "event: ") then b[7..] else if StartsWith(a, "event: ") then a[7..] else "",
       if StartsWith(b, "data: ") && !StartsWith(b, "event: ") then b[6..]
       else if StartsWith(a, "data: ") && !StartsWith(a, "event: ") then a[6..] else "")
  {
    assert [a][..0] == [];
    assert ParseLines([a]) == (if StartsWith(a, "event: ") then (a[7..], "")
                               else if StartsWith(a, "data: ") then ("", a[6..]) else ("", ""));
    assert [a, b][..1] == [a];
  }

  lemma {:induction false} TrimRightOf(a: string, b: string)
    ensures TrimRight(a + b, ScriptSpace) ==
            if TrimRight(b, ScriptSpace) == "" then TrimRight(a, ScriptSpace) else a + TrimRight(b, ScriptSpace)
    decreases |b|
  {
    if b == "" {
      assert a + b == a;
    } else {
      var front := b[..|b| - 1];
      assert (a + b)[|a + b| - 1] == b[|b| - 1] && (a + b)[..|a + b| - 1] == a + front;
      TrimRightOf(a, front);
    }
  }

  /** The line that carries the data, or what trimming leaves of it. */
  function DataLine(d: string): string {
    if TrimRight(d, ScriptSpace) == "" then "data:" else "data: " + TrimRight(d, ScriptSpace)
  }

  lemma {:induction false} TrimDataLine(d: string)
    ensures TrimRight("data: " + d, ScriptSpace) == DataLine(d) && DataLine(d) != ""
  {
    TrimRightOf("data: ", d);
    if TrimRight(d, ScriptSpace) == "" {
      assert "data: " == "data:" + " ";
      assert " "[..0] == "" && TrimRight("", ScriptSpace) == "";
      TrimRightOf("data:", " ");
    }
  }

  lemma VisibleStart(s: string)
    requires s != "" && !ScriptSpace(s[0])
    ensures Trim(s, ScriptSpace) == TrimRight(s, ScriptSpace)
  {
  }

  /** The two lines of a body, whatever is left of its data after trimming. */
  lemma {:induction false} TrimmedBody(head: string, d: string)
    requires head != "" && head[0] == 'e'
    ensures Trim(head + ("data: " + d), ScriptSpace) == head + DataLine(d)
  {
    VisibleStart(head + ("data: " + d));
    TrimDataLine(d);
    TrimRightOf(head, "data: " + d);
  }

  /** What the parser reads from a body: the data without its trailing white space, or no event at
      all when the type is empty or nothing of the data is left. */
  lemma {:induction false} BodyParses(t: string, d: string)
    requires OneLine(t) && OneLine(d)
    ensures EventOf(Body(t, d)) ==
      if t == "" || TrimRight(d, ScriptSpace) == "" then None else Some((t, TrimRight(d, ScriptSpace)))
  {
    var head, line := "event: " + t, DataLine(d);
    assert Body(t, d) == head + "\n" + ("data: " + d);
    TrimmedBody(head + "\n", d);
    LinesOneLine(t, d);
    TwoLines(head, line);
    LinesParse(t, TrimRight(d, ScriptSpace));
  }

  lemma LinesOneLine(t: string, d: string)
    requires OneLine(t) && OneLine(d)
    ensures OneLine("event: " + t) && OneLine(DataLine(d))
  {
  }

  lemma {:induction false} LinesParse(t: string, kept: string)
    ensures ParseLines(["event: " + t, if kept == "" then "data:" else "data: " + kept]) == (t, kept)
  {
    var a, b := "event: " + t, if kept == "" then "data:" else "data: " + kept;
    PairOfLines(a, b);
    assert b[0] == 'd' && a[0] == 'e' && a[7..] == t;
    assert kept != "" ==> b[6..] == kept;
    assert kept == "" ==> |b| == 5;
  }

  /** A frame comes back as it was sent exactly when its type is not empty and its data is not empty
      and does not end in white space. */
  lemma FrameSurvives(t: string, d: string)
    requires OneLine(t) && OneLine(d)
    ensures EventOf(Body(t, d)) == Some((t, d)) <==> t != "" && d != "" && !ScriptSpace(d[|d| - 1])
  {
    BodyParses(t, d);
  }

  function Stream(frames: seq<(string, string)>): string {
    if frames == [] then "" else Frame(frames[0].0, frames[0].1) + Stream(frames[1..])
  }

  function Bodies(frames: seq<(string, string)>): seq<string> {
    if frames == [] then [] else [Body(frames[0].0, frames[0].1)] + Bodies(frames[1..])
  }

  /** The first blank line of a stream is the one that ends its first frame. */
  lemma {:induction false} FirstFrame(t: string, d: string, rest: string)
    requires OneLine(t) && OneLine(d)
    ensures SplitBlank(Frame(t, d) + rest) == [Body(t, d)] + SplitBlank(rest)
  {
    var body := Body(t, d);
    var s := Frame(t, d) + rest;
    assert s == body + "\n\n" + rest;
    assert BlankAt(s, |body|);
    forall k: nat | k < |body|
      ensures !BlankAt(s, k)
    {
      assert s[k] == body[k];
      if k == |t| + 7 { assert s[k + 1] == 'd'; } else { assert body[k] != '\n'; }
    }
    SplitCons(s, |body|, body, rest);
  }

  lemma {:induction false} StreamSplits(frames: seq<(string, string)>)
    requires forall i | 0 <= i < |frames| :: OneLine(frames[i].0) && OneLine(frames[i].1)
    ensures SplitBlank(Stream(frames)) == Bodies(frames) + [""]
  {
    if frames == [] {
      assert SplitBlank("") == [""];
    } else {
      StreamSplits(frames[1..]);
      FirstFrame(frames[0].0, frames[0].1, Stream(frames[1..]));
    }
  }

  /** The events of a list of blocks. */
  function EventsOf(blocks: seq<string>): seq<(string, string)> {
    if blocks == [] then []
    else
      match EventOf(blocks[0])
      case None => EventsOf(blocks[1..])
      case Some(e) => [e] + EventsOf(blocks[1..])
  }

  lemma FirstBlock(blocks: seq<string>)
    requires blocks != []
    ensures EventsOf(blocks) ==
        (if EventOf(blocks[0]) == None then [] else [EventOf(blocks[0]).value]) + EventsOf(blocks[1..])
  {
  }

  /** A type and data that a frame carries unchanged. */
  predicate Sendable(f: (string, string)) {
    OneLine(f.0) && OneLine(f.1) && f.0 != "" && f.1 != "" && !ScriptSpace(f.1[|f.1| - 1])
  }

  lemma SendableSurvives(f: (string, string))
    requires Sendable(f)
    ensures EventOf(Body(f.0, f.1)) == Some(f)
  {
    FrameSurvives(f.0, f.1);
  }

  lemma {:induction false} BodiesParse(frames: seq<(string, string)>)
    requires forall i | 0 <= i < |frames| :: Sendable(frames[i])
    ensures EventsOf(Bodies(frames)) == frames
  {
    if frames == [] {
    } else {
      var rest := frames[1..];
      BodiesParse(rest);
      SendableSurvives(frames[0]);
      assert Bodies(frames) == [Body(frames[0].0, frames[0].1)] + Bodies(rest);
      FirstBlock(Bodies(frames));
      assert Bodies(frames)[1..] == Bodies(rest);
      assert [frames[0]] + rest == frames;
    }
  }

  /** Frames written by the server come back one by one, in order, in any chunking of the stream. */
  lemma FramesRoundTrip(frames: seq<(string, string)>, chunks: seq<string>)
    requires forall i | 0 <= i < |frames| :: Sendable(frames[i])
    requires Flatten(chunks) == Stream(frames)
    ensures EventsOf(Delivered(chunks).blocks) == frames && Delivered(chunks).buffer == ""
  {
    DeliveredIsSplit(chunks);
    StreamSplits(frames);
    BodiesParse(frames);
    assert Init(Bodies(frames) + [""]) == Bodies(frames);
  }

  // ---- Blank lines with carriage returns ---------------------------------------------------------

  predicate HasBlank(s: string) {
    exists k: nat :: k < |s| && BlankAt(s, k)
  }

  lemma NothingSplit(s: string)
    ensures Init(SplitBlank(s)) == [] <==> !HasBlank(s)
    ensures !HasBlank(s) ==> SplitBlank(s) == [s]
  {
    var i := FirstBlank(s);
    if i < |s| { assert BlankAt(s, i); }
  }

  /** Blocks are delivered exactly when two line feeds meet somewhere in the text. */
  lemma DeliveredExactlyWithBlank(chunks: seq<string>)
    ensures Delivered(chunks).blocks != [] <==> HasBlank(Flatten(chunks))
    ensures !HasBlank(Flatten(chunks)) ==> Delivered(chunks).buffer == Flatten(chunks)
  {
    DeliveredIsSplit(chunks);
    NothingSplit(Flatten(chunks));
  }

  /** Every line ends in a carriage return and a line feed. */
  predicate CarriageReturned(s: string) {
    forall k | 0 <= k < |s| && s[k] == '\n' :: k > 0 && s[k - 1] == '\r'
  }

  function CarriageFrame(t: string, d: string): string {
    "event: " + t + "\r\n" + ("data: " + d) + "\r\n\r\n"
  }

  function CarriageStream(frames: seq<(string, string)>): string {
    if frames == [] then "" else CarriageFrame(frames[0].0, frames[0].1) + CarriageStream(frames[1..])
  }

  lemma CarriageConcat(a: string, b: string)
    requires CarriageReturned(a) && CarriageReturned(b)
    ensures CarriageReturned(a + b)
  {
    forall k | 0 <= k < |a + b| && (a + b)[k] == '\n' ensures k > 0 && (a + b)[k - 1] == '\r' {
      if k >= |a| { assert b[k - |a|] == '\n'; } else { assert a[k] == '\n'; }
    }
  }

  lemma CarriageLine(s: string)
    requires OneLine(s)
    ensures CarriageReturned(s) && CarriageReturned(s + "\r\n")
  {
    assert forall k | 0 <= k < |s + "\r\n"| :: (s + "\r\n")[k] == '\n' ==> k == |s| + 1;
  }

  lemma CarriageFrameReturns(t: string, d: string)
    requires OneLine(t) && OneLine(d)
    ensures CarriageReturned(CarriageFrame(t, d))
  {
    var a, b := "event: " + t + "\r\n", ("data: " + d) + "\r\n";
    CarriageLine("event: " + t);
    CarriageLine("data: " + d);
    CarriageLine("");
    CarriageConcat(a, b);
    CarriageConcat(a + b, "\r\n");
    assert CarriageFrame(t, d) == (a + b) + "\r\n";
  }

  lemma {:induction false} CarriageStreamReturns(frames: seq<(string, string)>)
    requires forall i | 0 <= i < |frames| :: OneLine(frames[i].0) && OneLine(frames[i].1)
    ensures CarriageReturned(CarriageStream(frames))
  {
    if frames == [] {
    } else {
      CarriageFrameReturns(frames[0].0, frames[0].1);
      CarriageStreamReturns(frames[1..]);
      CarriageConcat(CarriageFrame(frames[0].0, frames[0].1), CarriageStream(frames[1..]));
    }
  }

  /** A stream whose lines end in carriage return and line feed delivers nothing in any chunking, and
      the call ends with the error for a missing result, whatever frames were sent. */
  lemma CarriageReturnsDeliverNothing(parse: string -> Option<Json>, frames: seq<(string, string)>, chunks: seq<string>)
    requires forall i | 0 <= i < |frames| :: OneLine(frames[i].0) && OneLine(frames[i].1)
    requires Flatten(chunks) == CarriageStream(frames)
    ensures Delivered(chunks) == Progress([], CarriageStream(frames))
    ensures Finish(HandleAll(parse, NOTHING, Delivered(chunks).blocks)) ==
            Outcome([], None, Some(StreamError(false, NoResultText)))
  {
    CarriageStreamReturns(frames);
    DeliveredExactlyWithBlank(chunks);
    var text := CarriageStream(frames);
    forall k: nat | k < |text| ensures !BlankAt(text, k) {
      if k + 1 < |text| && text[k + 1] == '\n' { assert text[k] == '\r'; }
    }
  }

  // ---- What the events of a stream amount to ---------------------------------------------------

  type Events = seq<(string, string)>

  /** The events before the first error. */
  function BeforeError(events: Events): Events {
    if events == [] || events[0].0 == "error" then [] else [events[0]] + BeforeError(events[1..])
  }

  function FirstError(parse: string -> Option<Json>, events: Events): Option<StreamError> {
    if events == [] then None
    else if events[0].0 == "error" then Some(ErrorOf(parse(events[0].1)))
    else FirstError(parse, events[1..])
  }

  function StagesOf(parse: string -> Option<Json>, events: Events): seq<Option<Json>> {
    if events == [] then []
    else
      (if events[0].0 == "status" && Given(parse(events[0].1)) then [Field(parse(events[0].1).value, "stage")]
        else []) +
      StagesOf(parse, events[1..])
  }

  /** The last result that parses, with its keys in camel case. */
  function LastResult(parse: string -> Option<Json>, events: Events): Option<Json> {
    if events == [] then None
    else
      var later := LastResult(parse, events[1..]);
      if later.Some? then later
      else if events[0].0 == "result" && parse(events[0].1).Some? then
        Some(KeyNormaliser.CamelTree(parse(events[0].1).value))
      else None
  }

  lemma {:induction false} HandleFirst(parse: string -> Option<Json>, st: Outcome, blocks: seq<string>)
    requires blocks != []
    ensures HandleAll(parse, st, blocks) == HandleAll(parse, Handle(parse, st, blocks[0]), blocks[1..])
  {
    assert blocks == [blocks[0]] + blocks[1..];
    HandleConcat(parse, st, [blocks[0]], blocks[1..]);
    assert [blocks[0]][..0] == [];
    assert HandleAll(parse, st, []) == st;
  }

  /** The result after more events without an error. */
  function Later(parse: string -> Option<Json>, st: Outcome, seen: Events): Option<Json> {
    var r := LastResult(parse, seen);
    if r.Some? then r else st.result
  }

  /** Callbacks are fired for the status events before the first error, the result is the last one
      before it, and the error thrown is that first one. */
  ghost predicate Amounts(parse: string -> Option<Json>, st: Outcome, events: Events, out: Outcome) {
    var seen := BeforeError(events);
    && out.stages == st.stages + StagesOf(parse, seen)
    && out.result == Later(parse, st, seen)
    && out.error == FirstError(parse, events)
  }

  lemma {:induction false} AmountsWithEvent(parse: string -> Option<Json>, st: Outcome, e: (string, string),
          later: Events, out: Outcome)
    requires st.error == None && Dispatch(parse, st, e.0, e.1).error == None
    requires Amounts(parse, Dispatch(parse, st, e.0, e.1), later, out)
    ensures Amounts(parse, st, [e] + later, out)
  {
    assert ([e] + later)[1..] == later;
    assert BeforeError([e] + later) == [e] + BeforeError(later);
    NextStage(parse, e, BeforeError(later));
    NextResult(parse, e, BeforeError(later));
  }

  lemma {:induction false} AmountsAtError(parse: string -> Option<Json>, st: Outcome, e: (string, string),
          later: Events)
    requires st.error == None && Dispatch(parse, st, e.0, e.1).error.Some?
    ensures Amounts(parse, st, [e] + later, Dispatch(parse, st, e.0, e.1))
  {
    assert e.0 == "error";
    assert BeforeError([e] + later) == [];
    assert StagesOf(parse, []) == [];
  }

  /** What handling a list of blocks amounts to, in terms of the events they hold. */
  lemma {:induction false} OutcomeOfEvents(parse: string -> Option<Json>, st: Outcome, blocks: seq<string>)
    requires st.error == None
    ensures Amounts(parse, st, EventsOf(blocks), HandleAll(parse, st, blocks))
    decreases |blocks|
  {
    if blocks == [] {
    } else {
      var rest := blocks[1..];
      var event, later, next := EventOf(blocks[0]), EventsOf(rest), Handle(parse, st, blocks[0]);
      HandleFirst(parse, st, blocks);
      FirstBlock(blocks);
      if next.error.Some? {
        ErrorIsFinal(parse, next, rest);
        AmountsAtError(parse, st, event.value, later);
      } else {
        OutcomeOfEvents(parse, next, rest);
        if event.Some? {
          AmountsWithEvent(parse, st, event.value, later, HandleAll(parse, next, rest));
        } else {
          assert [] + later == later;
        }
      }
    }
  }

  lemma {:induction false} NextStage(parse: string -> Option<Json>, e: (string, string), later: Events)
    ensures StagesOf(parse, [e] + later) ==
      (if e.0 == "status" && Given(parse(e.1)) then [Field(parse(e.1).value, "stage")] else []) + StagesOf(parse, later)
  {
    assert ([e] + later)[1..] == later;
  }

  lemma {:induction false} NextResult(parse: string -> Option<Json>, e: (string, string), later: Events)
    ensures LastResult(parse, [e] + later) ==
      var r := LastResult(parse, later);
      if r.Some? then r
      else if e.0 == "result" && parse(e.1).Some? then Some(KeyNormaliser.CamelTree(parse(e.1).value)) else None
  {
    assert ([e] + later)[1..] == later;
  }

  // ---- How a stream ends ---------------------------------------------------------------------------

  function Delivers(chunks: seq<string>): Events { EventsOf(Delivered(chunks).blocks) }

  /** What the call returns or throws, and the callbacks it has made. */
  function OutcomeOf(parse: string -> Option<Json>, chunks: seq<string>): Outcome {
    Finish(HandleAll(parse, NOTHING, Delivered(chunks).blocks))
  }

  predicate NoErrorIn(events: Events) {
    forall i | 0 <= i < |events| :: events[i].0 != "error"
  }

  predicate ResultAt(parse: string -> Option<Json>, events: Events, j: nat) {
    j < |events| && events[j].0 == "result" && parse(events[j].1).Some?
  }

  /** The last result event whose data parses. */
  predicate LastResultAt(parse: string -> Option<Json>, events: Events, j: nat) {
    ResultAt(parse, events, j) && forall i: nat | j < i < |events| :: !ResultAt(parse, events, i)
  }

  predicate Falsy(value: Json) {
    value == Null || value == Bool(false) || value == Num(0.0) || value == Str("")
  }

  lemma NoErrorLater(events: Events)
    requires events != [] && NoErrorIn(events)
    ensures NoErrorIn(events[1..])
  {
    var rest := events[1..];
    forall i | 0 <= i < |rest| ensures rest[i].0 != "error" {
      assert rest[i] == events[i + 1];
    }
  }

  lemma {:induction false} NoErrorSeen(parse: string -> Option<Json>, events: Events)
    requires NoErrorIn(events)
    ensures BeforeError(events) == events && FirstError(parse, events) == None
  {
    if events == [] {
    } else {
      NoErrorLater(events);
      NoErrorSeen(parse, events[1..]);
      assert events == [events[0]] + events[1..];
    }
  }

  lemma {:induction false} FirstErrorSeen(parse: string -> Option<Json>, events: Events, j: nat)
    requires j < |events| && events[j].0 == "error" && NoErrorIn(events[..j])
    ensures FirstError(parse, events) == Some(ErrorOf(parse(events[j].1)))
  {
    if j == 0 {
    } else {
      assert events[..j][0] == events[0] && events[1..][..j - 1] == events[..j][1..];
      NoErrorLater(events[..j]);
      FirstErrorSeen(parse, events[1..], j - 1);
    }
  }

  lemma {:induction false} LastResultSeen(parse: string -> Option<Json>, events: Events, j: nat)
    requires LastResultAt(parse, events, j)
    ensures LastResult(parse, events) == Some(KeyNormaliser.CamelTree(parse(events[j].1).value))
  {
    var rest := events[1..];
    assert forall i: nat | i < |rest| :: rest[i] == events[i + 1];
    if j == 0 {
      forall i: nat | i < |rest| ensures !ResultAt(parse, rest, i) { assert !ResultAt(parse, events, i + 1); }
      NoResultSeen(parse, rest);
    } else {
      assert ResultAt(parse, rest, j - 1);
      forall i: nat | j - 1 < i < |rest| ensures !ResultAt(parse, rest, i) { assert !ResultAt(parse, events, i + 1); }
      LastResultSeen(parse, rest, j - 1);
    }
  }

  lemma {:induction false} NoResultSeen(parse: string -> Option<Json>, events: Events)
    requires forall i: nat | i < |events| :: !ResultAt(parse, events, i)
    ensures LastResult(parse, events) == None
  {
    if events == [] {
    } else {
      var rest := events[1..];
      forall i: nat | i < |rest| ensures !ResultAt(parse, rest, i) { assert !ResultAt(parse, events, i + 1); }
      assert !ResultAt(parse, events, 0);
      NoResultSeen(parse, rest);
    }
  }

  lemma FalsyStays(value: Json)
    ensures Truthy(Some(KeyNormaliser.CamelTree(value))) <==> !Falsy(value)
  {
  }

  /** A stream without an error event that delivers a result returns the last one that parses, with its
      keys in camel case, unless that is falsy. */
  lemma StreamReturns(parse: string -> Option<Json>, chunks: seq<string>, j: nat)
    requires NoErrorIn(Delivers(chunks)) && LastResultAt(parse, Delivers(chunks), j)
    ensures var value := parse(Delivers(chunks)[j].1).value; var out := OutcomeOf(parse, chunks);
      && out.result == Some(KeyNormaliser.CamelTree(value))
      && out.error == if Falsy(value) then Some(StreamError(false, NoResultText)) else None
  {
    var blocks, events := Delivered(chunks).blocks, Delivers(chunks);
    OutcomeOfEvents(parse, NOTHING, blocks);
    NoErrorSeen(parse, events);
    LastResultSeen(parse, events, j);
    FalsyStays(parse(events[j].1).value);
  }

  /** A stream that delivers neither an error event nor a result that parses ends in the error for that. */
  lemma StreamWithoutResult(parse: string -> Option<Json>, chunks: seq<string>)
    requires NoErrorIn(Delivers(chunks))
    requires forall i: nat | i < |Delivers(chunks)| :: !ResultAt(parse, Delivers(chunks), i)
    ensures OutcomeOf(parse, chunks).error == Some(StreamError(false, NoResultText))
  {
    OutcomeOfEvents(parse, NOTHING, Delivered(chunks).blocks);
    NoErrorSeen(parse, Delivers(chunks));
    NoResultSeen(parse, Delivers(chunks));
  }

  /** A stream that delivers an error event throws the first one. */
  lemma StreamThrows(parse: string -> Option<Json>, chunks: seq<string>, j: nat)
    requires j < |Delivers(chunks)| && Delivers(chunks)[j].0 == "error" && NoErrorIn(Delivers(chunks)[..j])
    ensures OutcomeOf(parse, chunks).error == Some(ErrorOf(parse(Delivers(chunks)[j].1)))
  {
    OutcomeOfEvents(parse, NOTHING, Delivered(chunks).blocks);
    FirstErrorSeen(parse, Delivers(chunks), j);
  }

  /** A stream succeeds exactly when no error event is delivered and the last result that parses is
      truthy, in any chunking. */
  lemma StreamSucceedsExactly(parse: string -> Option<Json>, chunks: seq<string>)
    ensures OutcomeOf(parse, chunks).error == None <==>
      NoErrorIn(Delivers(chunks)) &&
      exists j: nat :: LastResultAt(parse, Delivers(chunks), j) && !Falsy(parse(Delivers(chunks)[j].1).value)
  {
    var events := Delivers(chunks);
    if NoErrorIn(events) {
      if j: nat :| ResultAt(parse, events, j) {
        var last := SomeLastResult(parse, events, j);
        StreamReturns(parse, chunks, last);
      } else {
        StreamWithoutResult(parse, chunks);
      }
    } else {
      var j := SomeFirstError(events);
      StreamThrows(parse, chunks, j);
    }
  }

  lemma SomeLastResult(parse: string -> Option<Json>, events: Events, j: nat) returns (last: nat)
    requires ResultAt(parse, events, j)
    ensures LastResultAt(parse, events, last)
    ensures forall i: nat :: LastResultAt(parse, events, i) ==> i == last
    decreases |events| - j
  {
    if i: nat :| j < i < |events| && ResultAt(parse, events, i) {
      last := SomeLastResult(parse, events, i);
    } else {
      last := j;
    }
  }

  lemma {:induction false} SomeFirstError(events: Events) returns (j: nat)
    requires !NoErrorIn(events)
    ensures j < |events| && events[j].0 == "error" && NoErrorIn(events[..j])
    decreases |events|
  {
    var n := |events| - 1;
    if NoErrorIn(events[..n]) {
      j := n;
      assert forall i | 0 <= i < n :: events[..n][i] == events[i];
    } else {
      j := SomeFirstError(events[..n]);
      assert events[..n][..j] == events[..j];
    }
  }

  /** For a list of sendable frames, in any chunking: the call succeeds exactly when none of them is an
      error and the last result that parses is truthy. */
  lemma FramesSucceedExactly(parse: string -> Option<Json>, frames: Events, chunks: seq<string>)
    requires forall i | 0 <= i < |frames| :: Sendable(frames[i])
    requires Flatten(chunks) == Stream(frames)
    ensures OutcomeOf(parse, chunks).error == None <==>
      NoErrorIn(frames) && exists j: nat :: LastResultAt(parse, frames, j) && !Falsy(parse(frames[j].1).value)
    ensures forall j: nat | NoErrorIn(frames) && LastResultAt(parse, frames, j) ::
      OutcomeOf(parse, chunks).result == Some(KeyNormaliser.CamelTree(parse(frames[j].1).value))
  {
    FramesRoundTrip(frames, chunks);
    StreamSucceedsExactly(parse, chunks);
    forall j: nat | NoErrorIn(frames) && LastResultAt(parse, frames, j)
      ensures OutcomeOf(parse, chunks).result == Some(KeyNormaliser.CamelTree(parse(frames[j].1).value))
    {
      StreamReturns(parse, chunks, j);
    }
  }

  /** The first entry of an object under a key; none for anything but an object. */
  predicate Says(value: Json, key: string, said: Option<Json>) {
    if value.Obj? && IndexOf(value.entries, key) < |value.entries| then
      said == Some(value.entries[IndexOf(value.entries, key)].value)
    else said == None
  }

  /** A status event passes on the stage its data names, undefined if it names none; data that does not
      parse, or is null, calls nobody. */
  lemma StatusCallsBack(parse: string -> Option<Json>, st: Outcome, data: string, stage: Option<Json>)
    requires parse(data).Some? && parse(data).value != Null ==> Says(parse(data).value, "stage", stage)
    ensures Dispatch(parse, st, "status", data) ==
      if parse(data) == None || parse(data) == Some(Null) then st else st.(stages := st.stages + [stage])
  {
  }

  /** An error event is of the kind its `error` names, and says its `message`, or else its `detail`, or
      else that the server failed; null counts as missing. Data that does not parse, or is null, says
      that the stream failed. */
  lemma ErrorReads(parsed: Option<Json>, kind: Option<Json>, message: Option<Json>, detail: Option<Json>)
    requires parsed.Some? && parsed.value != Null ==>
      Says(parsed.value, "error", kind) && Says(parsed.value, "message", message) &&
        Says(parsed.value, "detail", detail)
    ensures parsed == None || parsed == Some(Null) ==> ErrorOf(parsed) == StreamError(false, StreamErrorText)
    ensures parsed.Some? && parsed.value != Null ==>
      && (ErrorOf(parsed).notFound <==> kind == Some(Str("session_not_found")))
      && ErrorOf(parsed).text ==
           if message.Some? && message.value != Null then Said(message.value)
           else if detail.Some? && detail.value != Null then Said(detail.value)
           else ServerErrorText
  {
  }
}
