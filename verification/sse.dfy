/**
 * Server-sent event framing: the broadcaster's printer and the client's incremental reader
 * (the event stream format is section 9.2.6 of the WHATWG HTML standard).
 */
module Sse {
  import opened Sequences
  import opened Wrappers
  import opened Text

  /** A printed frame: an event type and its serialised payload. */
  datatype Frame = Frame(eventType: string, data: string)

  datatype Parsed = Parsed(eventType: string, data: string)

  /** What one block makes the client do. */
  datatype Signal = Online | Delivered(eventType: string, data: string)

  datatype Drained = Drained(blocks: seq<string>, rest: string)

  // ---------------------------------------------------------------- printing

  function Print(f: Frame): string {
    "event: " + f.eventType + "\ndata: " + f.data + "\n\n"
  }

  function Stream(frames: seq<Frame>): string {
    if frames == [] then "" else Print(frames[0]) + Stream(frames[1..])
  }

  /** No line break inside or, with the break that follows, at the end: what `JSON.stringify` gives. */
  predicate OneLine(s: string) {
    '\n' !in s && (s != [] ==> s[|s| - 1] != '\r')
  }

  ghost predicate Printable(frames: seq<Frame>) {
    forall k :: 0 <= k < |frames| ==> OneLine(frames[k].eventType) && OneLine(frames[k].data)
  }

  // ---------------------------------------------------------------- the separators

  /** Length of a match of `\r?\n` at `i`, 0 for none. */
  function NewlineAt(s: string, i: nat): (n: nat)
    ensures n <= 2 && (n > 0 ==> i + n <= |s|)
  {
    if i < |s| && s[i] == '\n' then 1
    else if i + 1 < |s| && s[i] == '\r' && s[i + 1] == '\n' then 2
    else 0
  }

  /** Length of a match of `\r?\n\r?\n` at `i`, 0 for none. */
  function SeparatorAt(s: string, i: nat): (n: nat)
    ensures n > 0 ==> 2 <= n <= 4 && i + n <= |s|
  {
    var a := NewlineAt(s, i);
    var b := if a > 0 then NewlineAt(s, i + a) else 0;
    if b > 0 then a + b else 0
  }

  /** The leftmost separator at or after `i`. */
  function Separator(s: string, i: nat): (k: Option<nat>)
    ensures k.Some? ==> i <= k.value < |s| && SeparatorAt(s, k.value) > 0
    ensures k.Some? ==> forall j :: i <= j < k.value ==> SeparatorAt(s, j) == 0
    ensures k.None? ==> forall j :: i <= j ==> SeparatorAt(s, j) == 0
    decreases |s| - i
  {
    if i >= |s| then None else if SeparatorAt(s, i) > 0 then Some(i) else Separator(s, i + 1)
  }

  /** The leftmost line break at or after `i`. */
  function Newline(s: string, i: nat): (k: Option<nat>)
    ensures k.Some? ==> i <= k.value < |s| && NewlineAt(s, k.value) > 0
    ensures k.Some? ==> forall j :: i <= j < k.value ==> NewlineAt(s, j) == 0
    ensures k.None? ==> forall j :: i <= j ==> NewlineAt(s, j) == 0
    decreases |s| - i
  {
    if i >= |s| then None else if NewlineAt(s, i) > 0 then Some(i) else Newline(s, i + 1)
  }

  /** A line break is `\n`, with a `\r` before it or not; a separator is two of them in a row. */
  lemma SeparatorsAre(s: string, i: nat)
    requires i <= |s|
    ensures NewlineAt(s, i) == if "\n" <= s[i..] then 1 else if "\r\n" <= s[i..] then 2 else 0
    ensures SeparatorAt(s, i) == if "\n\n" <= s[i..] then 2
                                 else if "\n\r\n" <= s[i..] || "\r\n\n" <= s[i..] then 3
                                 else if "\r\n\r\n" <= s[i..] then 4 else 0
  {
  }

  // ---------------------------------------------------------------- reading

  /** `split(/\r?\n/)` */
  function Lines(s: string): seq<string>
    decreases |s|
  {
    match Newline(s, 0)
    case None => [s]
    case Some(k) => [s[..k]] + Lines(s[k + NewlineAt(s, k)..])
  }

  function NextType(eventType: string, line: string): string {
    if "event:" <= line then Trim(line[6..]) else eventType
  }

  function DataIn(line: string): seq<string> {
    if "data:" <= line then [TrimStart(line[5..])] else []
  }

  function TypeOf(lines: seq<string>, eventType: string): string {
    if lines == [] then eventType else TypeOf(lines[1..], NextType(eventType, lines[0]))
  }

  function DataOf(lines: seq<string>): seq<string> {
    if lines == [] then [] else DataIn(lines[0]) + DataOf(lines[1..])
  }

  function Join(parts: seq<string>): string {
    if parts == [] then "" else if |parts| == 1 then parts[0] else parts[0] + "\n" + Join(parts[1..])
  }

  function ParseBlock(block: string): Parsed {
    Parsed(TypeOf(Lines(block), "message"), Join(DataOf(Lines(block))))
  }

  /** `parses` says which texts `JSON.parse` accepts. */
  function Signals(parses: string -> bool, p: Parsed): seq<Signal> {
    if p.eventType == "heartbeat" then [Online]
    else if p.data == "" || !parses(p.data) then []
    else (if p.eventType == "connected" then [Online] else []) + [Delivered(p.eventType, p.data)]
  }

  function AllSignals(parses: string -> bool, blocks: seq<string>): seq<Signal> {
    if blocks == [] then [] else Signals(parses, ParseBlock(blocks[0])) + AllSignals(parses, blocks[1..])
  }

  datatype Block = Block(text: string, after: string)

  /** The text before the first separator, and the text after it. */
  function Cut(s: string): (b: Option<Block>)
    ensures b.Some? ==> |b.value.after| < |s|
  {
    match Separator(s, 0)
    case None => None
    case Some(k) => Some(Block(s[..k], s[k + SeparatorAt(s, k)..]))
  }

  /** Everything the inner loop takes out of a buffer. */
  function Drain(s: string): Drained
    decreases |s|
  {
    match Cut(s)
    case None => Drained([], s)
    case Some(b) =>
      var d := Drain(b.after);
      Drained([b.text] + d.blocks, d.rest)
  }

  /** The outer loop over the chunks that arrive. */
  function Feed(buffer: string, chunks: seq<string>): Drained
    decreases chunks
  {
    if chunks == [] then Drained([], buffer)
    else
      var d := Drain(buffer + chunks[0]);
      var e := Feed(d.rest, chunks[1..]);
      Drained(d.blocks + e.blocks, e.rest)
  }

  function Concat(chunks: seq<string>): string {
    if chunks == [] then "" else chunks[0] + Concat(chunks[1..])
  }

  // ---------------------------------------------------------------- chunking does not matter

  lemma SeparatorIs(s: string, k: nat)
    requires k < |s| && SeparatorAt(s, k) > 0 && forall j :: 0 <= j < k ==> SeparatorAt(s, j) == 0
    ensures Separator(s, 0) == Some(k)
  {
    var found := Separator(s, 0);
    assert found.Some?;
    assert SeparatorAt(s, found.value) > 0;
  }

  /** More text never changes the first separator: an earlier match would already be complete. */
  lemma SeparatorIsPrefixStable(a: string, b: string)
    requires Separator(a, 0).Some?
    ensures Separator(a + b, 0) == Separator(a, 0)
    ensures SeparatorAt(a + b, Separator(a, 0).value) == SeparatorAt(a, Separator(a, 0).value)
  {
    var k := Separator(a, 0).value;
    forall j | 0 <= j < k ensures SeparatorAt(a + b, j) == 0 {
      assert SeparatorAt(a, j) == 0;
    }
    SeparatorIs(a + b, k);
  }

  lemma CutIsPrefixStable(a: string, b: string)
    requires Cut(a).Some?
    ensures Cut(a + b) == Some(Block(Cut(a).value.text, Cut(a).value.after + b))
  {
    SeparatorIsPrefixStable(a, b);
    var k := Separator(a, 0).value;
    var n := k + SeparatorAt(a, k);
    assert (a + b)[n..] == a[n..] + b && (a + b)[..k] == a[..k];
  }

  lemma {:induction false} DrainSplit(a: string, b: string)
    ensures var d := Drain(a); var e := Drain(d.rest + b);
            Drain(a + b) == Drained(d.blocks + e.blocks, e.rest)
    decreases |a|
  {
    match Cut(a)
    case None =>
      Empty(Drain(a + b).blocks);
    case Some(block) =>
      CutIsPrefixStable(a, b);
      DrainSplit(block.after, b);
      Associative([block.text], Drain(block.after).blocks, Drain(Drain(block.after).rest + b).blocks);
  }

  lemma {:induction false} DrainLeavesNothing(s: string)
    ensures Cut(Drain(s).rest) == None
    decreases |s|
  {
    match Cut(s)
    case None =>
    case Some(block) => DrainLeavesNothing(block.after);
  }

  /** Any chunking of any text gives the blocks, and the rest, that the whole text gives at once. */
  lemma {:induction false} ChunkingIsInvisible(buffer: string, chunks: seq<string>)
    requires Cut(buffer) == None
    ensures Feed(buffer, chunks) == Drain(buffer + Concat(chunks))
    decreases chunks
  {
    if chunks == [] {
      Empty(buffer);
    } else {
      var first, more := buffer + chunks[0], Concat(chunks[1..]);
      DrainLeavesNothing(first);
      ChunkingIsInvisible(Drain(first).rest, chunks[1..]);
      Associative(buffer, chunks[0], more);
      DrainSplit(first, more);
    }
  }

  // ---------------------------------------------------------------- printing, then reading

  /** What the client should make of a frame. */
  function Meaning(parses: string -> bool, f: Frame): seq<Signal> {
    Signals(parses, Parsed(Trim(f.eventType), TrimStart(f.data)))
  }

  function Meanings(parses: string -> bool, frames: seq<Frame>): seq<Signal> {
    if frames == [] then [] else Meaning(parses, frames[0]) + Meanings(parses, frames[1..])
  }

  function Body(f: Frame): string {
    "event: " + f.eventType + "\ndata: " + f.data
  }

  lemma OneLineHasNoNewline(s: string, i: nat)
    requires OneLine(s)
    ensures NewlineAt(s, i) == 0
  {
  }

  lemma BodyLines(f: Frame)
    requires OneLine(f.eventType) && OneLine(f.data)
    ensures Lines(Body(f)) == ["event: " + f.eventType, "data: " + f.data]
  {
    var first, second := "event: " + f.eventType, "data: " + f.data;
    var body := Body(f);
    assert body == first + ['\n'] + second;
    assert OneLine(first) && OneLine(second);
    var k := |first|;
    assert NewlineAt(body, k) == 1;
    forall j | 0 <= j < k ensures NewlineAt(body, j) == 0 {
      assert body[j] == first[j];
      assert body[j + 1] == if j + 1 < k then first[j + 1] else '\n';
    }
    assert Newline(body, 0) == Some(k);
    assert body[..k] == first && body[k + 1..] == second;
    assert Newline(second, 0) == None by {
      if Newline(second, 0).Some? { OneLineHasNoNewline(second, Newline(second, 0).value); }
    }
  }

  lemma BodyParses(f: Frame)
    requires OneLine(f.eventType) && OneLine(f.data)
    ensures ParseBlock(Body(f)) == Parsed(Trim(f.eventType), TrimStart(f.data))
  {
    BodyLines(f);
    var first, second := "event: " + f.eventType, "data: " + f.data;
    var lines := [first, second];
    assert first[6..] == " " + f.eventType && second[5..] == " " + f.data;
    assert TrimStart(" " + f.eventType) == TrimStart(f.eventType) by { assert (" " + f.eventType)[1..] == f.eventType; }
    assert TrimStart(" " + f.data) == TrimStart(f.data) by { assert (" " + f.data)[1..] == f.data; }
    assert first[0] == 'e' && second[0] == 'd';
    assert "event:" <= first && !("event:" <= second) && "data:" <= second && !("data:" <= first);
    assert lines[1..] == [second];
    assert TypeOf(lines, "message") == TypeOf([second], Trim(first[6..])) == Trim(first[6..]);
    assert DataOf([second]) == [TrimStart(second[5..])];
    assert DataOf(lines) == [TrimStart(second[5..])];
  }

  /** The printed text, character by character up to the blank line. */
  lemma PrintedChars(f: Frame, more: string, j: nat)
    requires j <= |Body(f)|
    ensures var first, second, s := "event: " + f.eventType, "data: " + f.data, Print(f) + more;
      && |s| >= |Body(f)| + 2 && |Body(f)| == |first| + 1 + |second|
      && s[|Body(f)| + 1] == '\n'
      && s[j] == if j < |first| then first[j] else if j == |first| || j == |Body(f)| then '\n' else second[j - |first| - 1]
  {
    var first, second := "event: " + f.eventType, "data: " + f.data;
    assert Print(f) + more == first + ("\n" + (second + ("\n\n" + more)));
  }

  lemma NoEarlierSeparator(f: Frame, more: string, j: nat)
    requires OneLine(f.eventType) && OneLine(f.data) && j < |Body(f)|
    ensures SeparatorAt(Print(f) + more, j) == 0
  {
    var first, second := "event: " + f.eventType, "data: " + f.data;
    assert OneLine(first) && OneLine(second) && second[0] == 'd';
    PrintedChars(f, more, j);
    PrintedChars(f, more, j + 1);
  }

  lemma FirstFrame(f: Frame, more: string)
    requires OneLine(f.eventType) && OneLine(f.data)
    ensures Cut(Print(f) + more) == Some(Block(Body(f), more))
  {
    var s, k := Print(f) + more, |Body(f)|;
    PrintedChars(f, more, k);
    forall j | 0 <= j < k ensures SeparatorAt(s, j) == 0 { NoEarlierSeparator(f, more, j); }
    assert SeparatorAt(s, k) == 2;
    SeparatorIs(s, k);
    assert Print(f) == Body(f) + "\n\n";
    assert s[..k] == Body(f) && s[k + 2..] == more;
  }

  /** A printed stream reads back as the meanings of its frames, in order, with nothing left over. */
  lemma {:induction false} PrintedStreamDrains(parses: string -> bool, frames: seq<Frame>)
    requires Printable(frames)
    ensures AllSignals(parses, Drain(Stream(frames)).blocks) == Meanings(parses, frames)
    ensures Drain(Stream(frames)).rest == ""
  {
    if frames != [] {
      var f, more := frames[0], Stream(frames[1..]);
      var s := Print(f) + more;
      FirstFrame(f, more);
      BodyParses(f);
      PrintedStreamDrains(parses, frames[1..]);
      assert Drain(s).blocks[1..] == Drain(more).blocks;
    }
  }

  /**
   * However the printed text is cut into chunks, the client delivers exactly the printed frames,
   * in order, without heartbeats, empty payloads and payloads that do not parse.
   */
  lemma AnyChunkingDeliversTheFrames(parses: string -> bool, frames: seq<Frame>, chunks: seq<string>)
    requires Printable(frames) && Concat(chunks) == Stream(frames)
    ensures AllSignals(parses, Feed("", chunks).blocks) == Meanings(parses, frames)
    ensures Feed("", chunks).rest == ""
  {
    assert "" + Concat(chunks) == Stream(frames);
    ChunkingIsInvisible("", chunks);
    PrintedStreamDrains(parses, frames);
  }

  /**
   * What a frame means to the client: any heartbeat says that the stream is online; any other
   * frame delivers its trimmed type with its payload, if that is there and parses, and the
   * `connected` one says first that the stream is online.
   */
  lemma MeaningIs(parses: string -> bool, f: Frame)
    ensures var t, d, signals := Trim(f.eventType), TrimStart(f.data), Meaning(parses, f); var counts := d != "" && parses(d);
      && IsTrimmed(t, f.eventType)
      && (Delivered(t, d) in signals <==> t != "heartbeat" && counts)
      && (Online in signals <==> t == "heartbeat" || (t == "connected" && counts))
      && (forall x :: x in signals ==> x == Online || x == Delivered(t, d))
      && (|signals| == 2 ==> signals == [Online, Delivered(t, d)]) && |signals| <= 2
      && (|signals| == 2 <==> t == "connected" && counts)
  {
    TrimTrims(f.eventType);
  }

  predicate NamesType(line: string) { |line| >= 6 && line[..6] == "event:" }

  /** The last line that names a type names the block's type; without one it is the default. */
  lemma {:induction false} TypeIsTheLast(lines: seq<string>, eventType: string)
    ensures forall i :: 0 <= i < |lines| && NamesType(lines[i]) && (forall j :: i < j < |lines| ==> !NamesType(lines[j])) ==>
      IsTrimmed(TypeOf(lines, eventType), lines[i][6..])
    ensures (forall i :: 0 <= i < |lines| ==> !NamesType(lines[i])) ==> TypeOf(lines, eventType) == eventType
  {
    if lines != [] {
      var line, rest := lines[0], lines[1..];
      TypeIsTheLast(rest, NextType(eventType, line));
      if NamesType(line) { TrimTrims(line[6..]); }
      assert forall j :: 0 < j < |lines| ==> lines[j] == rest[j - 1];
      forall i | 0 <= i < |lines| && NamesType(lines[i]) && (forall j :: i < j < |lines| ==> !NamesType(lines[j]))
        ensures IsTrimmed(TypeOf(lines, eventType), lines[i][6..])
      {
        if i == 0 { assert forall j :: 0 <= j < |rest| ==> rest[j] == lines[j + 1]; } else { assert rest[i - 1] == lines[i]; }
      }
    }
  }

  /** A block without a type line is a `message`. */
  lemma UntypedBlocksAreMessages(block: string)
    requires forall i :: 0 <= i < |Lines(block)| ==> !NamesType(Lines(block)[i])
    ensures ParseBlock(block).eventType == "message"
  {
    TypeIsTheLast(Lines(block), "message");
  }

  /** The payload is what the data lines say, in order, with a line break between two of them. */
  lemma {:induction false} DataAreJoined(a: seq<string>, b: seq<string>, line: string)
    ensures DataOf(a + b) == DataOf(a) + DataOf(b)
    ensures DataOf([line]) == if |line| >= 5 && line[..5] == "data:" then [TrimStart(line[5..])] else []
    ensures a != [] && b != [] ==> Join(a + b) == Join(a) + "\n" + Join(b)
    ensures Join([line]) == line && Join([]) == ""
  {
    assert [line][1..] == [];
    if a == [] {
      assert a + b == b;
    } else {
      assert (a + b)[0] == a[0] && (a + b)[1..] == a[1..] + b;
      DataAreJoined(a[1..], b, line);
      Associative(DataIn(a[0]), DataOf(a[1..]), DataOf(b));
      if b != [] { JoinIsLonger(a, b); }
    }
  }

  lemma {:induction false} JoinIsLonger(a: seq<string>, b: seq<string>)
    requires a != [] && b != []
    ensures Join(a + b) == Join(a) + "\n" + Join(b)
  {
    var all := a + b;
    assert all[0] == a[0] && all[1..] == a[1..] + b && |all| >= 2;
    if |a| == 1 {
      assert all[1..] == b;
    } else {
      JoinIsLonger(a[1..], b);
      assert Join(all) == a[0] + "\n" + (Join(a[1..]) + "\n" + Join(b));
      assert Join(a) == a[0] + "\n" + Join(a[1..]);
      assert a[0] + "\n" + (Join(a[1..]) + "\n" + Join(b)) == (a[0] + "\n" + Join(a[1..])) + "\n" + Join(b);
    }
  }

  /** `breaks` are line breaks that put the lines back together. */
  function Rejoined(lines: seq<string>, breaks: seq<string>): string
    requires |lines| == |breaks| + 1
  {
    if breaks == [] then lines[0] else lines[0] + breaks[0] + Rejoined(lines[1..], breaks[1..])
  }

  ghost predicate AreLines(lines: seq<string>, breaks: seq<string>, s: string) {
    && |lines| == |breaks| + 1 && Rejoined(lines, breaks) == s
    && (forall i :: 0 <= i < |breaks| ==> breaks[i] == "\n" || breaks[i] == "\r\n")
    && (forall i :: 0 <= i < |lines| ==> '\n' !in lines[i])
  }

  lemma OneMoreLine(line: string, br: string, lines: seq<string>, breaks: seq<string>, s: string)
    requires AreLines(lines, breaks, s) && '\n' !in line && (br == "\n" || br == "\r\n")
    ensures AreLines([line] + lines, [br] + breaks, line + br + s)
  {
    var more, all := [br] + breaks, [line] + lines;
    assert more[1..] == breaks && all[1..] == lines && more[0] == br && all[0] == line;
  }

  lemma NoBreakBefore(s: string, k: nat)
    requires k <= |s| && forall j :: 0 <= j < k ==> NewlineAt(s, j) == 0
    ensures '\n' !in s[..k]
  {
    forall j | 0 <= j < k ensures s[..k][j] != '\n' { assert NewlineAt(s, j) == 0; }
  }

  lemma BreakIs(s: string, k: nat)
    requires NewlineAt(s, k) > 0
    ensures var br := s[k..k + NewlineAt(s, k)]; (br == "\n" || br == "\r\n") && s == s[..k] + br + s[k + NewlineAt(s, k)..]
  {
  }

  /** The lines are the text without its line breaks, and none has one inside. */
  lemma {:induction false} LinesAreTheText(s: string) returns (breaks: seq<string>)
    ensures AreLines(Lines(s), breaks, s)
    decreases |s|
  {
    match Newline(s, 0)
    case None =>
      breaks := [];
      NoBreakBefore(s, |s|);
      assert s[..|s|] == s;
    case Some(k) =>
      var n := NewlineAt(s, k);
      var line, br, more := s[..k], s[k..k + n], s[k + n..];
      var rest := LinesAreTheText(more);
      breaks := [br] + rest;
      NoBreakBefore(s, k);
      BreakIs(s, k);
      OneMoreLine(line, br, Lines(more), rest, more);
  }

  /** Types without outer white space and payloads without leading white space come back unchanged. */
  lemma FramesComeBackUnchanged(parses: string -> bool, f: Frame, chunks: seq<string>)
    requires OneLine(f.eventType) && OneLine(f.data) && Concat(chunks) == Print(f)
    requires Trim(f.eventType) == f.eventType && TrimStart(f.data) == f.data && f.data != "" && parses(f.data)
    requires f.eventType != "heartbeat" && f.eventType != "connected"
    ensures AllSignals(parses, Feed("", chunks).blocks) == [Delivered(f.eventType, f.data)]
  {
    assert Stream([f]) == Print(f) + "" == Print(f);
    AnyChunkingDeliversTheFrames(parses, [f], chunks);
    assert Meanings(parses, [f]) == Meaning(parses, f) + Meanings(parses, [f][1..]);
  }

  lemma {:induction false} StreamAppend(frames: seq<Frame>, f: Frame)
    ensures Stream(frames + [f]) == Stream(frames) + Print(f)
  {
    if frames == [] {
      assert Stream([f]) == Print(f) + "" == Print(f);
      assert [] + [f] == [f];
    } else {
      assert (frames + [f])[1..] == frames[1..] + [f];
      StreamAppend(frames[1..], f);
    }
  }

  lemma {:induction false} SignalsAppend(parses: string -> bool, a: seq<string>, b: seq<string>)
    ensures AllSignals(parses, a + b) == AllSignals(parses, a) + AllSignals(parses, b)
  {
    if a == [] {
      assert a + b == b;
    } else {
      assert (a + b)[1..] == a[1..] + b;
      SignalsAppend(parses, a[1..], b);
    }
  }
}
