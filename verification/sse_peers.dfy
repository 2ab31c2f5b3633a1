/** The two ends of the event stream, with the state they update in place. */
module SsePeers {
  import opened Sequences
  import opened Wrappers
  import opened Text
  import opened Sse

  /** A connected response. A broken one throws when written to. */
  class Client {
    var written: string
    var broken: bool
    ghost var frames: seq<Frame>

    ghost predicate Valid()
      reads this
    {
      Printable(frames) && written == Stream(frames)
    }

    constructor ()
      ensures Valid() && frames == [] && !broken
    {
      written, broken, frames := "", false, [];
    }

    method Write(f: Frame) returns (ok: bool)
      requires Valid() && OneLine(f.eventType) && OneLine(f.data)
      modifies this`written, this`frames
      ensures Valid() && ok == !broken
      ensures frames == old(frames) + (if ok then [f] else [])
      ensures written == old(written) + (if ok then Print(f) else "")
    {
      if broken { return false; }
      StreamAppend(frames, f);
      written := written + Print(f);
      frames := frames + [f];
      return true;
    }
  }

  class Broadcaster {
    var clients: set<Client>

    ghost predicate Valid()
      reads this, clients
    {
      forall c :: c in clients ==> c.Valid()
    }

    constructor ()
      ensures Valid() && clients == {}
    {
      clients := {};
    }

    /** A new client first gets the `connected` frame; a response that throws on it is not added. */
    method AddClient(c: Client, hello: string) returns (ok: bool)
      requires Valid() && c.Valid() && c !in clients && OneLine(hello)
      modifies this, c`written, c`frames
      ensures Valid() && ok == !c.broken
      ensures clients == old(clients) + if ok then {c} else {}
      ensures c.frames == old(c.frames) + if ok then [Frame("connected", hello)] else []
      ensures forall d :: d in old(clients) ==> Untouched(d)
    {
      ok := c.Write(Frame("connected", hello));
      assert old(clients) == clients && c !in clients;
      forall d | d in clients ensures d.Valid() && Untouched(d) { OthersKeepTheirText(d); }
      if ok { clients := clients + {c}; }
    }

    /** Every working client gets the frame once; a broken one is removed and stops nobody else. */
    method Broadcast(eventType: string, data: string)
      requires Valid() && OneLine(eventType) && OneLine(data)
      modifies this`clients, clients`written, clients`frames
      ensures Valid()
      ensures forall c :: c in clients <==> c in old(clients) && !c.broken
      ensures forall c :: c in old(clients) ==>
        c.frames == old(c.frames) + if c.broken then [] else [Frame(eventType, data)]
    {
      var f := Frame(eventType, data);
      var todo := clients;
      while todo != {}
        invariant todo <= clients <= old(clients)
        invariant forall c :: c in old(clients) - todo ==> Told(c, f) && (c in clients <==> !c.broken)
        invariant forall c :: c in todo ==> c.frames == old(c.frames) && c.written == old(c.written)
        decreases |todo|
      {
        var c :| c in todo;
        todo := todo - {c};
        var ok := c.Write(f);
        if !ok { clients := clients - {c}; }
      }
      assert forall c :: c in old(clients) ==> Told(c, f);
    }
  }

  twostate predicate Untouched(c: Client)
    reads c
  {
    c.written == old(c.written) && c.frames == old(c.frames) && c.broken == old(c.broken)
  }

  twostate lemma OthersKeepTheirText(d: Client)
    requires old(d.Valid()) && unchanged(d)
    ensures d.Valid() && Untouched(d)
  {
  }

  /** `c` is still good, and has `f` one more time unless it is broken. */
  twostate predicate Told(c: Client, f: Frame)
    reads c
  {
    c.Valid() && c.frames == old(c.frames) + if c.broken then [] else [f]
  }

  /** The reader of `connectRealtime`: the text buffer and what was reported so far. */
  class Reader {
    const parses: string -> bool
    var buffer: string
    var signals: seq<Signal>
    ghost var chunks: seq<string>

    ghost predicate Valid()
      reads this
    {
      buffer == Feed("", chunks).rest && signals == AllSignals(parses, Feed("", chunks).blocks)
    }

    constructor (parses: string -> bool)
      ensures Valid() && chunks == [] && this.parses == parses
    {
      this.parses := parses;
      buffer, signals, chunks := "", [], [];
    }

    method OnChunk(chunk: string)
      requires Valid()
      modifies this
      ensures Valid() && chunks == old(chunks) + [chunk]
    {
      ghost var heard := Feed("", chunks);
      FeedAppend("", chunks, chunk);
      buffer := buffer + chunk;
      ghost var blocks := TakeBlocks();
      SignalsAppend(parses, heard.blocks, blocks);
      chunks := chunks + [chunk];
    }

    /** The inner loop: every complete block leaves the buffer. */
    method TakeBlocks() returns (ghost blocks: seq<string>)
      modifies this`buffer, this`signals
      ensures Drain(old(buffer)) == Drained(blocks, buffer)
      ensures Reported(old(signals), blocks, parses, signals)
    {
      blocks := [];
      Empty(signals);
      ghost var before, at := buffer, buffer;
      NothingTaken(at);
      var block := TakeBlock();
      while block.Some?
        invariant TakenOut(before, blocks, at)
        invariant Reported(old(signals), blocks, parses, signals)
        invariant Takes(at, block, buffer)
        decreases |at|
      {
        OneMoreBlock(before, blocks, at);
        Report(block.value, blocks);
        blocks := blocks + [block.value];
        at := buffer;
        block := TakeBlock();
      }
      NoMoreBlocks(before, blocks, at);
    }

    method TakeBlock() returns (block: Option<string>)
      modifies this`buffer
      ensures Takes(old(buffer), block, buffer)
    {
      var separator := Separator(buffer, 0);
      if separator.None? { return None; }
      var k := separator.value;
      block := Some(buffer[..k]);
      buffer := buffer[k + SeparatorAt(buffer, k)..];
    }

    /** Handles one block; `blocks` are the ones handled before it. */
    method Report(block: string, ghost blocks: seq<string>)
      modifies this`signals
      ensures forall start :: Reported(start, blocks, parses, old(signals)) ==> Reported(start, blocks + [block], parses, signals)
    {
      forall start
        ensures (start + AllSignals(parses, blocks)) + Signals(parses, ParseBlock(block)) == start + AllSignals(parses, blocks + [block])
      {
        OneMoreSignal(parses, blocks, block);
        Associative(start, AllSignals(parses, blocks), Signals(parses, ParseBlock(block)));
      }
      var event := Parse(block);
      if event.eventType == "heartbeat" {
        signals := signals + [Online];
        return;
      }
      if event.data == "" { return; }
      if parses(event.data) {
        if event.eventType == "connected" { signals := signals + [Online]; }
        signals := signals + [Delivered(event.eventType, event.data)];
      }
    }

    /** `parseSseBlock` */
    method Parse(block: string) returns (p: Parsed)
      ensures p == ParseBlock(block)
    {
      var eventType := "message";
      var data: seq<string> := [];
      var lines := Lines(block);
      for i := 0 to |lines|
        invariant TypeOf(lines, "message") == TypeOf(lines[i..], eventType)
        invariant DataOf(lines) == data + DataOf(lines[i..])
      {
        LinesFrom(lines, i, eventType, data);
        eventType, data := TakeLine(lines[i], eventType, data);
      }
      Empty(data);
      p := Parsed(eventType, Join(data));
    }

    method TakeLine(line: string, eventType: string, data: seq<string>) returns (newType: string, newData: seq<string>)
      ensures newType == NextType(eventType, line) && newData == data + DataIn(line)
    {
      newType, newData := eventType, data;
      if "event:" <= line { newType := Trim(line[6..]); }
      if "data:" <= line { newData := newData + [TrimStart(line[5..])]; }
    }
  }

  /** The signals of `blocks` have been added to those at the start. */
  ghost predicate Reported(start: seq<Signal>, blocks: seq<string>, parses: string -> bool, signals: seq<Signal>) {
    signals == start + AllSignals(parses, blocks)
  }

  /** `blocks` have been taken out of `before`, and `at` is what is left. */
  ghost predicate TakenOut(before: string, blocks: seq<string>, at: string) {
    Drain(before) == Drained(blocks + Drain(at).blocks, Drain(at).rest)
  }

  ghost predicate Takes(at: string, block: Option<string>, after: string) {
    match Cut(at)
    case None => block == None && after == at
    case Some(b) => block == Some(b.text) && after == b.after
  }

  lemma LinesFrom(lines: seq<string>, i: nat, eventType: string, data: seq<string>)
    requires i < |lines|
    ensures TypeOf(lines[i..], eventType) == TypeOf(lines[i + 1..], NextType(eventType, lines[i]))
    ensures data + DataOf(lines[i..]) == (data + DataIn(lines[i])) + DataOf(lines[i + 1..])
  {
    assert lines[i..][0] == lines[i] && lines[i..][1..] == lines[i + 1..];
    Associative(data, DataIn(lines[i]), DataOf(lines[i + 1..]));
  }

  lemma NothingTaken(before: string)
    ensures TakenOut(before, [], before)
  {
    Empty(Drain(before).blocks);
  }

  lemma NoMoreBlocks(before: string, blocks: seq<string>, at: string)
    requires Cut(at) == None && TakenOut(before, blocks, at)
    ensures Drain(before) == Drained(blocks, at)
  {
    Empty(blocks);
  }

  lemma OneMoreSignal(parses: string -> bool, blocks: seq<string>, block: string)
    ensures AllSignals(parses, blocks + [block]) == AllSignals(parses, blocks) + Signals(parses, ParseBlock(block))
  {
    SignalsAppend(parses, blocks, [block]);
    assert AllSignals(parses, [block]) == Signals(parses, ParseBlock(block)) + AllSignals(parses, []);
  }

  lemma OneMoreBlock(before: string, blocks: seq<string>, at: string)
    requires Cut(at).Some? && TakenOut(before, blocks, at)
    ensures TakenOut(before, blocks + [Cut(at).value.text], Cut(at).value.after)
  {
    var b := Cut(at).value;
    Associative(blocks, [b.text], Drain(b.after).blocks);
  }

  lemma {:induction false} FeedAppend(buffer: string, chunks: seq<string>, chunk: string)
    ensures var f := Feed(buffer, chunks); var d := Drain(f.rest + chunk);
            Feed(buffer, chunks + [chunk]) == Drained(f.blocks + d.blocks, d.rest)
    decreases chunks
  {
    if chunks == [] {
      var d := Drain(buffer + chunk);
      assert chunks + [chunk] == [chunk] && [chunk][1..] == [];
      Empty(d.blocks);
      assert Feed(d.rest, []) == Drained([], d.rest);
    } else {
      var d := Drain(buffer + chunks[0]);
      OneMore(chunks, chunk);
      FeedAppend(d.rest, chunks[1..], chunk);
      var f := Feed(d.rest, chunks[1..]);
      Associative(d.blocks, f.blocks, Drain(f.rest + chunk).blocks);
    }
  }

  /** Once a reader has read all its client was sent, it has reported exactly the client's frames. */
  lemma ReaderReportsTheFrames(c: Client, r: Reader)
    requires c.Valid() && r.Valid() && Concat(r.chunks) == c.written
    ensures r.signals == Meanings(r.parses, c.frames) && r.buffer == ""
  {
    AnyChunkingDeliversTheFrames(r.parses, c.frames, r.chunks);
  }
}
