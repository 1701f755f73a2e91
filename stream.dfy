/** The stream normaliser of the chat proxy (`createStreamResponse`): it
    relays the model's streamed answer to the browser as `data:` frames. */
module RouteStream {
  import opened Types
  import opened Builtins

  /** `data: `, the prefix of every relayed line */
  const DataPrefix := "data: "
  const DoneLine := "data: [DONE]"

  /** One outgoing frame: `data: {"searchQuery":…,"searchPerformed":true}`,
      `data: {"content":…}`, or `data: [DONE]` */
  datatype Frame = MarkerFrame(searchQuery: string) | ContentFrame(content: string) | DoneFrame

  /** The wire text of a frame; `json` stands for `JSON.stringify` of the
      frame's envelope */
  function WireText(f: Frame, json: Frame -> string): (t: string)
    ensures StartsWith(t, DataPrefix)
    ensures f.DoneFrame? ==> t == "data: [DONE]\n\n"
  {
    DataPrefix + (if f.DoneFrame? then "[DONE]" else json(f)) + "\n\n"
  }

  /** The upstream delta of one `data:` payload: `None` when `JSON.parse`
      throws, `Some(None)` when `choices[0].delta.content` is absent */
  type DeltaParser = string -> Option<Option<string>>

  /** The frames one upstream line turns into */
  function LineFrames(line: string, parse: DeltaParser): seq<Frame>
  {
    if StartsWith(line, DataPrefix) && line != DoneLine then
      match parse(line[|DataPrefix|..])
      case Some(Some(content)) => if content != "" then [ContentFrame(content)] else []
      case _ => []
    else if line == DoneLine then [DoneFrame]
    else []
  }

  function LinesFrames(lines: seq<string>, parse: DeltaParser): seq<Frame>
  {
    if lines == [] then [] else LinesFrames(lines[..|lines| - 1], parse) + LineFrames(lines[|lines| - 1], parse)
  }

  /** The frames of one decoded chunk, split on its own at `\n` */
  function ChunkFrames(chunk: string, parse: DeltaParser): seq<Frame>
  {
    LinesFrames(Split(chunk, '\n'), parse)
  }

  /** `ChunkFrames` as a function value, for `FlatMap` */
  function ChunkRelay(parse: DeltaParser): string -> seq<Frame>
  {
    chunk => ChunkFrames(chunk, parse)
  }

  /** The frames of the chunks, each on its own, in their order */
  function ChunksFrames(chunks: seq<string>, parse: DeltaParser): seq<Frame>
  {
    FlatMap(ChunkRelay(parse), chunks)
  }

  /** Everything the stream carries: the marker, if any, then the frames of
      each chunk in order */
  function StreamFrames(marker: Option<string>, chunks: seq<string>, parse: DeltaParser): seq<Frame>
  {
    Opening(marker) + ChunksFrames(chunks, parse)
  }

  /** The marker frame, when there is a marker */
  function Opening(marker: Option<string>): seq<Frame>
  {
    if marker.Some? then [MarkerFrame(marker.value)] else []
  }

  /** What one `reader.read()` gives */
  datatype ReadResult = Chunk(text: string) | Finished | ReadFailed

  /** The upstream body: the decoded chunks it delivers and whether the read
      after the last of them throws instead of reporting the end */
  class Reader {
    const chunks: seq<string>
    const failsAtEnd: bool
    var position: nat

    constructor (chunks: seq<string>, failsAtEnd: bool)
      ensures this.chunks == chunks && this.failsAtEnd == failsAtEnd && position == 0
    {
      this.chunks := chunks;
      this.failsAtEnd := failsAtEnd;
      position := 0;
    }

    method Read() returns (r: ReadResult)
      requires position <= |chunks|
      modifies this
      ensures position <= |chunks|
      ensures old(position) < |chunks| ==> r == Chunk(chunks[old(position)]) && position == old(position) + 1
      ensures old(position) == |chunks| ==>
        r == (if failsAtEnd then ReadFailed else Finished) && position == old(position)
    {
      if position < |chunks| {
        r := Chunk(chunks[position]);
        position := position + 1;
      } else if failsAtEnd {
        r := ReadFailed;
      } else {
        r := Finished;
      }
    }
  }

  /** The outgoing stream's controller: what has been enqueued, and how
      many times it was closed */
  class Controller {
    var frames: seq<Frame>
    var closes: nat

    constructor ()
      ensures frames == [] && closes == 0
    {
      frames := [];
      closes := 0;
    }

    /** A closed stream takes no more frames */
    method Enqueue(f: Frame)
      requires closes == 0
      modifies this
      ensures frames == old(frames) + [f] && closes == old(closes)
    {
      frames := frames + [f];
    }

    method Close()
      modifies this
      ensures frames == old(frames) && closes == old(closes) + 1
    {
      closes := closes + 1;
    }
  }

  /** The body of the loop over lines: a `data:` line other than the done
      line is parsed and re-enqueued as a content frame when its delta is
      non-empty; the done line is forwarded; anything else is dropped. */
  method RelayLine(controller: Controller, line: string, parse: DeltaParser)
    requires controller.closes == 0
    modifies controller
    ensures controller.frames == old(controller.frames) + LineFrames(line, parse)
    ensures controller.closes == old(controller.closes)
  {
    if StartsWith(line, DataPrefix) && line != DoneLine {
      var delta := parse(line[|DataPrefix|..]);
      if delta.Some? && delta.value.Some? && delta.value.value != "" {
        controller.Enqueue(ContentFrame(delta.value.value));
      }
    } else if line == DoneLine {
      controller.Enqueue(DoneFrame);
    }
  }

  /** `for (const line of lines)`: the lines in their order */
  method RelayLines(controller: Controller, lines: seq<string>, parse: DeltaParser)
    requires controller.closes == 0
    modifies controller
    ensures controller.frames == old(controller.frames) + LinesFrames(lines, parse)
    ensures controller.closes == old(controller.closes)
  {
    for j := 0 to |lines|
      invariant controller.frames == old(controller.frames) + LinesFrames(lines[..j], parse)
      invariant controller.closes == old(controller.closes)
    {
      assert lines[..j + 1][..j] == lines[..j];
      RelayLine(controller, lines[j], parse);
    }
    assert lines[..|lines|] == lines;
  }

  /** One decoded chunk, split on its own at `\n` */
  method RelayChunk(controller: Controller, chunk: string, parse: DeltaParser)
    requires controller.closes == 0
    modifies controller
    ensures controller.frames == old(controller.frames) + ChunkFrames(chunk, parse)
    ensures controller.closes == old(controller.closes)
  {
    var lines := Split(chunk, '\n');
    RelayLines(controller, lines, parse);
  }

  lemma ChunksFramesStep(chunks: seq<string>, i: nat, parse: DeltaParser)
    requires i < |chunks|
    ensures ChunksFrames(chunks[..i + 1], parse) == ChunksFrames(chunks[..i], parse) + ChunkFrames(chunks[i], parse)
  {
    FlatMapStep(ChunkRelay(parse), chunks, i);
  }

  /** One turn of the read loop: a delivered chunk is relayed; the end of
      the body, or a read error, adds nothing and tells the loop to stop. */
  method RelayNext(controller: Controller, reader: Reader, parse: DeltaParser) returns (stop: bool)
    requires reader.position <= |reader.chunks| && controller.closes == 0
    modifies controller, reader
    ensures stop <==> old(reader.position) == |reader.chunks|
    ensures reader.position == if stop then old(reader.position) else old(reader.position) + 1
    ensures stop ==> controller.frames == old(controller.frames)
    ensures !stop ==> controller.frames == old(controller.frames) + ChunkFrames(reader.chunks[old(reader.position)], parse)
    ensures controller.closes == old(controller.closes)
  {
    var r := reader.Read();
    if !r.Chunk? {
      return true;
    }
    RelayChunk(controller, r.text, parse);
    return false;
  }

  /** The read loop: every chunk the reader delivers is relayed in turn
      until the reader reports the end or a read throws; a read error ends
      the loop like the end does, without a frame of its own. */
  method Pump(controller: Controller, reader: Reader, parse: DeltaParser)
    requires reader.position == 0 && controller.closes == 0
    modifies controller, reader
    ensures controller.frames == old(controller.frames) + ChunksFrames(reader.chunks, parse)
    ensures controller.closes == old(controller.closes)
  {
    ghost var chunks, delivered := reader.chunks, 0;
    while true
      invariant reader.chunks == chunks && reader.position == delivered <= |chunks|
      invariant controller.frames == old(controller.frames) + ChunksFrames(chunks[..delivered], parse)
      invariant controller.closes == old(controller.closes)
      decreases |chunks| - delivered
    {
      ghost var before := controller.frames;
      var stop := RelayNext(controller, reader, parse);
      if stop {
        break;
      }
      ChunksFramesStep(chunks, delivered, parse);
      ConcatAssoc(old(controller.frames), ChunksFrames(chunks[..delivered], parse), ChunkFrames(chunks[delivered], parse));
      delivered := delivered + 1;
    }
    assert chunks[..delivered] == chunks;
  }

  /** The `start` callback of the outgoing stream: the marker first, then
      the upstream body, and one close on every exit (no body, end of body,
      read error). `body` is `None` when the response has no readable
      body; a read error adds no frame. */
  method StreamBody(marker: Option<string>, body: Option<seq<string>>, failsAtEnd: bool, parse: DeltaParser)
    returns (frames: seq<Frame>, closes: nat)
    ensures frames == StreamFrames(marker, if body.Some? then body.value else [], parse)
    ensures closes == 1
  {
    var controller := new Controller();
    if marker.Some? {
      controller.Enqueue(MarkerFrame(marker.value));
    }
    assert controller.frames == Opening(marker);
    if body.None? {
      controller.Close();
      assert ChunksFrames([], parse) == [];
      return controller.frames, controller.closes;
    }
    var reader := new Reader(body.value, failsAtEnd);
    Pump(controller, reader, parse);
    assert controller.frames == StreamFrames(marker, body.value, parse);
    controller.Close();
    return controller.frames, controller.closes;
  }

  /** The mapping of one line: a `data:` line other than `data: [DONE]`
      gives exactly one content frame when its delta is non-empty, the done
      line gives the done frame, and every other line gives nothing. */
  lemma LineMapping(line: string, parse: DeltaParser)
    ensures |LineFrames(line, parse)| <= 1
    ensures LineFrames(line, parse) == [DoneFrame] <==> line == DoneLine
    ensures forall c :: LineFrames(line, parse) == [ContentFrame(c)] <==>
      (StartsWith(line, DataPrefix) && line != DoneLine
       && parse(line[|DataPrefix|..]) == Some(Some(c)) && c != "")
    ensures !StartsWith(line, DataPrefix) ==> LineFrames(line, parse) == []
  {
  }

  /** No carry-over between reads: the frames of a run of chunks are the
      frames of each chunk taken on its own, in order. */
  lemma ChunksFramesAppend(a: seq<string>, b: seq<string>, parse: DeltaParser)
    ensures ChunksFrames(a + b, parse) == ChunksFrames(a, parse) + ChunksFrames(b, parse)
  {
    FlatMapAppend(ChunkRelay(parse), a, b);
  }

  /** A line cut in two by a chunk boundary is lost: when the first piece
      does not parse and the second is not itself a `data:` line, neither
      piece gives a frame, whatever the whole line would have given. */
  lemma SplitLineDropped(payload: string, k: nat, parse: DeltaParser)
    requires k <= |payload| && '\n' !in payload
    requires parse(payload[..k]) == None && payload[..k] != "[DONE]"
    requires !StartsWith(payload[k..], DataPrefix)
    ensures ChunksFrames([DataPrefix + payload[..k], payload[k..]], parse) == []
  {
    var first, second := DataPrefix + payload[..k], payload[k..];
    assert '\n' !in first by {
      assert forall i :: 0 <= i < |first| ==> first[i] == (DataPrefix + payload)[i];
    }
    assert first[|DataPrefix|..] == payload[..k];
    assert DoneLine[|DataPrefix|..] == "[DONE]";
    assert LineFrames(first, parse) == [];
    assert second != DoneLine;
    assert LineFrames(second, parse) == [];
    WholeLineChunk(first, parse);
    WholeLineChunk(second, parse);
    TwoChunks(first, second, parse);
  }

  /** A chunk without a line break is one line. */
  lemma WholeLineChunk(line: string, parse: DeltaParser)
    requires '\n' !in line
    ensures ChunkFrames(line, parse) == LineFrames(line, parse)
  {
    assert Split(line, '\n') == [line];
    assert [line][..0] == [];
  }

  lemma TwoChunks(a: string, b: string, parse: DeltaParser)
    ensures ChunksFrames([a, b], parse) == ChunkFrames(a, parse) + ChunkFrames(b, parse)
  {
    OneChunk(a, parse);
    OneChunk(b, parse);
    ChunksFramesAppend([a], [b], parse);
    assert [a] + [b] == [a, b];
  }

  lemma OneChunk(chunk: string, parse: DeltaParser)
    ensures ChunksFrames([chunk], parse) == ChunkFrames(chunk, parse)
  {
    FlatMapOne(ChunkRelay(parse), chunk);
  }

  /** What a line of the upstream body can give */
  predicate RelayedFrame(f: Frame)
  {
    !f.MarkerFrame? && (f.ContentFrame? ==> f.content != "")
  }

  predicate AllRelayed(frames: seq<Frame>)
  {
    forall i :: 0 <= i < |frames| ==> RelayedFrame(frames[i])
  }

  lemma RelayedAppend(a: seq<Frame>, b: seq<Frame>)
    requires AllRelayed(a) && AllRelayed(b)
    ensures AllRelayed(a + b)
  {
    assert forall i :: |a| <= i < |a + b| ==> (a + b)[i] == b[i - |a|];
  }

  lemma {:induction false} LinesRelayed(lines: seq<string>, parse: DeltaParser)
    ensures AllRelayed(LinesFrames(lines, parse))
    decreases |lines|
  {
    if lines != [] {
      LinesRelayed(lines[..|lines| - 1], parse);
      RelayedAppend(LinesFrames(lines[..|lines| - 1], parse), LineFrames(lines[|lines| - 1], parse));
    }
  }

  /** The body never produces a marker frame, and every content frame it
      produces carries a non-empty delta. */
  lemma {:induction false} BodyFrames(chunks: seq<string>, parse: DeltaParser)
    ensures forall i :: 0 <= i < |ChunksFrames(chunks, parse)| ==> RelayedFrame(ChunksFrames(chunks, parse)[i])
    decreases |chunks|
  {
    if chunks != [] {
      BodyFrames(chunks[..|chunks| - 1], parse);
      var last := chunks[|chunks| - 1];
      LinesRelayed(Split(last, '\n'), parse);
      RelayedAppend(ChunksFrames(chunks[..|chunks| - 1], parse), ChunkFrames(last, parse));
    }
  }

  /** The marker is sent once, as the very first frame, and only when there
      is a marker; every other frame comes from the upstream body. */
  lemma MarkerFirstAndOnce(marker: Option<string>, chunks: seq<string>, parse: DeltaParser)
    ensures var frames := StreamFrames(marker, chunks, parse);
      (forall i :: 0 < i < |frames| ==> !frames[i].MarkerFrame?)
      && (marker.Some? <==> |frames| > 0 && frames[0].MarkerFrame?)
      && (marker.Some? ==> frames[0] == MarkerFrame(marker.value))
  {
    BodyFrames(chunks, parse);
    var body := ChunksFrames(chunks, parse);
    var frames := StreamFrames(marker, chunks, parse);
    if marker.Some? {
      assert frames == [MarkerFrame(marker.value)] + body;
      assert forall i :: 0 < i < |frames| ==> frames[i] == body[i - 1];
    } else {
      assert frames == body;
    }
  }
}
