/** The chat hook of the browser (`useChat`): the message list of the open
    conversation, the loading and search flags, and the operations that
    send a message, read the streamed answer into the last assistant
    message, and cut the list back for a regeneration or an edit. */
module ChatHook {
  import opened Types
  import opened Builtins
  import RouteStream

  const NoBodyError := "No response body"
  const UnknownError := "Unknown error"

  /** The text that replaces the answer when the turn fails */
  function Notice(message: string): string
  {
    "⚠️ エラーが発生しました: " + message + "\n\n.env.local にAPIキーが正しく設定されているか確認してください。"
  }

  /** `JSON.parse(line.slice(6))`, read as the three fields the hook looks
      at: an absent or falsy `searchPerformed` is `false`, an absent or
      empty `searchQuery` or `content` is `""` */
  datatype Payload = Payload(searchPerformed: bool, searchQuery: string, content: string)

  /** `None` when `JSON.parse` throws */
  type PayloadParser = string -> Option<Payload>

  /** The exception that ends a turn: the request was aborted, or an
      `Error` with its message */
  datatype Failure = AbortError | Failed(message: string)

  /** `response.json()` of a failed response: it throws, or it gives the
      `error` field (`""` when absent or empty) */
  datatype ErrorBody = Unreadable | ErrorField(error: string)

  /** The body of a response: the decoded chunks that `reader.read()`
      delivers, then either the end (`None`) or the exception a read throws */
  datatype Body = Body(chunks: seq<string>, end: Option<Failure>)

  /** What `fetch('/api/chat')` gives: it rejects, or a response arrives with
      its status, the body a failed response is read as, and its readable
      body, if any */
  datatype Reply =
    | Rejected(failure: Failure)
    | Response(status: nat, errorBody: ErrorBody, body: Option<Body>)

  /** `errorData.error || \`HTTP Error: ${response.status}\`` */
  function HttpErrorMessage(status: nat, errorBody: ErrorBody): string
  {
    match errorBody
    case Unreadable => UnknownError
    case ErrorField(e) => if e != "" then e else "HTTP Error: " + NatToString(status)
  }

  /** The user message a send appends: the content trimmed */
  function UserMessage(id: string, content: string, timestamp: int): Message
  {
    Message(id, User, Trim(content), timestamp, None, None)
  }

  /** The assistant message a send appends, still empty */
  function Placeholder(id: string, timestamp: int): Message
  {
    Message(id, Assistant, "", timestamp, None, None)
  }

  /** `.map(m => ({ role: m.role, content: m.content }))` */
  function Project(messages: seq<Message>): (wire: seq<WireMessage>)
    ensures |wire| == |messages|
    ensures forall i :: 0 <= i < |messages| ==>
      wire[i] == WireMessage(RoleName(messages[i].role), messages[i].content)
  {
    if messages == [] then [] else Project(messages[..|messages| - 1]) + [Project1(messages[|messages| - 1])]
  }

  function Project1(m: Message): WireMessage
  {
    WireMessage(RoleName(m.role), m.content)
  }

  /** The update of `setMessages(prev => …)`: the content of the last
      message is replaced when that message is the assistant's; the list
      is otherwise left as it is */
  function WithLastContent(messages: seq<Message>, content: string): (r: seq<Message>)
    ensures |r| == |messages|
    ensures forall i :: 0 <= i < |messages| - 1 ==> r[i] == messages[i]
    ensures |messages| > 0 ==>
      var last := messages[|messages| - 1];
      r[|r| - 1] == if last.role == Assistant then last.(content := content) else last
  {
    if |messages| > 0 && messages[|messages| - 1].role == Assistant then
      messages[..|messages| - 1] + [messages[|messages| - 1].(content := content)]
    else messages
  }

  /** The payload of a `data:` line other than `data: [DONE]`; `None` for
      every other line and for a payload that does not parse */
  function LineEvent(line: string, parse: PayloadParser): Option<Payload>
  {
    if StartsWith(line, RouteStream.DataPrefix) && line != RouteStream.DoneLine then
      parse(line[|RouteStream.DataPrefix|..])
    else None
  }

  /** The text a line adds to the answer: the `content` of a payload that is
      not the search event */
  function LineText(line: string, parse: PayloadParser): string
  {
    match LineEvent(line, parse)
    case Some(p) => if p.searchPerformed then "" else p.content
    case None => ""
  }

  function LineTexts(parse: PayloadParser): string -> string
  {
    line => LineText(line, parse)
  }

  /** The text of one chunk, split on its own at `\n` */
  function ChunkText(chunk: string, parse: PayloadParser): string
  {
    FlatMap(LineTexts(parse), Split(chunk, '\n'))
  }

  function ChunkTexts(parse: PayloadParser): string -> string
  {
    chunk => ChunkText(chunk, parse)
  }

  /** `accumulatedContent` at the end of the read loop */
  function StreamText(chunks: seq<string>, parse: PayloadParser): string
  {
    FlatMap(ChunkTexts(parse), chunks)
  }

  /** The search indicator of the hook: `isSearching` and `searchQuery` */
  datatype Flags = Flags(searching: bool, query: Option<string>)

  /** The line carries the event `{ searchPerformed: true, … }` */
  predicate IsSearchEvent(line: string, parse: PayloadParser)
  {
    LineEvent(line, parse).Some? && LineEvent(line, parse).value.searchPerformed
  }

  /** `data.searchQuery || null` of a search event */
  function EventQuery(line: string, parse: PayloadParser): Option<string>
    requires IsSearchEvent(line, parse)
  {
    var q := LineEvent(line, parse).value.searchQuery;
    if q != "" then Some(q) else None
  }

  /** The indicator after one line: a search event sets it, every other line
      leaves it */
  function LineFlags(line: string, parse: PayloadParser, f: Flags): Flags
  {
    if IsSearchEvent(line, parse) then Flags(true, EventQuery(line, parse)) else f
  }

  /** The indicator after the lines in their order: it is on when it was on
      or some line is a search event, it holds the query of the last search
      event, and it is left as it was when no line is one */
  function LinesFlags(lines: seq<string>, parse: PayloadParser, f: Flags): (r: Flags)
    ensures r.searching <==> f.searching || exists i :: 0 <= i < |lines| && IsSearchEvent(lines[i], parse)
    ensures (forall i :: 0 <= i < |lines| ==> !IsSearchEvent(lines[i], parse)) ==> r == f
    ensures forall i :: 0 <= i < |lines| && IsSearchEvent(lines[i], parse)
                        && (forall j :: i < j < |lines| ==> !IsSearchEvent(lines[j], parse))
                        ==> r == Flags(true, EventQuery(lines[i], parse))
  {
    if lines == [] then f
    else
      var front := lines[..|lines| - 1];
      var flags := LineFlags(lines[|lines| - 1], parse, LinesFlags(front, parse, f));
      assert forall i :: 0 <= i < |front| ==> front[i] == lines[i];
      flags
  }

  /** The indicator after `a` and then `b` */
  lemma {:induction false} LinesFlagsAppend(a: seq<string>, b: seq<string>, parse: PayloadParser, f: Flags)
    ensures LinesFlags(a + b, parse, f) == LinesFlags(b, parse, LinesFlags(a, parse, f))
    decreases |b|
  {
    if b == [] {
      assert a + b == a;
    } else {
      LinesFlagsAppend(a, b[..|b| - 1], parse, f);
      assert (a + b)[..|a + b| - 1] == a + b[..|b| - 1];
      assert (a + b)[|a + b| - 1] == b[|b| - 1];
    }
  }

  function ChunkLines(): string -> seq<string>
  {
    chunk => Split(chunk, '\n')
  }

  /** The lines of all chunks, each chunk split on its own */
  function BodyLines(chunks: seq<string>): seq<string>
  {
    FlatMap(ChunkLines(), chunks)
  }

  /** The lines the read loop goes through: none unless a readable body
      arrived with an ok status */
  function StreamedLines(reply: Reply): seq<string>
  {
    if reply.Response? && IsOk(reply.status) && reply.body.Some? then BodyLines(reply.body.value.chunks)
    else []
  }

  /** The exception the `try` block ends with, if any */
  function Thrown(reply: Reply): Option<Failure>
  {
    match reply
    case Rejected(f) => Some(f)
    case Response(status, errorBody, body) =>
      if !IsOk(status) then Some(Failed(HttpErrorMessage(status, errorBody)))
      else if body.None? then Some(Failed(NoBodyError))
      else body.value.end
  }

  /** The text streamed into the answer before the turn ended */
  function Streamed(reply: Reply, parse: PayloadParser): string
  {
    if reply.Response? && IsOk(reply.status) && reply.body.Some? then StreamText(reply.body.value.chunks, parse)
    else ""
  }

  /** The message list a send leaves behind: the earlier messages, the user
      message, and the answer holding the streamed text, replaced by the
      notice when the turn failed with anything but an abort */
  function SentMessages(before: seq<Message>, user: Message, answer: Message, reply: Reply,
                        parse: PayloadParser): seq<Message>
  {
    var streamed := before + [user, answer.(content := Streamed(reply, parse))];
    match Thrown(reply)
    case Some(Failed(m)) => WithLastContent(streamed, Notice(m))
    case _ => streamed
  }

  /** `findLastIndex(m => m.role === 'user')` */
  function LastUserIndex(messages: seq<Message>): (k: int)
    ensures -1 <= k < |messages|
    ensures k >= 0 ==> messages[k].role == User
    ensures forall j :: k < j < |messages| ==> messages[j].role != User
  {
    if messages == [] then -1
    else if messages[|messages| - 1].role == User then |messages| - 1
    else LastUserIndex(messages[..|messages| - 1])
  }

  /** `findIndex(m => m.id === id)` */
  function IndexOfId(messages: seq<Message>, id: string): (k: int)
    ensures -1 <= k < |messages|
    ensures k >= 0 ==> messages[k].id == id
    ensures forall j :: 0 <= j < |messages| && (k == -1 || j < k) ==> messages[j].id != id
  {
    if messages == [] then -1
    else if messages[0].id == id then 0
    else
      var k := IndexOfId(messages[1..], id);
      if k == -1 then -1 else k + 1
  }

  /** Replacing the content of an assistant message at the end */
  lemma LastReplaced(front: seq<Message>, last: Message, content: string)
    requires last.role == Assistant
    ensures WithLastContent(front + [last], content) == front + [last.(content := content)]
  {
    assert (front + [last])[..|front|] == front;
  }

  /** A send appends exactly two messages and leaves the earlier ones as
      they were: the user message holding the trimmed text, then the
      answer, which keeps its id, role and time and holds the notice after
      a failure, and otherwise (the end of the stream, or an abort) the text
      streamed so far. */
  lemma SendShape(before: seq<Message>, id: string, content: string, time: int, answer: Message, reply: Reply,
                  parse: PayloadParser)
    requires answer.role == Assistant
    ensures var after := SentMessages(before, UserMessage(id, content, time), answer, reply, parse);
      var failure := Thrown(reply);
      |after| == |before| + 2 && after[..|before|] == before
      && after[|before|] == UserMessage(id, content, time)
      && after[|before|].role == User && after[|before|].content == Trim(content)
      && after[|before| + 1].id == answer.id && after[|before| + 1].role == Assistant
      && after[|before| + 1].timestamp == answer.timestamp
      && after[|before| + 1].content
         == if failure.Some? && failure.value.Failed? then Notice(failure.value.message) else Streamed(reply, parse)
  {
    var user := UserMessage(id, content, time);
    var last := answer.(content := Streamed(reply, parse));
    var streamed := before + [user, last];
    assert streamed == (before + [user]) + [last];
    LastReplaced(before + [user], last, if Thrown(reply).Some? && Thrown(reply).value.Failed? then Notice(Thrown(reply).value.message) else "");
  }

  /** An abort, before the response or during the read, keeps whatever text
      had arrived; no other failure lets any streamed text survive. */
  lemma AbortKeepsText(before: seq<Message>, id: string, content: string, time: int, answer: Message, reply: Reply,
                       parse: PayloadParser)
    requires answer.role == Assistant
    ensures var user := UserMessage(id, content, time);
      Thrown(reply) == Some(AbortError) ==>
        SentMessages(before, user, answer, reply, parse) == before + [user, answer.(content := Streamed(reply, parse))]
    ensures Thrown(reply).Some? && Thrown(reply).value.Failed? ==>
      SentMessages(before, UserMessage(id, content, time), answer, reply, parse)[|before| + 1].content
      == Notice(Thrown(reply).value.message)
  {
    SendShape(before, id, content, time, answer, reply, parse);
  }

  /** The request holds the earlier messages and the trimmed user message,
      and never the empty answer. */
  lemma RequestBody(before: seq<Message>, id: string, content: string, timestamp: int)
    ensures Project(before + [UserMessage(id, content, timestamp)])
         == Project(before) + [WireMessage("user", Trim(content))]
  {
    var all := before + [UserMessage(id, content, timestamp)];
    assert all[..|all| - 1] == before;
  }

  /** What one line adds to the answer: the content of a parsed `data:`
      payload that is not the search event, and nothing for the search
      event, the done line, a line that does not parse, or any other line. */
  lemma LineTextCases(line: string, parse: PayloadParser)
    ensures !StartsWith(line, RouteStream.DataPrefix) ==> LineText(line, parse) == ""
    ensures line == RouteStream.DoneLine ==> LineText(line, parse) == ""
    ensures LineEvent(line, parse).None? ==> LineText(line, parse) == ""
    ensures LineEvent(line, parse).Some? && LineEvent(line, parse).value.searchPerformed ==> LineText(line, parse) == ""
    ensures LineEvent(line, parse).Some? ==>
      StartsWith(line, RouteStream.DataPrefix) && line != RouteStream.DoneLine
      && LineEvent(line, parse) == parse(line[|RouteStream.DataPrefix|..])
      && (!LineEvent(line, parse).value.searchPerformed ==> LineText(line, parse) == LineEvent(line, parse).value.content)
  {
  }

  /** No carry-over between reads: the text of a run of chunks is the text
      of each chunk taken on its own, in order. */
  lemma StreamTextAppend(a: seq<string>, b: seq<string>, parse: PayloadParser)
    ensures StreamText(a + b, parse) == StreamText(a, parse) + StreamText(b, parse)
  {
    FlatMapAppend(ChunkTexts(parse), a, b);
  }

  /** The state of the hook */
  class ChatSession {
    var messages: seq<Message>
    var isLoading: bool
    var isSearching: bool
    var searchQuery: Option<string>

    constructor ()
      ensures messages == [] && !isLoading && !isSearching && searchQuery == None
    {
      messages := [];
      isLoading := false;
      isSearching := false;
      searchQuery := None;
    }

    /** The body of the loop over lines: the search event sets the search
        flags and leaves the messages alone; a payload with content extends
        the accumulated text and writes it into the answer; every other
        line changes nothing. */
    method ConsumeLine(line: string, parse: PayloadParser, acc: string, ghost front: seq<Message>,
                       ghost answer: Message)
      returns (acc': string)
      requires answer.role == Assistant
      requires messages == front + [answer.(content := acc)]
      modifies this
      ensures acc' == acc + LineText(line, parse)
      ensures messages == front + [answer.(content := acc')]
      ensures isLoading == old(isLoading)
      ensures var e := LineEvent(line, parse);
        if e.Some? && e.value.searchPerformed then
          isSearching && searchQuery == (if e.value.searchQuery != "" then Some(e.value.searchQuery) else None)
        else isSearching == old(isSearching) && searchQuery == old(searchQuery)
    {
      acc' := acc;
      if StartsWith(line, RouteStream.DataPrefix) && line != RouteStream.DoneLine {
        var data := parse(line[|RouteStream.DataPrefix|..]);
        if data.Some? {
          if data.value.searchPerformed {
            isSearching := true;
            searchQuery := if data.value.searchQuery != "" then Some(data.value.searchQuery) else None;
            return;
          }
          if data.value.content != "" {
            acc' := acc + data.value.content;
            LastReplaced(front, answer.(content := acc), acc');
            messages := WithLastContent(messages, acc');
          }
        }
      }
    }

    /** `for (const line of chunk.split('\n'))` */
    method ConsumeChunk(chunk: string, parse: PayloadParser, acc: string, ghost front: seq<Message>,
                        ghost answer: Message)
      returns (acc': string)
      requires answer.role == Assistant
      requires messages == front + [answer.(content := acc)]
      modifies this
      ensures acc' == acc + ChunkText(chunk, parse)
      ensures messages == front + [answer.(content := acc')]
      ensures isLoading == old(isLoading)
      ensures Flags(isSearching, searchQuery)
           == LinesFlags(Split(chunk, '\n'), parse, Flags(old(isSearching), old(searchQuery)))
    {
      var lines := Split(chunk, '\n');
      ghost var start := Flags(isSearching, searchQuery);
      acc' := acc;
      for j := 0 to |lines|
        invariant acc' == acc + FlatMap(LineTexts(parse), lines[..j])
        invariant messages == front + [answer.(content := acc')]
        invariant isLoading == old(isLoading)
        invariant Flags(isSearching, searchQuery) == LinesFlags(lines[..j], parse, start)
      {
        acc' := ConsumeLine(lines[j], parse, acc', front, answer);
        FlatMapStep(LineTexts(parse), lines, j);
        ConcatAssoc(acc, FlatMap(LineTexts(parse), lines[..j]), LineText(lines[j], parse));
        assert lines[..j + 1][..j] == lines[..j];
      }
      assert lines[..|lines|] == lines;
    }

    /** The read loop: the chunks in their order, the text accumulating
        across them into the answer */
    method ConsumeBody(chunks: seq<string>, parse: PayloadParser, ghost front: seq<Message>,
                       ghost answer: Message)
      requires answer.role == Assistant && answer.content == ""
      requires messages == front + [answer]
      modifies this
      ensures messages == front + [answer.(content := StreamText(chunks, parse))]
      ensures isLoading == old(isLoading)
      ensures Flags(isSearching, searchQuery)
           == LinesFlags(BodyLines(chunks), parse, Flags(old(isSearching), old(searchQuery)))
    {
      var acc := "";
      assert answer.(content := acc) == answer;
      ghost var start := Flags(isSearching, searchQuery);
      var i := 0;
      while i < |chunks|
        invariant i <= |chunks|
        invariant acc == StreamText(chunks[..i], parse)
        invariant messages == front + [answer.(content := acc)]
        invariant isLoading == old(isLoading)
        invariant Flags(isSearching, searchQuery) == LinesFlags(BodyLines(chunks[..i]), parse, start)
      {
        acc := ConsumeChunk(chunks[i], parse, acc, front, answer);
        FlatMapStep(ChunkTexts(parse), chunks, i);
        FlatMapStep(ChunkLines(), chunks, i);
        LinesFlagsAppend(BodyLines(chunks[..i]), Split(chunks[i], '\n'), parse, start);
        i := i + 1;
      }
      assert chunks[..i] == chunks;
    }

    /** The `try` block after the request is built: the exception it ends
        with, if any, and the answer holding what was streamed before */
    method Exchange(reply: Reply, parse: PayloadParser, ghost front: seq<Message>, ghost answer: Message)
      returns (failure: Option<Failure>)
      requires answer.role == Assistant && answer.content == ""
      requires messages == front + [answer]
      modifies this
      ensures failure == Thrown(reply)
      ensures messages == front + [answer.(content := Streamed(reply, parse))]
      ensures isLoading == old(isLoading)
      ensures Flags(isSearching, searchQuery)
           == LinesFlags(StreamedLines(reply), parse, Flags(old(isSearching), old(searchQuery)))
    {
      assert answer.(content := "") == answer;
      match reply {
        case Rejected(f) =>
          failure := Some(f);
        case Response(status, errorBody, body) =>
          if !IsOk(status) {
            failure := Some(Failed(HttpErrorMessage(status, errorBody)));
          } else if body.None? {
            failure := Some(Failed(NoBodyError));
          } else {
            ConsumeBody(body.value.chunks, parse, front, answer);
            failure := body.value.end;
          }
      }
    }

    /** `sendMessage(content)`: nothing happens for a blank text or while a
        turn is loading; otherwise the user message and an empty answer are
        appended, the previous messages and the user message are posted,
        the answer is streamed in, a failure other than an abort replaces
        it with the notice, and the flags are reset on every exit. The
        posted list is returned, `None` when nothing is sent. */
    method SendMessage(content: string, userId: string, answerId: string, userTime: int, answerTime: int,
                       reply: Reply, parse: PayloadParser)
      returns (request: Option<seq<WireMessage>>)
      modifies this
      ensures Trim(content) == "" || old(isLoading) ==>
        request == None && messages == old(messages) && isLoading == old(isLoading)
        && isSearching == old(isSearching) && searchQuery == old(searchQuery)
      ensures Trim(content) != "" && !old(isLoading) ==>
        var user := UserMessage(userId, content, userTime);
        request == Some(Project(old(messages) + [user]))
        && messages == SentMessages(old(messages), user, Placeholder(answerId, answerTime), reply, parse)
        && !isLoading && !isSearching && searchQuery == None
    {
      if Trim(content) == "" || isLoading {
        return None;
      }
      var user := UserMessage(userId, content, userTime);
      var answer := Placeholder(answerId, answerTime);
      var before := messages;
      messages := messages + [user, answer];
      assert messages == (before + [user]) + [answer];
      isLoading := true;
      isSearching := false;
      searchQuery := None;
      request := Some(Project(before + [user]));
      var failure := Exchange(reply, parse, before + [user], answer);
      ghost var streamed := before + [user, answer.(content := Streamed(reply, parse))];
      assert messages == streamed;
      if failure.Some? && failure.value.Failed? {
        messages := WithLastContent(messages, Notice(failure.value.message));
      }
      assert messages == SentMessages(before, user, answer, reply, parse);
      isLoading := false;
      isSearching := false;
      searchQuery := None;
    }

    /** `regenerateLastMessage()`: unless a turn is loading, there are fewer
        than two messages, or no user message, the list is cut back to what
        precedes the last user message, whose content is returned to be
        sent again. */
    method RegenerateLastMessage() returns (resend: Option<string>)
      modifies this
      ensures var k := LastUserIndex(old(messages));
        if old(isLoading) || |old(messages)| < 2 || k == -1 then
          resend == None && messages == old(messages)
        else
          resend == Some(old(messages)[k].content) && messages == old(messages)[..k]
      ensures isLoading == old(isLoading) && isSearching == old(isSearching) && searchQuery == old(searchQuery)
    {
      if isLoading || |messages| < 2 {
        return None;
      }
      var k := LastUserIndex(messages);
      if k == -1 {
        return None;
      }
      resend := Some(messages[k].content);
      messages := messages[..k];
    }

    /** `editAndResend(id, newContent)`: unless a turn is loading or no
        message has the id, the list is cut back to what precedes the first
        message with that id, and the new content is returned to be sent. */
    method EditAndResend(id: string, newContent: string) returns (resend: Option<string>)
      modifies this
      ensures var k := IndexOfId(old(messages), id);
        if old(isLoading) || k == -1 then
          resend == None && messages == old(messages)
        else
          resend == Some(newContent) && messages == old(messages)[..k]
      ensures isLoading == old(isLoading) && isSearching == old(isSearching) && searchQuery == old(searchQuery)
    {
      if isLoading {
        return None;
      }
      var k := IndexOfId(messages, id);
      if k == -1 {
        return None;
      }
      messages := messages[..k];
      resend := Some(newContent);
    }

    /** `stopGeneration()`: both flags drop; the query is left as it is */
    method StopGeneration()
      modifies this
      ensures !isLoading && !isSearching
      ensures messages == old(messages) && searchQuery == old(searchQuery)
    {
      isLoading := false;
      isSearching := false;
    }

    /** `clearMessages()`: an empty list and the flags reset */
    method ClearMessages()
      modifies this
      ensures messages == [] && !isLoading && !isSearching && searchQuery == None
    {
      messages := [];
      isLoading := false;
      isSearching := false;
      searchQuery := None;
    }
  }
}
