/** The chat proxy: it forwards the conversation to the completion API,
    runs the web-search tool when the model asks for it, and relays the
    model's streamed answer to the browser as `data:` frames. */
module Route {
  import opened Types
  import opened Builtins
  import Serper

  /** At most this many client turns are forwarded */
  const HistoryLimit: nat := 40

  const MissingKeyError := "OPENROUTER_API_KEY が設定されていません。"
  const StreamError := "Stream error"
  const SearchToolName := "web_search"

  /** One entry of `tool_calls`: its id, `function.name` and the raw
      `function.arguments` text */
  datatype ToolCall = ToolCall(id: string, name: string, arguments: string)

  /** `choices[0].message` of the decision reply; an absent `tool_calls`
      is the empty list */
  datatype ChoiceMessage = ChoiceMessage(content: Option<string>, toolCalls: seq<ToolCall>)

  /** One turn of the conversation sent upstream */
  datatype Turn =
    | SystemTurn(content: string)                    // the fixed instruction
    | ClientTurn(message: WireMessage)               // a turn the client posted
    | DecisionTurn(request: ChoiceMessage)           // the model's tool request, echoed as is
    | ToolTurn(toolCallId: string, content: string)  // the search digest for that request

  /** The decision call: the request or the decoding of its body throws, or
      a status arrives with the first choice's message, if any */
  datatype DecisionReply =
    | DecisionThrew(error: string)
    | DecisionReplied(status: nat, choice: Option<ChoiceMessage>)

  /** `JSON.parse(toolCall.function.arguments)`, then `.query` */
  datatype ArgsResult = ArgsMalformed(error: string) | ArgsParsed(query: string)

  /** The streaming call: the request throws, or a status arrives (the body
      is the business of the normaliser) */
  datatype StreamReply = StreamThrew(error: string) | StreamReplied(status: nat)

  /** Everything outside the handler: the configured credentials, the
      system instruction, and what each upstream party answers */
  datatype Env = Env(
    systemPrompt: string,
    completionKey: bool,
    searchKey: bool,
    decision: DecisionReply,
    parseArgs: string -> ArgsResult,
    searchReply: Serper.SearchReply,
    streamReply: StreamReply)

  /** The outbound requests, in the order they are made */
  datatype Call =
    | DecisionCall(conversation: seq<Turn>)   // with the search tool, `tool_choice: 'auto'`
    | SearchCall(request: Serper.SearchRequest)
    | StreamCall(conversation: seq<Turn>)     // `stream: true`, no tools

  /** The response of the handler: a JSON error with its status, or an
      event stream over the given conversation, opened by the search marker
      when there is one */
  datatype Outcome =
    | ErrorResponse(status: nat, error: string)
    | Stream(conversation: seq<Turn>, marker: Option<string>)

  datatype PostResult = PostResult(outcome: Outcome, calls: seq<Call>)

  /** `[systemMessage, ...messages.slice(-40)]`: the system turn, then the
      most recent forty client turns (all of them when there are fewer), in
      their order */
  function UpstreamConversation(systemPrompt: string, messages: seq<WireMessage>): (conv: seq<Turn>)
    ensures var kept := if |messages| < HistoryLimit then |messages| else HistoryLimit;
      |conv| == 1 + kept && conv[0] == SystemTurn(systemPrompt)
      && forall i :: 1 <= i < |conv| ==> conv[i] == ClientTurn(messages[|messages| - kept + i - 1])
  {
    var recent := if |messages| <= HistoryLimit then messages else messages[|messages| - HistoryLimit..];
    [SystemTurn(systemPrompt)] + ClientTurns(recent)
  }

  function ClientTurns(messages: seq<WireMessage>): (turns: seq<Turn>)
    ensures |turns| == |messages|
    ensures forall i :: 0 <= i < |messages| ==> turns[i] == ClientTurn(messages[i])
  {
    if messages == [] then [] else [ClientTurn(messages[0])] + ClientTurns(messages[1..])
  }

  /** The model asked for the search: `tool_calls` is non-empty and its
      first entry names `web_search` */
  predicate SearchRequested(choice: Option<ChoiceMessage>)
  {
    choice.Some? && |choice.value.toolCalls| > 0 && choice.value.toolCalls[0].name == SearchToolName
  }

  /** `isSearch && searchQuery`: the marker is sent for a search with a
      non-empty query */
  function Marker(isSearch: bool, searchQuery: Option<string>): (m: Option<string>)
    ensures m.Some? <==> isSearch && searchQuery.Some? && searchQuery.value != ""
    ensures m.Some? ==> m == searchQuery
  {
    if isSearch && searchQuery.Some? && searchQuery.value != "" then searchQuery else None
  }

  /** The body of the outer `catch`: status 500 with the exception as text */
  function ServerError(error: string): Outcome
  {
    ErrorResponse(500, "サーバーエラー: " + error)
  }

  function DecisionError(status: nat): string
  {
    "APIエラー: " + NatToString(status)
  }

  /** The streaming call over `conv`, after the calls already made, and the
      check `createStreamResponse` makes of its status */
  function OpenStream(conv: seq<Turn>, marker: Option<string>, before: seq<Call>, reply: StreamReply): (r: PostResult)
  {
    var calls := before + [StreamCall(conv)];
    match reply
    case StreamThrew(e) => PostResult(ServerError(e), calls)
    case StreamReplied(status) =>
      if IsOk(status) then PostResult(Stream(conv, marker), calls)
      else PostResult(ErrorResponse(500, StreamError), calls)
  }

  /** `POST`: the branches of the handler up to the opening of the stream */
  function Post(messages: seq<WireMessage>, env: Env): (r: PostResult)
    ensures !env.completionKey ==> r == PostResult(ErrorResponse(500, MissingKeyError), [])
    ensures env.completionKey ==>
      |r.calls| >= 1 && r.calls[0] == DecisionCall(UpstreamConversation(env.systemPrompt, messages))
    ensures r.outcome.Stream? ==> r.calls[|r.calls| - 1] == StreamCall(r.outcome.conversation)
  {
    if !env.completionKey then PostResult(ErrorResponse(500, MissingKeyError), [])
    else
      var conv := UpstreamConversation(env.systemPrompt, messages);
      var decided := [DecisionCall(conv)];
      match env.decision
      case DecisionThrew(e) => PostResult(ServerError(e), decided)
      case DecisionReplied(status, choice) =>
        if !IsOk(status) then PostResult(ErrorResponse(status, DecisionError(status)), decided)
        else if SearchRequested(choice) then
          var toolCall := choice.value.toolCalls[0];
          match env.parseArgs(toolCall.arguments)
          case ArgsMalformed(e) => PostResult(ServerError(e), decided)
          case ArgsParsed(query) =>
            var digest := Serper.SearchText(query, env.searchKey, env.searchReply);
            var searched := decided + (match Serper.RequestSent(query, env.searchKey)
                                       case Some(req) => [SearchCall(req)]
                                       case None => []);
            var augmented := conv + [DecisionTurn(choice.value), ToolTurn(toolCall.id, digest)];
            OpenStream(augmented, Marker(true, Some(query)), searched, env.streamReply)
        else OpenStream(conv, Marker(false, None), decided, env.streamReply)
  }

  /** A missing completion key gives status 500 and no request at all. */
  lemma MissingKeyNoFetch(messages: seq<WireMessage>, env: Env)
    requires !env.completionKey
    ensures Post(messages, env).outcome == ErrorResponse(500, MissingKeyError)
    ensures Post(messages, env).calls == []
  {
  }

  /** Every error response is either status 500 or the failed status of the
      decision call, echoed with its number; a failed streaming call is
      status 500 `Stream error` and no stream. */
  lemma ErrorStatuses(messages: seq<WireMessage>, env: Env)
    ensures var r := Post(messages, env);
      r.outcome.ErrorResponse? ==>
        r.outcome.status == 500
        || (env.decision.DecisionReplied? && !IsOk(env.decision.status)
            && r.outcome == ErrorResponse(env.decision.status, DecisionError(env.decision.status))
            && |r.calls| == 1)
    ensures var r := Post(messages, env);
      env.completionKey && env.decision.DecisionReplied? && !IsOk(env.decision.status)
      ==> r.outcome == ErrorResponse(env.decision.status, DecisionError(env.decision.status))
    ensures var r := Post(messages, env);
      env.streamReply.StreamReplied? && !IsOk(env.streamReply.status) ==> !r.outcome.Stream?
    ensures var r := Post(messages, env);
      r.calls != [] && r.calls[|r.calls| - 1].StreamCall? ==>
        r.outcome == match env.streamReply
                     case StreamThrew(e) => ServerError(e)
                     case StreamReplied(status) =>
                       if IsOk(status) then Stream(r.calls[|r.calls| - 1].conversation, r.outcome.marker)
                       else ErrorResponse(500, StreamError)
  {
  }

  /** Without a search request the direct stream runs over the unmodified
      conversation and carries no marker. */
  lemma DirectPath(messages: seq<WireMessage>, env: Env)
    requires env.completionKey && env.decision.DecisionReplied? && IsOk(env.decision.status)
    requires !SearchRequested(env.decision.choice)
    ensures var conv := UpstreamConversation(env.systemPrompt, messages);
      Post(messages, env).calls == [DecisionCall(conv), StreamCall(conv)]
      && Post(messages, env).outcome == match env.streamReply
                                       case StreamThrew(e) => ServerError(e)
                                       case StreamReplied(status) =>
                                         if IsOk(status) then Stream(conv, None) else ErrorResponse(500, StreamError)
  {
  }

  /** With a search request whose arguments parse, the search runs (it is
      sent only when its key is set) and the stream is requested over the
      conversation extended by the model's tool request and a `tool` turn
      answering that request's id with the digest. Malformed arguments end
      the turn with status 500 before any search. */
  lemma SearchPath(messages: seq<WireMessage>, env: Env)
    requires env.completionKey && env.decision.DecisionReplied? && IsOk(env.decision.status)
    requires SearchRequested(env.decision.choice)
    ensures var choice := env.decision.choice.value;
      var toolCall := choice.toolCalls[0];
      var conv := UpstreamConversation(env.systemPrompt, messages);
      var r := Post(messages, env);
      match env.parseArgs(toolCall.arguments)
      case ArgsMalformed(e) => r == PostResult(ServerError(e), [DecisionCall(conv)])
      case ArgsParsed(q) =>
        var augmented := conv + [DecisionTurn(choice),
                                 ToolTurn(toolCall.id, Serper.SearchText(q, env.searchKey, env.searchReply))];
        r.calls[|r.calls| - 1] == StreamCall(augmented)
        && |r.calls| == (if env.searchKey then 3 else 2)
        && (env.searchKey ==> r.calls[1] == SearchCall(Serper.SearchRequest(q, "jp", "ja", Serper.ResultCap)))
        && r.outcome == match env.streamReply
                        case StreamThrew(e) => ServerError(e)
                        case StreamReplied(status) =>
                          if IsOk(status) then Stream(augmented, if q == "" then None else Some(q))
                          else ErrorResponse(500, StreamError)
  {
  }

  /** The search path is taken exactly when the model asked for `web_search`
      first: only then is a search request made, a tool turn added, or a
      marker sent. */
  lemma SearchIff(messages: seq<WireMessage>, env: Env)
    requires env.completionKey && env.decision.DecisionReplied? && IsOk(env.decision.status)
    ensures var r := Post(messages, env);
      (r.outcome.Stream? && |r.outcome.conversation| > |UpstreamConversation(env.systemPrompt, messages)|)
      ==> SearchRequested(env.decision.choice)
    ensures var r := Post(messages, env);
      SearchRequested(env.decision.choice) && r.outcome.Stream?
      ==> |r.outcome.conversation| == |UpstreamConversation(env.systemPrompt, messages)| + 2
    ensures var r := Post(messages, env);
      r.outcome.Stream? && r.outcome.marker.Some? ==> SearchRequested(env.decision.choice)
    ensures var r := Post(messages, env);
      (exists i :: 0 <= i < |r.calls| && r.calls[i].SearchCall?) ==> SearchRequested(env.decision.choice)
  {
    if SearchRequested(env.decision.choice) {
      SearchPath(messages, env);
    } else {
      DirectPath(messages, env);
    }
  }

  /** A turn makes at most two completion calls and at most one search,
      the decision first and the streaming call last. */
  lemma CallBudget(messages: seq<WireMessage>, env: Env)
    ensures var r := Post(messages, env);
      |r.calls| <= 3
      && (|r.calls| > 0 ==> r.calls[0].DecisionCall?)
      && (|r.calls| >= 2 ==> r.calls[|r.calls| - 1].StreamCall?)
      && (|r.calls| == 3 ==> r.calls[1].SearchCall? && r.calls[2].StreamCall?)
  {
  }
}
