/** The web-search tool: one request to the search provider, its answer
    rendered as plain text for the language model. Every failure becomes a
    placeholder text, so the caller always gets something to pass on. */
module Serper {
  import opened Types
  import opened Builtins

  const Unavailable := "(Web検索は現在利用できません。SERPER_API_KEYが設定されていません。)"
  const NoResults := "(検索結果が見つかりませんでした)"

  /** `num` of the request, and the number of results rendered */
  const ResultCap: nat := 5

  /** The request body: the query, region `jp`, language `ja`, five results */
  datatype SearchRequest = SearchRequest(q: string, gl: string, hl: string, num: nat)

  /** `data.knowledgeGraph`; a missing title or description reads as absent */
  datatype KnowledgeGraph = KnowledgeGraph(title: Option<string>, description: Option<string>)

  /** The parsed body of a successful response */
  datatype SearchData = SearchData(organic: Option<seq<SearchResult>>, knowledgeGraph: Option<KnowledgeGraph>)

  /** What the provider gives back for one request: either the request or
      the decoding of its body throws (`error` is the exception as text), or
      a status arrives together with the body, which is only read when the
      status is ok */
  datatype SearchReply =
    | Threw(error: string)
    | Replied(status: nat, data: SearchData)

  function ErrorText(error: string): string
  {
    "(検索中にエラーが発生しました: " + error + ")"
  }

  function StatusText(status: nat): string
  {
    "(検索エラー: " + NatToString(status) + ")"
  }

  function Header(query: string): string
  {
    "【Web検索結果: \"" + query + "\"】\n\n"
  }

  /** The block for one organic result */
  function Block(r: SearchResult): string
  {
    "📌 " + r.title + "\n" + r.snippet + "\nURL: " + r.link + "\n\n"
  }

  /** The blocks of `results`, in their order */
  function Blocks(results: seq<SearchResult>): string
  {
    FlatMap(Block, results)
  }

  /** The knowledge-panel block, empty when the panel is absent */
  function PanelBlock(kg: Option<KnowledgeGraph>): string
  {
    match kg
    case None => ""
    case Some(k) => "\n📋 ナレッジグラフ: " + k.title.GetOr("") + "\n" + k.description.GetOr("") + "\n"
  }

  /** `results.slice(0, 5)` */
  function Shown(results: seq<SearchResult>): (s: seq<SearchResult>)
    ensures |s| <= ResultCap && |s| <= |results| && s == results[..|s|]
    ensures |s| == |results| || |s| == ResultCap
  {
    if |results| <= ResultCap then results else results[..ResultCap]
  }

  /** The request that is sent, if any: none without a key */
  function RequestSent(query: string, keyPresent: bool): Option<SearchRequest>
  {
    if keyPresent then Some(SearchRequest(query, "jp", "ja", ResultCap)) else None
  }

  /** The text `performWebSearch` resolves to */
  function SearchText(query: string, keyPresent: bool, reply: SearchReply): string
  {
    if !keyPresent then Unavailable
    else match reply
      case Threw(e) => ErrorText(e)
      case Replied(status, data) =>
        if !IsOk(status) then StatusText(status)
        else
          var results := data.organic.GetOr([]);
          if |results| == 0 then NoResults
          else Header(query) + Blocks(Shown(results)) + PanelBlock(data.knowledgeGraph)
  }

  /** The search itself: the request goes out only when a key is set, and
      the summary grows one result block at a time. */
  method PerformWebSearch(query: string, keyPresent: bool, reply: SearchReply)
    returns (text: string, sent: Option<SearchRequest>)
    ensures sent == RequestSent(query, keyPresent)
    ensures text == SearchText(query, keyPresent, reply)
  {
    if !keyPresent {
      return Unavailable, None;
    }
    sent := Some(SearchRequest(query, "jp", "ja", ResultCap));
    match reply {
      case Threw(e) =>
        text := ErrorText(e);
      case Replied(status, data) =>
        if !IsOk(status) {
          text := StatusText(status);
          return;
        }
        var results := if data.organic.Some? then data.organic.value else [];
        if |results| == 0 {
          text := NoResults;
          return;
        }
        text := Header(query);
        var shown := Shown(results);
        var i := 0;
        while i < |shown|
          invariant 0 <= i <= |shown|
          invariant text == Header(query) + Blocks(shown[..i])
        {
          FlatMapStep(Block, shown, i);
          text := text + Block(shown[i]);
          i := i + 1;
        }
        assert shown[..i] == shown;
        if data.knowledgeGraph.Some? {
          text := text + PanelBlock(data.knowledgeGraph);
        }
    }
  }

  /** The blocks of the results one by one: the first result's block
      opens the run, and two runs of results give their blocks in order. */
  lemma BlocksInOrder(results: seq<SearchResult>, more: seq<SearchResult>)
    ensures Blocks(results + more) == Blocks(results) + Blocks(more)
    ensures results != [] ==> Blocks(results) == Block(results[0]) + Blocks(results[1..])
  {
    FlatMapAppend(Block, results, more);
    if results != [] {
      FlatMapCons(Block, results);
    }
  }

  /** A successful search: the header with the query, one block for each of
      the first five results in their order, then the panel if any. */
  lemma SearchDigest(query: string, status: nat, results: seq<SearchResult>, kg: Option<KnowledgeGraph>)
    requires IsOk(status) && |results| > 0
    ensures var text := SearchText(query, true, Replied(status, SearchData(Some(results), kg)));
      var n := if |results| < ResultCap then |results| else ResultCap;
      StartsWith(text, Header(query))
      && text == Header(query) + Blocks(results[..n]) + PanelBlock(kg)
  {
  }

  /** Only the first five results ever reach the text. */
  lemma ExtraResultsIgnored(query: string, status: nat, results: seq<SearchResult>, more: seq<SearchResult>,
                            kg: Option<KnowledgeGraph>)
    requires |results| == ResultCap
    ensures SearchText(query, true, Replied(status, SearchData(Some(results + more), kg)))
         == SearchText(query, true, Replied(status, SearchData(Some(results), kg)))
  {
    assert (results + more)[..ResultCap] == results;
  }

  /** The panel block is appended after the results if and only if the
      response carries a knowledge graph; otherwise the text ends with the
      last result block. */
  lemma PanelAppended(query: string, status: nat, results: seq<SearchResult>, k: KnowledgeGraph)
    requires IsOk(status) && |results| > 0
    ensures SearchText(query, true, Replied(status, SearchData(Some(results), Some(k))))
         == SearchText(query, true, Replied(status, SearchData(Some(results), None)))
            + "\n📋 ナレッジグラフ: " + k.title.GetOr("") + "\n" + k.description.GetOr("") + "\n"
  {
  }

  /** A missing or empty result list gives the "no results" text. */
  lemma NoResultsPlaceholder(query: string, status: nat, kg: Option<KnowledgeGraph>)
    requires IsOk(status)
    ensures SearchText(query, true, Replied(status, SearchData(None, kg))) == NoResults
    ensures SearchText(query, true, Replied(status, SearchData(Some([]), kg))) == NoResults
  {
  }

  /** A digest and a placeholder are never confused: the text opens with
      `【` exactly when the search succeeded with at least one result, and
      with `(` on every failure. */
  lemma DigestIffSuccess(query: string, keyPresent: bool, reply: SearchReply)
    ensures var text := SearchText(query, keyPresent, reply);
      var success := keyPresent && reply.Replied? && IsOk(reply.status)
        && |reply.data.organic.GetOr([])| > 0;
      |text| > 0 && (text[0] == '【' <==> success) && (!success ==> text[0] == '(')
  {
  }

  /** The status of a failed search can be read back from its text. */
  lemma StatusRecoverable(query: string, status: nat, data: SearchData)
    requires !IsOk(status)
    ensures var text := SearchText(query, true, Replied(status, data));
      var prefix := "(検索エラー: ";
      StartsWith(text, prefix) && text[|text| - 1] == ')'
      && DecimalValue(text[|prefix|..|text| - 1]) == status
  {
    var prefix := "(検索エラー: ";
    var text := SearchText(query, true, Replied(status, data));
    assert text == prefix + NatToString(status) + ")";
    assert text[|prefix|..|text| - 1] == NatToString(status);
    NatToStringValue(status);
  }
}
