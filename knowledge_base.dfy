/**
 * The knowledge-base tool of the claim assistant: how a caller's question is
 * turned into retrieval requests, how the retrieved passages are rendered
 * into the spoken answer, how failures are mapped to apologies, and the
 * guard that answers a tool call without a query.
 */
module KnowledgeBase {
  import opened Wrappers
  import opened Text
  import opened JsonValues

  /** Words whose presence makes the query a claim lookup. */
  const EnhanceKeywords: seq<string> := ["claim", "id", "number", "reference", "ticket"]
  /** Words whose presence lets listed passages run long. */
  const LongContentKeywords: seq<string> := ["claim", "id"]
  const EnhancePrefix: string := "claim ID "
  const LongContentLimit: nat := 1000
  const ShortContentLimit: nat := 200
  /** Only this many results are listed, whatever the header counts. */
  const ListedResults: nat := 5
  /** The `max_results` the agent's tool passes. */
  const DefaultMaxResults: nat := 10

  datatype SearchType = Hybrid | Semantic

  /** One call of the retrieval service. */
  datatype RetrievalRequest = RetrievalRequest(knowledgeBaseId: string, text: string, numberOfResults: int, searchType: SearchType)

  /**
   * One retrieved passage: `content` is "" when the result has no text, and
   * `score` is the relevance as already printed with two decimals.
   */
  datatype RetrievalResult = RetrievalResult(content: string, score: string)

  datatype ErrorKind = ClientError | OtherError

  /** What a retrieval call gives back: the results (none if the key is missing) or the exception it raised. */
  datatype Retrieved = Results(results: seq<RetrievalResult>) | Raised(error: ErrorKind)

  /** The text sent to the hybrid search: the query, prefixed when it looks like a claim lookup. */
  function EnhanceQuery(query: string): (r: string)
    ensures r == query || r == EnhancePrefix + query
    ensures r != query <==> MentionsAny(query, EnhanceKeywords)
  {
    if MentionsAny(query, EnhanceKeywords) then EnhancePrefix + query else query
  }

  /** How many characters of a passage are listed, decided on the caller's original query. */
  function ContentLimit(query: string): (r: nat)
    ensures r == LongContentLimit || r == ShortContentLimit
    ensures r == LongContentLimit <==> MentionsAny(query, LongContentKeywords)
  {
    if MentionsAny(query, LongContentKeywords) then LongContentLimit else ShortContentLimit
  }

  /** The first `limit` characters, with "..." appended exactly when something was cut. */
  function Truncate(content: string, limit: nat): (r: string)
    ensures |content| <= limit ==> r == content
    ensures |content| > limit ==> |r| == limit + 3 && r[..limit] == content[..limit] && r[limit..] == "..."
  {
    if |content| > limit then content[..limit] + "..." else content
  }

  const BlankLine: string := "\n\n"

  /** The first line of a listing: the count of every result returned. */
  function HeaderLine(count: nat): string {
    "Found " + NatToString(count) + HeaderTail
  }

  const HeaderTail: string := " result(s) for your query:"

  function Header(count: nat): string {
    HeaderLine(count) + BlankLine
  }

  /** The numbered line of a listed passage. */
  function ContentLine(position: nat, content: string, limit: nat): string {
    NatToString(position) + ". " + Truncate(content, limit) + "\n"
  }

  /** The relevance line under a listed passage. */
  function RelevanceLine(score: string): string {
    "   (Relevance: " + score + ")"
  }

  /** The lines for the result at 1-based position `position`; nothing when it has no content. */
  function EntryText(position: nat, result: RetrievalResult, limit: nat): string {
    if result.content == [] then []
    else ContentLine(position, result.content, limit) + RelevanceLine(result.score) + BlankLine
  }

  /** The entries of `results`, each numbered by its position. */
  function Entries(results: seq<RetrievalResult>, limit: nat): string
    decreases |results|
  {
    if results == [] then []
    else Entries(results[..|results| - 1], limit) + EntryText(|results|, results[|results| - 1], limit)
  }

  function Min(a: nat, b: nat): nat { if a <= b then a else b }

  /** The response before stripping: the header counting every result, then the first five entries. */
  function Listing(query: string, results: seq<RetrievalResult>): string {
    Header(|results|) + Entries(results[..Min(ListedResults, |results|)], ContentLimit(query))
  }

  const NotFoundLead: string := "I couldn't find any information about '"
  const NotFoundAdvice: string :=
    "' in the knowledge base. Please check if the claim ID exists or try rephrasing your question."
  const ClientErrorLead: string := "I encountered an error while searching for '"
  const ClientErrorAdvice: string := "'. Please try again or contact support if the issue persists."
  const GenericApology: string := "I'm sorry, something went wrong while processing your request."

  function NotFoundMessage(query: string): string {
    NotFoundLead + query + NotFoundAdvice
  }

  function ErrorMessage(error: ErrorKind, query: string): string {
    match error
    case ClientError => ClientErrorLead + query + ClientErrorAdvice
    case OtherError => GenericApology
  }

  /** The answer for the results finally retrieved. */
  function Answer(query: string, results: seq<RetrievalResult>): string {
    if results == [] then NotFoundMessage(query) else Strip(Listing(query, results))
  }

  /** The answer to what the last retrieval call gave back. */
  function Reply(query: string, retrieved: Retrieved): string {
    match retrieved
    case Raised(error) => ErrorMessage(error, query)
    case Results(results) => Answer(query, results)
  }

  /** The client of one knowledge base; `retrieve` stands for the retrieval service. */
  class BedrockKnowledgeBaseClient {
    const knowledgeBaseId: string
    const retrieve: RetrievalRequest -> Retrieved

    constructor (knowledgeBaseId: string, retrieve: RetrievalRequest -> Retrieved)
      ensures this.knowledgeBaseId == knowledgeBaseId && this.retrieve == retrieve
    {
      this.knowledgeBaseId := knowledgeBaseId;
      this.retrieve := retrieve;
    }

    /**
     * Queries the knowledge base and renders the answer. `calls` records the
     * retrieval requests made, in order. The method never fails: every
     * exception of the service becomes an answer.
     */
    method QueryKnowledgeBase(query: string, maxResults: int) returns (answer: string, calls: seq<RetrievalRequest>)
      ensures 1 <= |calls| <= 2
      ensures calls[0] == RetrievalRequest(knowledgeBaseId, EnhanceQuery(query), maxResults, Hybrid)
      ensures |calls| == 2 <==> retrieve(calls[0]).Results? && retrieve(calls[0]).results == []
      ensures |calls| == 2 ==> calls[1] == RetrievalRequest(knowledgeBaseId, query, maxResults, Semantic)
      ensures answer == Reply(query, retrieve(calls[|calls| - 1]))
    {
      var first := RetrievalRequest(knowledgeBaseId, EnhanceQuery(query), maxResults, Hybrid);
      calls := [first];
      var response := retrieve(first);
      if response.Results? && response.results == [] {
        var second := RetrievalRequest(knowledgeBaseId, query, maxResults, Semantic);
        calls := calls + [second];
        response := retrieve(second);
      }
      answer := ReplyTo(query, response);
    }

    /** The agent's `search_knowledge_base` tool: the client asked for the default number of results. */
    method SearchTool(query: string) returns (answer: string, calls: seq<RetrievalRequest>)
      ensures 1 <= |calls| <= 2
      ensures forall k :: 0 <= k < |calls| ==> calls[k].numberOfResults == DefaultMaxResults
      ensures calls[0] == RetrievalRequest(knowledgeBaseId, EnhanceQuery(query), DefaultMaxResults, Hybrid)
      ensures |calls| == 2 <==> retrieve(calls[0]).Results? && retrieve(calls[0]).results == []
      ensures |calls| == 2 ==> calls[1] == RetrievalRequest(knowledgeBaseId, query, DefaultMaxResults, Semantic)
      ensures answer == Reply(query, retrieve(calls[|calls| - 1]))
    {
      answer, calls := QueryKnowledgeBase(query, DefaultMaxResults);
    }
  }

  /**
   * The answer to the outcome of the last retrieval call: the apology for
   * an exception, the not-found message for no results, and otherwise the
   * stripped listing.
   */
  method ReplyTo(query: string, retrieved: Retrieved) returns (answer: string)
    ensures answer == Reply(query, retrieved)
  {
    if retrieved.Raised? {
      return ErrorMessage(retrieved.error, query);
    }
    var results := retrieved.results;
    if results == [] {
      return NotFoundMessage(query);
    }
    var formatted := FormatListing(query, results);
    answer := Strip(formatted);
  }

  /**
   * The `formatted_response` the client builds for non-empty results: the
   * header, then one entry per listed result that has content.
   */
  method FormatListing(query: string, results: seq<RetrievalResult>) returns (formatted: string)
    ensures formatted == Listing(query, results)
  {
    formatted := Header(|results|);
    var top := results[..Min(ListedResults, |results|)];
    ghost var limit := ContentLimit(query);
    var i := 0;
    while i < |top|
      invariant 0 <= i <= |top|
      invariant formatted == Header(|results|) + Entries(top[..i], limit)
    {
      var result := top[i];
      var content := result.content;
      ghost var previous := formatted;
      if content != [] {
        var contentLength := ContentLimit(query);
        var truncated := content[..Min(contentLength, |content|)];
        if |content| > contentLength {
          truncated := truncated + "...";
        }
        formatted := formatted + (NatToString(i + 1) + ". " + truncated + "\n");
        formatted := formatted + ("   (Relevance: " + result.score + ")\n\n");
        AppendedEntry(previous, formatted, i + 1, result, limit, truncated);
      } else {
        assert formatted == previous + EntryText(i + 1, top[i], limit);
      }
      EntriesSnoc(top, i, limit);
      Assoc3(Header(|results|), Entries(top[..i], limit), EntryText(i + 1, top[i], limit));
      i := i + 1;
    }
    assert top[..i] == top;
  }

  lemma AppendedEntry(
    previous: string, formatted: string, position: nat, result: RetrievalResult, limit: nat, truncated: string)
    requires result.content != []
    requires truncated == result.content[..Min(limit, |result.content|)] + (if |result.content| > limit then "..." else "")
    requires formatted == previous + (NatToString(position) + ". " + truncated + "\n")
      + ("   (Relevance: " + result.score + ")\n\n")
    ensures formatted == previous + EntryText(position, result, limit)
  {
    assert truncated == Truncate(result.content, limit);
    var line := ContentLine(position, result.content, limit);
    var relevance := RelevanceLine(result.score);
    assert "   (Relevance: " + result.score + ")\n\n" == relevance + BlankLine;
    Assoc3(previous, line, relevance + BlankLine);
    Assoc3(line, relevance, BlankLine);
  }

  lemma Assoc3(a: string, b: string, c: string)
    ensures a + b + c == a + (b + c)
  {
  }

  lemma EntriesSnoc(top: seq<RetrievalResult>, i: nat, limit: nat)
    requires i < |top|
    ensures Entries(top[..i + 1], limit) == Entries(top[..i], limit) + EntryText(i + 1, top[i], limit)
  {
    assert top[..i + 1][..i] == top[..i];
  }

  /** A query that earns the long content limit is always sent with the claim prefix. */
  lemma LongLimitImpliesEnhanced(query: string)
    requires ContentLimit(query) == LongContentLimit
    ensures EnhanceQuery(query) == EnhancePrefix + query
  {
    var k :| k in LongContentKeywords && IsSubstring(k, Lower(query));
    assert k in EnhanceKeywords;
  }

  /** `e` ends with the closing parenthesis of a relevance line and then a blank line. */
  predicate EndsWithRelevance(e: string) {
    |e| >= 3 && e[|e| - 3] == ')' && e[|e| - 2] == '\n' && e[|e| - 1] == '\n'
  }

  /** A listed entry ends with its relevance line and a blank line. */
  lemma EntryEnding(position: nat, result: RetrievalResult, limit: nat)
    requires result.content != []
    ensures EndsWithRelevance(EntryText(position, result, limit))
  {
    var x := ContentLine(position, result.content, limit) + RelevanceLine(result.score);
    assert x[|x| - 1] == ')';
    var e := x + BlankLine;
    assert e[|e| - 3] == x[|x| - 1];
  }

  /** The last three characters of `a + b` are those of `b` when `b` has three. */
  lemma EndsWithAppend(a: string, b: string)
    requires EndsWithRelevance(b)
    ensures EndsWithRelevance(a + b)
  {
    var s := a + b;
    assert s[|s| - 3] == b[|b| - 3] && s[|s| - 2] == b[|b| - 2] && s[|s| - 1] == b[|b| - 1];
  }

  /** The entries are either empty or end with a relevance line followed by a blank line. */
  lemma {:induction false} EntriesEnding(results: seq<RetrievalResult>, limit: nat)
    ensures Entries(results, limit) == [] || EndsWithRelevance(Entries(results, limit))
    decreases |results|
  {
    if results != [] {
      var init := results[..|results| - 1];
      var last := results[|results| - 1];
      var tail := EntryText(|results|, last, limit);
      assert Entries(results, limit) == Entries(init, limit) + tail;
      EntriesEnding(init, limit);
      if last.content != [] {
        EntryEnding(|results|, last, limit);
        EndsWithAppend(Entries(init, limit), tail);
      } else {
        assert Entries(results, limit) == Entries(init, limit) + [];
      }
    }
  }

  /** Entries are empty exactly when none of the results has content. */
  lemma {:induction false} EntriesEmptyIff(results: seq<RetrievalResult>, limit: nat)
    ensures Entries(results, limit) == [] <==> forall j :: 0 <= j < |results| ==> results[j].content == []
    decreases |results|
  {
    if results != [] {
      var init := results[..|results| - 1];
      EntriesEmptyIff(init, limit);
      assert forall j :: 0 <= j < |init| ==> init[j] == results[j];
      var last := results[|results| - 1];
      if last.content != [] {
        assert |EntryText(|results|, last, limit)| > 0;
      }
    }
  }

  /**
   * The entry of the result at 0-based index `j` appears in the entries right
   * after those of the earlier results, numbered `j + 1` whether or not
   * earlier results were skipped.
   */
  lemma {:induction false} EntryAtPosition(results: seq<RetrievalResult>, limit: nat, j: nat)
    requires j < |results|
    ensures OccursAt(EntryText(j + 1, results[j], limit), Entries(results, limit), |Entries(results[..j], limit)|)
    decreases |results|
  {
    var init := results[..|results| - 1];
    var entry := EntryText(j + 1, results[j], limit);
    var tail := EntryText(|results|, results[|results| - 1], limit);
    assert Entries(results, limit) == Entries(init, limit) + tail;
    if j == |results| - 1 {
      assert results[..j] == init;
      OccursAtEnd(Entries(init, limit), entry);
    } else {
      EntryAtPosition(init, limit, j);
      assert init[j] == results[j] && init[..j] == results[..j];
      OccursInPrefix(entry, Entries(init, limit), tail, |Entries(results[..j], limit)|);
    }
  }

  lemma OccursAtEnd(a: string, b: string)
    ensures OccursAt(b, a + b, |a|)
  {
    assert (a + b)[|a|..|a| + |b|] == b;
  }

  lemma OccursInPrefix(needle: string, s: string, t: string, i: int)
    requires OccursAt(needle, s, i)
    ensures OccursAt(needle, s + t, i)
  {
    assert (s + t)[i..i + |needle|] == s[i..i + |needle|];
  }

  /** The listing starts with the header line and ends with a blank line right after a visible character. */
  lemma ListingShape(query: string, results: seq<RetrievalResult>)
    ensures var l := Listing(query, results);
      var h := HeaderLine(|results|);
      && |l| >= |h| + 2 && l[..|h|] == h && l[|l| - 2] == '\n' && l[|l| - 1] == '\n'
      && l[0] == 'F' && !IsWhitespace(l[|l| - 3])
  {
    var top := results[..Min(ListedResults, |results|)];
    var h := HeaderLine(|results|);
    EntriesEnding(top, ContentLimit(query));
    assert h[0] == 'F';
    assert h[|h| - 1] == HeaderTail[|HeaderTail| - 1] == ':';
    HeaderThenEntries(h, Entries(top, ContentLimit(query)));
  }

  lemma HeaderThenEntries(h: string, e: string)
    requires |h| >= 1 && h[0] == 'F' && h[|h| - 1] == ':'
    requires e == [] || EndsWithRelevance(e)
    ensures var l := h + BlankLine + e;
      && |l| >= |h| + 2 && l[..|h|] == h && l[|l| - 2] == '\n' && l[|l| - 1] == '\n'
      && l[0] == 'F' && !IsWhitespace(l[|l| - 3])
  {
    var l := h + BlankLine + e;
    if e == [] {
      assert l == h + BlankLine;
      assert l[|l| - 3] == h[|h| - 1];
    } else {
      EndsWithAppend(h + BlankLine, e);
    }
    assert l[..|h|] == h;
  }

  /**
   * With results, the answer is the listing without its final blank line:
   * it opens with the count of all results, however many are listed.
   */
  lemma AnswerIsListing(query: string, results: seq<RetrievalResult>)
    requires results != []
    ensures var l := Listing(query, results);
      |l| >= 2 && Answer(query, results) == l[..|l| - 2]
    ensures var h := HeaderLine(|results|);
      |Answer(query, results)| >= |h| && Answer(query, results)[..|h|] == h
  {
    var l := Listing(query, results);
    ListingShape(query, results);
    StripDropsBlankLine(l);
    assert Answer(query, results) == Strip(l);
    PrefixOfPrefix(l, |l| - 2, HeaderLine(|results|));
  }

  lemma PrefixOfPrefix(l: string, k: nat, h: string)
    requires |h| <= k <= |l| && l[..|h|] == h
    ensures l[..k][..|h|] == h
  {
  }

  /** Stripping a text that ends in a blank line right after a visible character removes just that blank line. */
  lemma StripDropsBlankLine(l: string)
    requires |l| >= 3 && l[|l| - 2] == '\n' && l[|l| - 1] == '\n'
    requires !IsWhitespace(l[0]) && !IsWhitespace(l[|l| - 3])
    ensures Strip(l) == l[..|l| - 2]
  {
    var body := l[..|l| - 2];
    var tail := l[|l| - 2..];
    assert body + tail == l;
    StripTrailingRun(body, tail);
  }

  /**
   * A result among the first five that has content is listed in the answer
   * under its position, cut to the limit the query earns, with its relevance
   * on the next line.
   */
  lemma ListedResultAppears(query: string, results: seq<RetrievalResult>, j: nat)
    requires j < |results| && j < ListedResults && results[j].content != []
    ensures IsSubstring(
      ContentLine(j + 1, results[j].content, ContentLimit(query)) + RelevanceLine(results[j].score),
      Listing(query, results))
  {
    var top := results[..Min(ListedResults, |results|)];
    var limit := ContentLimit(query);
    var lines := ContentLine(j + 1, results[j].content, limit) + RelevanceLine(results[j].score);
    EntryAtPosition(top, limit, j);
    assert top[j] == results[j];
    var i := |Entries(top[..j], limit)|;
    OccursPrefix(lines, BlankLine, Entries(top, limit), i);
    OccursAfter(lines, Header(|results|), Entries(top, limit), i);
  }

  lemma OccursPrefix(a: string, b: string, s: string, i: int)
    requires OccursAt(a + b, s, i)
    ensures OccursAt(a, s, i)
  {
    assert s[i..i + |a|] == (a + b)[..|a|];
  }

  lemma OccursAfter(needle: string, h: string, s: string, i: int)
    requires OccursAt(needle, s, i)
    ensures OccursAt(needle, h + s, |h| + i)
  {
    assert (h + s)[|h| + i..|h| + i + |needle|] == s[i..i + |needle|];
  }

  /** What the agent's `process_query` gets from the agent: its reply, or an exception. */
  datatype AgentOutcome = Replied(text: string) | Failed

  const AgentApology: string := "I'm sorry, I encountered an error processing your request."
  const NoQueryError: string := "No query provided"
  const NoQueryResponse: string := "Please provide a question or claim ID to search the knowledge base."

  /** The agent's answer, or the apology when the agent raised. */
  function ProcessQuery(agent: Json -> AgentOutcome, query: Json): (r: string)
    ensures agent(query).Replied? ==> r == agent(query).text
    ensures agent(query).Failed? ==> r == AgentApology
  {
    match agent(query)
    case Replied(text) => text
    case Failed => AgentApology
  }

  /** The dictionary handed to the tool's result callback. */
  datatype ToolResult =
    | NoQuery(error: string, response: string)
    | Answered(query: Json, response: string, timestamp: string, knowledgeBaseId: Option<string>)

  /**
   * The `search_knowledge_base` tool: a missing or falsy `query` is answered
   * without asking the agent; any other query is answered by the agent.
   */
  function SearchKnowledgeBase(
    arguments: map<string, Json>, agent: Json -> AgentOutcome, timestamp: string, knowledgeBaseId: Option<string>)
    : (r: ToolResult)
    ensures r.NoQuery? <==> !("query" in arguments && Truthy(arguments["query"]))
    ensures r.NoQuery? ==>
      && r.error == NoQueryError && r.response == NoQueryResponse
    ensures r.Answered? ==>
      && r.query == arguments["query"] && r.response == ProcessQuery(agent, r.query)
      && r.timestamp == timestamp && r.knowledgeBaseId == knowledgeBaseId
  {
    var query := if "query" in arguments then arguments["query"] else JStr("");
    if !Truthy(query) then
      NoQuery(NoQueryError, NoQueryResponse)
    else
      Answered(query, ProcessQuery(agent, query), timestamp, knowledgeBaseId)
  }

  /** Without a query the tool's result is the same whatever the agent would do: the agent is not consulted. */
  lemma NoQueryIgnoresAgent(
    arguments: map<string, Json>, agent1: Json -> AgentOutcome, agent2: Json -> AgentOutcome,
    timestamp: string, knowledgeBaseId: Option<string>)
    requires !("query" in arguments && Truthy(arguments["query"]))
    ensures SearchKnowledgeBase(arguments, agent1, timestamp, knowledgeBaseId)
      == SearchKnowledgeBase(arguments, agent2, timestamp, knowledgeBaseId)
  {
  }
}
