/**
 * The MCP tool server (`mcp-server/index.js`): the `tools/call` handler with
 * its two tools, the projection of tickets into flat records, the analysis
 * prompt built from them, and the selection of tickets by the keys a model
 * names. The chat-completion calls are not modelled: the analyst is an
 * arbitrary function from prompt to reply, and the filtering reply arrives
 * already parsed (or failed to parse).
 */
module McpServer {
  import opened Wrappers
  import opened JsStrings
  import opened Seqs
  import opened Tickets

  const AnalyzeTool: string := "analyze_jira_tickets"
  const QueryTool: string := "query_jira_tickets_nlp"

  // ---------------------------------------------------------------------------
  // Projection: tickets.map(ticket => ({ key, summary, status, created, rootCause }))
  // ---------------------------------------------------------------------------

  /** The flat record the analysis prompt is built from. */
  datatype TicketData = TicketData(
    key: string,
    summary: string,
    status: string,
    created: string,
    rootCause: Option<string>)

  function Project(t: Issue): TicketData {
    TicketData(t.key, t.summary, t.status, t.created, t.rootCause)
  }

  /** One record per ticket, in ticket order, each copying its ticket's fields. */
  function ProjectAll(tickets: seq<Issue>): (r: seq<TicketData>)
    ensures |r| == |tickets|
    ensures forall i :: 0 <= i < |r| ==>
      r[i].key == tickets[i].key && r[i].summary == tickets[i].summary &&
      r[i].status == tickets[i].status && r[i].created == tickets[i].created &&
      r[i].rootCause == tickets[i].rootCause
  {
    seq(|tickets|, i requires 0 <= i < |tickets| => Project(tickets[i]))
  }

  /** Projection works ticket by ticket: it distributes over concatenation. */
  lemma ProjectAppend(a: seq<Issue>, b: seq<Issue>)
    ensures ProjectAll(a + b) == ProjectAll(a) + ProjectAll(b)
  {
    var l, r := ProjectAll(a + b), ProjectAll(a) + ProjectAll(b);
    forall i | 0 <= i < |l| ensures l[i] == r[i] {
      if i < |a| {
        assert (a + b)[i] == a[i];
      } else {
        assert (a + b)[i] == b[i - |a|];
      }
    }
  }

  // ---------------------------------------------------------------------------
  // generateAnalysisPrompt
  // ---------------------------------------------------------------------------

  /** `${v}` in a template literal: the text, or "undefined" for an absent field. */
  function Show(v: Option<string>): string {
    match v
    case Some(s) => s
    case None => "undefined"
  }

  /** `- key: summary (Status: s, Root Cause: r)`. */
  function TicketLine(t: TicketData): string {
    "- " + t.key + ": " + t.summary + " (Status: " + t.status + ", Root Cause: " + Show(t.rootCause) + ")"
  }

  function TicketLines(ts: seq<TicketData>): seq<string> {
    seq(|ts|, i requires 0 <= i < |ts| => TicketLine(ts[i]))
  }

  /** The TICKETS section: the ticket lines joined by single newlines; empty exactly when there are no tickets. */
  function TicketSummaries(ts: seq<TicketData>): (r: string)
    ensures r == "" <==> ts == []
  {
    Join(TicketLines(ts), '\n')
  }

  const PromptHead: string := "Please analyze the following "

  /** The heading that opens the ticket lines. */
  const TicketsHeading: string := "TICKETS:\n"

  const PromptIntro: string := "service desk tickets and provide an executive summary:\n\n" + TicketsHeading

  const PromptTail: string :=
    "\n\n" +
    "Please provide an analysis that includes:\n\n" +
    "1. **Key Themes Identified**: What are the main patterns or categories of issues?\n\n" +
    "2. **Root Cause Analysis**: \n" +
    "   - What are the primary root causes driving these incidents?\n" +
    "   - How frequently does each root cause appear?\n\n" +
    "3. **Business Impact Assessment**:\n" +
    "   - What types of business operations are being affected?\n" +
    "   - Which issues pose the highest risk?\n\n" +
    "4. **Recommendations**:\n" +
    "   - What immediate actions should be taken?\n" +
    "   - What strategic initiatives would prevent future occurrences?\n\n" +
    "5. **Priority Focus Areas**: What should leadership prioritize to address these systemic issues?\n\n" +
    "Format your response as a clear, executive-level summary suitable for senior management. " +
    "Use bullet points and clear headings. Keep the tone professional and action-oriented."

  /**
   * The prompt sent to the analyst: a header with the ticket count, the ticket
   * lines, fixed instructions. Reading the header's number gives back the count.
   */
  function AnalysisPrompt(ts: seq<TicketData>): (r: string)
    ensures PromptCount(r) == Some(|ts|)
  {
    BodyStart(ts);
    HeaderCount(|ts|, PromptBody(ts));
    PromptHead + Decimal(|ts|) + PromptBody(ts)
  }

  /** Everything after the count: a space, the rest of the header, the TICKETS section, the instructions. */
  function PromptBody(ts: seq<TicketData>): string {
    " " + PromptIntro + TicketSummaries(ts) + PromptTail
  }

  // Reading a prompt back

  /**
   * Everything between the `TICKETS:` heading and the fixed instructions is
   * exactly the TICKETS section, so the line facts about `TicketSummaries`
   * are facts about the prompt.
   */
  lemma TicketsSectionOfPrompt(ts: seq<TicketData>)
    ensures var pre := PromptHead + Decimal(|ts|) + (" " + PromptIntro);
      EndsWith(pre, TicketsHeading) && AnalysisPrompt(ts) == pre + TicketSummaries(ts) + PromptTail
  {
    PromptSplit(ts);
    IntroEnd(PromptHead + Decimal(|ts|));
  }

  /** The prompt with its header and introduction grouped together. */
  lemma PromptSplit(ts: seq<TicketData>)
    ensures AnalysisPrompt(ts) ==
      (PromptHead + Decimal(|ts|)) + (" " + PromptIntro) + TicketSummaries(ts) + PromptTail
  {
    Regroup(PromptHead + Decimal(|ts|), " " + PromptIntro, TicketSummaries(ts), PromptTail);
  }

  /** The introduction ends with the `TICKETS:` heading, whatever precedes it. */
  lemma IntroEnd(head: string)
    ensures EndsWith(head + (" " + PromptIntro), TicketsHeading)
  {
    var intro := "service desk tickets and provide an executive summary:\n\n";
    Regroup(head, " ", intro, TicketsHeading);
    EndsWithAppend(head + " " + intro, TicketsHeading);
  }

  /** The digits `s` starts with. */
  function LeadingDigits(s: string): (r: string)
    ensures IsPrefix(r, s) && AllDigits(r)
    ensures |r| < |s| ==> !IsDigit(s[|r|])
  {
    if s == [] || !IsDigit(s[0]) then [] else [s[0]] + LeadingDigits(s[1..])
  }

  lemma {:induction false} LeadingDigitsOf(d: string, rest: string)
    requires AllDigits(d)
    requires rest != [] && !IsDigit(rest[0])
    ensures LeadingDigits(d + rest) == d
  {
    if d != [] {
      assert (d + rest)[0] == d[0] && (d + rest)[1..] == d[1..] + rest;
      LeadingDigitsOf(d[1..], rest);
    } else {
      assert d + rest == rest;
    }
  }

  /** The ticket count a prompt's header announces, if it has that header. */
  function PromptCount(prompt: string): Option<nat> {
    if !IsPrefix(PromptHead, prompt) then None
    else
      var digits := LeadingDigits(prompt[|PromptHead|..]);
      if digits == [] then None else Some(DecimalValue(digits))
  }

  /** Whatever follows the count, as long as it does not start with a digit. */
  lemma HeaderCount(n: nat, rest: string)
    requires rest != [] && !IsDigit(rest[0])
    ensures PromptCount(PromptHead + Decimal(n) + rest) == Some(n)
  {
    var prompt := PromptHead + Decimal(n) + rest;
    assert prompt == PromptHead + (Decimal(n) + rest);
    assert prompt[..|PromptHead|] == PromptHead;
    assert prompt[|PromptHead|..] == Decimal(n) + rest;
    LeadingDigitsOf(Decimal(n), rest);
    DecimalRoundTrip(n);
  }

  /** The body starts with the space after the count, so the count's digits end there. */
  lemma BodyStart(ts: seq<TicketData>)
    ensures PromptBody(ts) != [] && !IsDigit(PromptBody(ts)[0])
  {
    var head := " " + PromptIntro + TicketSummaries(ts);
    assert PromptBody(ts) == head + PromptTail;
    assert PromptBody(ts)[0] == head[0] == ' ';
  }

  /** The text of `s` before the first `c`; all of `s` when `c` does not occur. */
  function Before(s: string, c: char): (r: string)
    ensures IsPrefix(r, s) && c !in r
    ensures |r| < |s| ==> s[|r|] == c
  {
    if s == [] || s[0] == c then [] else [s[0]] + Before(s[1..], c)
  }

  lemma {:induction false} BeforeSeparator(a: string, c: char, b: string)
    requires c !in a
    ensures Before(a + [c] + b, c) == a
  {
    if a != [] {
      assert (a + [c] + b)[0] == a[0] && (a + [c] + b)[1..] == a[1..] + [c] + b;
      BeforeSeparator(a[1..], c, b);
    } else {
      assert a + [c] + b == [c] + b;
    }
  }

  /** The key a prompt line names: what follows the leading "- " up to the first colon. */
  function LineKey(line: string): string {
    if |line| < 2 then "" else Before(line[2..], ':')
  }

  /** A key without a colon can be read back from its ticket's line. */
  lemma LineKeyOf(t: TicketData)
    requires ':' !in t.key
    ensures LineKey(TicketLine(t)) == t.key
  {
    var rest := " " + t.summary + " (Status: " + t.status + ", Root Cause: " + Show(t.rootCause) + ")";
    assert TicketLine(t) == "- " + (t.key + [':'] + rest);
    assert TicketLine(t)[2..] == t.key + [':'] + rest;
    BeforeSeparator(t.key, ':', rest);
  }

  /** No field of the record contains a line break. */
  predicate SingleLine(t: TicketData) {
    '\n' !in t.key && '\n' !in t.summary && '\n' !in t.status && '\n' !in Show(t.rootCause)
  }

  lemma LineHasNoBreak(t: TicketData)
    requires SingleLine(t)
    ensures '\n' !in TicketLine(t)
  {
    assert '\n' !in "- " && '\n' !in ": " && '\n' !in " (Status: " && '\n' !in ", Root Cause: " && '\n' !in ")";
  }

  /**
   * Splitting the TICKETS section at line breaks gives back one line per
   * ticket, in ticket order, as long as no field spans several lines.
   */
  lemma SummaryLines(ts: seq<TicketData>)
    requires |ts| > 0
    requires forall i :: 0 <= i < |ts| ==> SingleLine(ts[i])
    ensures Split(TicketSummaries(ts), '\n') == TicketLines(ts)
  {
    var lines := TicketLines(ts);
    forall i | 0 <= i < |lines| ensures '\n' !in lines[i] {
      LineHasNoBreak(ts[i]);
    }
    SplitJoin(lines, '\n');
  }

  /** Line `i` of the TICKETS section names the key of ticket `i`. */
  lemma SummaryKeys(ts: seq<TicketData>)
    requires |ts| > 0
    requires forall i :: 0 <= i < |ts| ==> SingleLine(ts[i]) && ':' !in ts[i].key
    ensures |Split(TicketSummaries(ts), '\n')| == |ts|
    ensures forall i :: 0 <= i < |ts| ==> LineKey(Split(TicketSummaries(ts), '\n')[i]) == ts[i].key
  {
    SummaryLines(ts);
    forall i | 0 <= i < |ts| ensures LineKey(TicketLines(ts)[i]) == ts[i].key {
      LineKeyOf(ts[i]);
    }
  }

  // ---------------------------------------------------------------------------
  // filterTicketsWithNLP, after the reply is parsed
  // ---------------------------------------------------------------------------

  function HasKeyIn(keys: seq<string>): Issue -> bool {
    (t: Issue) => t.key in keys
  }

  /**
   * `tickets.filter(ticket => matchingKeys.includes(ticket.key))`: exactly the
   * tickets whose key the reply names, in input order, each as often as the
   * input holds it.
   */
  function FilterByKeys(tickets: seq<Issue>, keys: seq<string>): (r: seq<Issue>)
    ensures |r| <= |tickets|
    ensures IsSubsequence(r, tickets)
    ensures forall x :: x in r <==> x in tickets && x.key in keys
    ensures forall x :: multiset(r)[x] == if x.key in keys then multiset(tickets)[x] else 0
  {
    KeySelection(tickets, keys);
    Filter(tickets, HasKeyIn(keys))
  }

  /** The facts about filtering by keys that `FilterByKeys` promises. */
  lemma KeySelection(tickets: seq<Issue>, keys: seq<string>)
    ensures IsSubsequence(Filter(tickets, HasKeyIn(keys)), tickets)
    ensures forall x :: x in Filter(tickets, HasKeyIn(keys)) <==> x in tickets && x.key in keys
    ensures forall x :: multiset(Filter(tickets, HasKeyIn(keys)))[x] == if x.key in keys then multiset(tickets)[x] else 0
  {
    var p := HasKeyIn(keys);
    var r := Filter(tickets, p);
    FilterIsSubsequence(tickets, p);
    FilterMembers(tickets, p);
    forall x ensures x in r <==> x in tickets && x.key in keys {
      if x in r {
        var i :| 0 <= i < |r| && r[i] == x;
      }
      if x in tickets && x.key in keys {
        var i :| 0 <= i < |tickets| && tickets[i] == x;
      }
    }
    forall x ensures multiset(r)[x] == if x.key in keys then multiset(tickets)[x] else 0 {
      FilterMultiplicity(tickets, p, x);
    }
  }

  /**
   * Only which keys the reply names matters: their order and repetitions
   * change nothing.
   */
  lemma ReplyOrderIrrelevant(tickets: seq<Issue>, keys: seq<string>, others: seq<string>)
    requires forall k :: k in keys <==> k in others
    ensures FilterByKeys(tickets, keys) == FilterByKeys(tickets, others)
  {
    FilterCongruent(tickets, HasKeyIn(keys), HasKeyIn(others));
  }

  /** Keys that name no input ticket are ignored. */
  lemma UnknownKeysIgnored(tickets: seq<Issue>, keys: seq<string>, unknown: seq<string>)
    requires forall t :: t in tickets ==> t.key !in unknown
    ensures FilterByKeys(tickets, keys + unknown) == FilterByKeys(tickets, keys)
  {
    FilterCongruent(tickets, HasKeyIn(keys + unknown), HasKeyIn(keys));
  }

  /** A reply naming every ticket's key selects the whole input; one naming none selects nothing. */
  lemma AllOrNothing(tickets: seq<Issue>, keys: seq<string>)
    ensures (forall t :: t in tickets ==> t.key in keys) ==> FilterByKeys(tickets, keys) == tickets
    ensures (forall t :: t in tickets ==> t.key !in keys) ==> FilterByKeys(tickets, keys) == []
  {
    if forall t :: t in tickets ==> t.key in keys {
      FilterKeepsAll(tickets, HasKeyIn(keys));
    }
    if forall t :: t in tickets ==> t.key !in keys {
      FilterKeepsNone(tickets, HasKeyIn(keys));
    }
  }

  /**
   * How the filtering call ends: a reply parsed to a list of keys, or a
   * failure with its error message (the completion call failed, or the reply
   * was not valid JSON).
   */
  datatype Reply = Keys(keys: seq<string>) | Failure(message: string)

  /** `filterTicketsWithNLP` after the completion: a failure is rethrown, with no partial result. */
  function FilterTicketsWithNlp(reply: Reply, tickets: seq<Issue>): (r: Result<seq<Issue>, string>)
    ensures r.Ok? <==> reply.Keys?
    ensures r.Err? ==> r.error == reply.message
    ensures r.Ok? ==> IsSubsequence(r.value, tickets)
    ensures r.Ok? ==> forall x :: x in r.value <==> x in tickets && x.key in reply.keys
    ensures reply.Keys? ==> r == Ok(FilterByKeys(tickets, reply.keys))
  {
    match reply
    case Keys(keys) => Ok(FilterByKeys(tickets, keys))
    case Failure(message) => Err(message)
  }

  // ---------------------------------------------------------------------------
  // tools/call
  // ---------------------------------------------------------------------------

  /** The analyst model's answer to a prompt. */
  datatype Completion = Completed(text: string) | Failed(message: string)

  /** The single content item of a tool result. */
  datatype Content =
    | Text(text: string)
      /** JSON.stringify({ filteredTickets, count, query }, null, 2), kept as its fields. */
    | QueryJson(filteredTickets: seq<Issue>, count: nat, query: string)

  /** What the handler does: return a tool result, or throw. */
  datatype CallOutcome = ToolResult(content: Content, isError: bool) | Thrown(message: string)

  /** The `tools/call` handler for tool `name` with arguments `query` and `tickets`. */
  function HandleCallTool(
    name: string, query: string, tickets: seq<Issue>,
    analyst: string -> Completion, reply: Reply): (r: CallOutcome)
    ensures r.Thrown? <==> name != AnalyzeTool && name != QueryTool
    ensures r.Thrown? ==> r.message == "Unknown tool: " + name
    ensures r.ToolResult? && r.isError ==> r.content.Text?
    ensures r.ToolResult? && r.content.QueryJson? ==>
      name == QueryTool && !r.isError && r.content.query == query &&
      r.content.count == |r.content.filteredTickets| &&
      IsSubsequence(r.content.filteredTickets, tickets)
  {
    if name == AnalyzeTool then
      match analyst(AnalysisPrompt(ProjectAll(tickets)))
      case Completed(summary) => ToolResult(Text(summary), false)
      case Failed(message) => ToolResult(Text("Error analyzing tickets: " + message), true)
    else if name == QueryTool then
      match FilterTicketsWithNlp(reply, tickets)
      case Ok(filtered) => ToolResult(QueryJson(filtered, |filtered|, query), false)
      case Err(message) => ToolResult(Text("Error filtering tickets: " + message), true)
    else
      Thrown("Unknown tool: " + name)
  }

  /**
   * The analysis tool returns the analyst's answer to the prompt built from
   * the projected tickets, or reports the analyst's failure as an error.
   */
  lemma AnalyzeOutcome(query: string, tickets: seq<Issue>, analyst: string -> Completion, reply: Reply)
    ensures var r := HandleCallTool(AnalyzeTool, query, tickets, analyst, reply);
      var answer := analyst(AnalysisPrompt(ProjectAll(tickets)));
      r.ToolResult? && (r.isError <==> answer.Failed?) &&
      (answer.Completed? ==> r.content == Text(answer.text)) &&
      (answer.Failed? ==> r.content == Text("Error analyzing tickets: " + answer.message))
  {
  }

  /**
   * The query tool returns exactly the tickets the reply names, in input
   * order, with their count and the query; a failed call or unparsable reply
   * gives an error result and no tickets.
   */
  lemma QueryOutcome(query: string, tickets: seq<Issue>, analyst: string -> Completion, reply: Reply)
    ensures var r := HandleCallTool(QueryTool, query, tickets, analyst, reply);
      r.ToolResult? && (r.isError <==> reply.Failure?) &&
      (reply.Keys? ==> r.content == QueryJson(FilterByKeys(tickets, reply.keys), |FilterByKeys(tickets, reply.keys)|, query)) &&
      (reply.Failure? ==> r.content == Text("Error filtering tickets: " + reply.message))
  {
  }
}
