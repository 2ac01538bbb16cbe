# Service-desk ticket console: a verified model of its deterministic core

The repository is a small service-desk analytics demo. It has three deterministic pieces, and this project models each one.

1. **The mock Jira search.**
   - `GET /rest/api/3/search` reads a start bound and an end bound out of a JQL string. It uses two literal patterns, `created >= "…"` and `created <= "…"`.
   - When both bounds are found, it returns the fixture issues whose `created` timestamp lies between them. The comparison is JavaScript string order, inclusive on both ends. Otherwise it returns the whole fixture.
   - `POST /api/tickets` builds that JQL string from a `startDate`/`endDate` pair.
   - `backend/index.js` and `backend/index_backup.js` contain the same handler and builder verbatim (index_backup.js:213-231 and :237 repeat index.js:40-58 and :64). They differ only in their fixtures: 3 issues and 20 issues. Module `Jql` models the handler and builder once. `BackendIndex` and `BackendIndexBackup` hold the two fixtures and the concrete date-range queries over them.
2. **The MCP tool server.**
   - `analyze_jira_tickets` projects the tickets into flat records and renders them into an analysis prompt. It returns the analyst's answer, or an error result.
   - `query_jira_tickets_nlp` keeps the input tickets whose key appears in the key list the language model returned. It replies with `{filteredTickets, count, query}`.
   - Any other tool name throws `Unknown tool: <name>`.
   - Module `McpServer` models all three. The language model is an input: the analyst is a function from prompt to completion, and the filter call ends either with a parsed key list or with a failure (the completion call failed, or its reply was not valid JSON).
3. **The key-shuffle listing script.**
   - `jumble_script.py` fills a dictionary from each id 1..100 to `JSD-<100+id>`.
   - It then prints a header and a comment line for each entry of a fixed 100-entry shuffle, followed by a footer.
   - Module `JumbleScript` models both loops as methods.
     - One method builds the `map` in a `for` loop.
     - One appends the lines to a `seq<string>`.
     - The shuffle is proved to be a permutation of 1..100.

The shared modules:

| Module | Holds |
|---|---|
| `Wrappers` | `Option`, `Result` |
| `Tickets` | The `Issue` record |
| `JsStrings` | JavaScript's `<=` on strings, prefixes and suffixes, decimal rendering of integers |
| `Seqs` | Order-preserving `Filter`, subsequences, `Join`/`Split` |

How the model reads JavaScript and Python:

- **Regular expressions.** `jql.match(/created >= "([^"]+)"/)` is modelled as the leftmost position where the literal is followed by one or more non-quote characters and a quote. JavaScript tries later positions when an earlier occurrence of the literal does not complete a match. `Jql.Search` does the same, so `created >= ""` followed later by `created >= "x"` captures `x`.
- **Missing values.** `null`/`undefined` become `None`. A thrown error becomes `Result.Err`, or a `Thrown` outcome at the tool level.
- **Round trip.** Two dates are *quote-free* when neither contains a `"`. They are *proper dates* when they are quote-free, both are non-empty, and the start date does not end in `created <= `. Building the JQL from proper dates and extracting the bounds again gives back the two dates.

  When the start date does end in `created <= `, the end pattern first matches inside the builder's own middle text. The extracted end bound is then ` AND created <= ` (`Jql.SpoiledEndBound`).

## Model

| member | source | states |
|---|---|---|
| `Jql.MatchAt` | backend/index.js:45-46 | A capture at position `p` is the literal followed by one or more non-quote characters and a closing quote. It is the only such capture at `p`. |
| `Jql.Search` | backend/index.js:45-46 | Finds the leftmost position at or after `from` where the pattern matches, or reports that no position matches. |
| `Jql.Capture` | backend/index.js:45-48 | No capture means the pattern matches nowhere. A capture is the text of a match with no complete match at any earlier position. |
| `Jql.LeftmostCapture` | backend/index.js:47-48 | The captured bound is the text of the first place the pattern matches completely. |
| `Jql.ExtractBounds` | backend/index.js:43-49 | A falsy `jql` gives two `null` bounds. Otherwise each bound is the first capture of its own pattern. Every bound found is non-empty and quote-free. |
| `Jql.AbsentLiteral` | backend/index.js:45-46 | A JQL text in which the literal `created >= "` (or `created <= "`) never occurs yields no bound for it. |
| `Jql.CompactSpacingNoBound` | backend/index.js:45-46 | The match is space-exact. `created>="…" AND created<="…"` yields neither bound, so the search returns every issue. |
| `Jql.SearchIssues` | backend/index.js:40-58 | The result is always an order-preserving subsequence of the fixture. With both bounds truthy, it is exactly the fixture filtered by the inclusive window: every in-window issue is kept, as often as the fixture holds it, and no other. Otherwise it is the whole fixture. |
| `Jql.NoJqlReturnsAll` | backend/index.js:44-51 | An absent or empty `jql` returns the fixture unchanged. |
| `Jql.BuildJql` | backend/index.js:64 | The JQL text is `created >= "`, then the start date, then `" AND created <= "`, then the end date, then a closing quote. Each piece sits at a fixed position, which is what extraction reads back. |
| `Jql.BuiltQuotes` | backend/index.js:64 | With quote-free dates, the built JQL has quotes at exactly four positions: around each date. |
| `Jql.StartBuilt` | backend/index.js:45 | For quote-free dates, the start pattern applied to the built JQL captures the start date exactly, or nothing when that date is empty. |
| `Jql.EndBuilt` | backend/index.js:46 | For quote-free dates, the end pattern applied to the built JQL captures the end date. There are two exceptions: it captures ` AND created <= ` when the start date ends in `created <= `, and nothing when the end date is empty. |
| `Jql.ExtractBuilt` | backend/index.js:43-49 | The two bounds extracted from any built JQL with quote-free dates, in every case. |
| `Jql.JqlRoundTrip` | backend/index.js:64 | For proper dates, extracting from the built JQL gives back exactly those dates. |
| `Jql.SpoiledEndBound` | backend/index.js:46-48 | For quote-free dates whose start date ends in `created <= `, the extracted end bound is ` AND created <= `. |
| `Jql.EmptyDateReturnsAll` | backend/index.js:50-51 | For quote-free dates, an empty start date leaves a bound missing from the JQL, and so does an empty end date after a start date that does not end in `created <= `. Every issue is then returned. |
| `Jql.SearchByDates` | backend/index.js:50-56 | For proper dates, searching with the built JQL returns an issue exactly when it is in the fixture and its `created` lies in the inclusive window. |
| `Jql.TicketsForRange` | backend/index.js:61-68 | `POST /api/tickets` always returns a subsequence of the fixture. For proper dates (defined above), it holds exactly the issues created in the window. |
| `Jql.TicketsForRangeFilter` | backend/index.js:51-56 | For proper dates (defined above), `POST /api/tickets` returns exactly the order-preserving filter of the fixture by the window. |
| `Jql.InvertedWindowEmpty` | backend/index.js:54 | A window whose start sorts after its end keeps no issue. |
| `Jql.InvertedRangeEmpty` | backend/index.js:61-68 | For proper dates whose start date sorts after the end date, the range returns no ticket. |
| `Jql.DateBoundaries` | backend/index.js:54 | A timestamp that starts with the start date is at or after it. A longer timestamp that starts with the end date sorts after the end date and is excluded. |
| `Jql.DayWindow` | backend/index.js:54 | When a timestamp and two bare dates agree up to the tens digit of the day, the timestamp lies in the window exactly when its units digit of the day is at least the start's and below the end's. |
| `BackendIndex.FirstWeekWindow` | backend/index.js:9-37 | Of the three fixtures, only JSD-101 lies in the window 2025-09-01 to 2025-09-05. |
| `BackendIndex.FirstWeek` | backend/index.js:61-68 | The range 2025-09-01 to 2025-09-05 returns exactly `[JSD-101]`. JSD-102, created on 09-05 with a time, is excluded. |
| `BackendIndexBackup.SixthFilter` | backend/index_backup.js:223-228 | The window 2025-09-06 to 2025-09-07 keeps exactly JSD-109, JSD-113 and JSD-120, in fixture order. |
| `BackendIndexBackup.SixthOfSeptember` | backend/index_backup.js:234-242 | The range 2025-09-06 to 2025-09-07 returns exactly `[JSD-109, JSD-113, JSD-120]`. JSD-114 and JSD-121, created on 09-07 with a time, are excluded. |
| `Seqs.FilterMembers` | backend/index_backup.js:225-228 | An element is in the filtered sequence exactly when it is in the input and satisfies the predicate. |
| `Seqs.FilterIsSubsequence` | backend/index_backup.js:225-228 | `filter` keeps the input's order and invents nothing. |
| `Seqs.FilterMultiplicity` | backend/index_backup.js:225-228 | `filter` keeps every accepted element as often as the input has it, and no rejected one. |
| `McpServer.ProjectAll` | mcp-server/index.js:119-125 | One record per ticket, in ticket order. Each copies its ticket's key, summary, status name, created and root cause. |
| `McpServer.ProjectAppend` | mcp-server/index.js:119-125 | The projection distributes over concatenation, so it works ticket by ticket. |
| `McpServer.AnalysisPrompt` | mcp-server/index.js:207-230 | Reading the number in the prompt's header gives back the number of tickets. |
| `McpServer.TicketsSectionOfPrompt` | mcp-server/index.js:207-230 | The prompt is a prefix that ends in the `TICKETS:` heading, then the TICKETS section (`TicketSummaries`), then the fixed instructions. So the line facts of `SummaryLines` and `SummaryKeys` hold for the text between that heading and the instructions. |
| `McpServer.SummaryLines` | mcp-server/index.js:203-205 | For at least one ticket (`\|ts\| > 0`), all of whose fields are single-line, splitting the TICKETS section at newlines gives back exactly one rendered line per ticket, in order. |
| `McpServer.SummaryKeys` | mcp-server/index.js:203-205 | For at least one ticket (`\|ts\| > 0`), with single-line fields and no colon in any key, the TICKETS section splits into one line per ticket, and line `i` names ticket `i`'s key. |
| `McpServer.LineKeyOf` | mcp-server/index.js:204 | The key can be read back from a ticket's rendered line when it has no colon. |
| `McpServer.TicketSummaries` | mcp-server/index.js:203-205 | The TICKETS section is empty exactly when there are no tickets. |
| `McpServer.FilterByKeys` | mcp-server/index.js:272-274 | The selection is an order-preserving subsequence of the tickets. A ticket is selected exactly when its key is in the reply. Each selected ticket appears as often as in the input. |
| `McpServer.ReplyOrderIrrelevant` | mcp-server/index.js:273 | Two replies naming the same keys select the same tickets, whatever their order or repetition. |
| `McpServer.UnknownKeysIgnored` | mcp-server/index.js:273 | Keys that match no ticket change nothing. |
| `McpServer.AllOrNothing` | mcp-server/index.js:272-274 | A reply naming every ticket's key returns all tickets, and one naming none returns none. |
| `McpServer.FilterTicketsWithNlp` | mcp-server/index.js:268-280 | A parsed key list succeeds with exactly the key selection of the tickets: an input ticket is kept when its key is in the list, in input order. A failure is rethrown with its message and no partial result. |
| `McpServer.HandleCallTool` | mcp-server/index.js:111-200 | An unknown tool name throws `Unknown tool: <name>`, and nothing else throws. Error results are text. A JSON reply comes only from the query tool; its `count` is the length of `filteredTickets`, its `query` echoes the input, and its tickets are a subsequence of the input. |
| `McpServer.AnalyzeOutcome` | mcp-server/index.js:114-166 | The analyze tool prompts the analyst with the prompt built from the projected tickets. It returns the answer's text on success, or `Error analyzing tickets: <message>` with `isError` on failure. |
| `McpServer.QueryOutcome` | mcp-server/index.js:168-197 | The query tool returns the selected tickets, their count and the echoed query. When the filtering call fails, it returns `Error filtering tickets: <message>` with `isError`. |
| `JumbleScript.ShuffleIsPermutation` | jumble_script.py:4-8 | `jumbled_order` has 100 entries, all in 1..100. No entry is repeated, and every id 1..100 occurs. |
| `JumbleScript.JsdKeyInjective` | jumble_script.py:13 | Different ids get different `JSD-` keys. |
| `JumbleScript.JsdKeyLength` | jumble_script.py:13 | The key of every id 1..100 has seven characters, `JSD-` and three digits. |
| `JumbleScript.JsdKeysRange` | jumble_script.py:12-13 | The keys of ids 1..100 are exactly `JSD-101`..`JSD-200`. |
| `JumbleScript.BuildIdToJsd` | jumble_script.py:11-13 | The dictionary's domain is exactly 1..100, and each id maps to `JSD-` followed by the decimal digits of 100 + id. |
| `JumbleScript.IdToJsdFacts` | jumble_script.py:11-13 | That dictionary is injective, and its values are exactly `JSD-101`..`JSD-200`. |
| `JumbleScript.EmitComments` | jumble_script.py:19-21 | The loop appends one comment line per shuffle entry, in shuffle order, to the lines printed before it. Every lookup finds its id. |
| `JumbleScript.JumbleListing` | jumble_script.py:16-23 | The script prints exactly the header, the array opening, the 100 comment lines and the closing. |
| `JumbleScript.ListingShape` | jumble_script.py:16-23 | The listing has `len(jumbled_order) + 3` lines. Line `k + 2` is the comment for position `k + 1`, naming `jumbled_order[k]` and its key. |
| `JumbleScript.CommentKey` | jumble_script.py:21 | Each comment line ends with ` -> ` and the key of the id it names. |
| `JumbleScript.CommentKeysDiffer` | jumble_script.py:21 | A comment line ends with the key of the id it names and of no other id. |
| `JumbleScript.EachKeyListedOnce` | jumble_script.py:19-21 | Each of `JSD-101`..`JSD-200` ends exactly one of the 100 comment lines. |

## Left out

- **Language-model calls.** The OpenAI chat-completion calls at mcp-server/index.js:129-143 and 252-266 are network calls. The analyze path's call is the function parameter `analyst`. The filter path's parsed reply is the input `Reply`.
- **The filter prompt.** The prompt `filterTicketsWithNLP` sends (mcp-server/index.js:235-250) is not modelled. Nothing downstream depends on its text, only on the reply.
- **`JSON.parse` shapes.** A reply that parses to something other than an array of strings, such as a bare string, gets substring semantics from `.includes`. The model only distinguishes a key array from a failure.
- **`JSON.stringify` text.** The query tool's text reply is modelled by its three fields (`QueryJson`), not by the two-space-indented text.
- **Other exceptions.** The model covers the failures of the filtering call and of parsing its reply, both as `Reply.Failure`. It does not cover other exceptions, such as an `args` without `tickets` or a ticket without `fields`. The `console.error` logging is also left out.
- **MCP and HTTP plumbing.**
  - The `Server` and `StdioServerTransport` setup and the `ListTools` schema (mcp-server/index.js:18-108, 283-292).
  - Express routing and CORS.
  - The `fetch` self-call from `/api/tickets` to the search endpoint, and the `node-fetch` polyfill.
  - `encodeURIComponent` and query-string decoding, which are inverse to each other: the JQL string is modelled directly.
- **`undefined` in templates.** A request body without `startDate` or `endDate` puts the text `undefined` into the JQL. The model takes both dates as strings.
- **UTF-16.** JavaScript compares strings by UTF-16 code units. The model compares Dafny characters. The two agree on the ASCII dates used here.
- **Printing.** `print` in jumble_script.py is modelled as the sequence of lines printed.
- **The frontend and the tests.** The React frontends (frontend/App.js, frontend/src/App.jsx) and the test drivers (mcp-server/test.js, mcp-server/test-openai.js) are not part of this model.
- **No retry and no substitute.** A failed filter call is neither retried nor replaced by another filter: `filterTicketsWithNLP` logs the error and rethrows it (mcp-server/index.js:277-280), and the tool returns an error result. The model has exactly that outcome and nothing more.
- `McpServer.SummaryKeys`: requires keys without a colon and fields without a newline. Without these, the source's line layout does not let a key be read back, and the source does not restrict them.
