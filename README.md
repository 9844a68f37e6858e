# Search-provider comparison: verified model

This project models the server of a tool that compares three web-search providers:
Parallel, Exa and an OpenAI model with web search. For one query the server does this:

- It asks the three providers for results. A provider that fails or times out is turned
  into an error placeholder.
- It lets a judge model rate each provider's accuracy.
- It scores every provider on latency, cost and accuracy, then ranks them and picks a
  winner or a tie.
- A test-suite run repeats this over a list of queries. It streams progress and result
  events and ends with a summary of wins and ties.

The remote calls are inputs to the model:

- a provider's HTTP response, with its status, body text and parsed body;
- the measured latency;
- the text of the judge model's reply;
- how long each call took against its timer.

`JSON.parse` is a function parameter that returns `None` where the parse would throw.

Modules, one per source file:

- `Types`: shared values such as a provider's result and an HTTP response.
- `Text`: trimming, substring search, join and split, decimal digits, and the
  `"<prefix><status> - <text>"` error message with its parser.
- `Scoring`: the inverse 3..10 scale for latency and cost, the weighted total, and the
  three-entry sort with the winner and ranking.
- `Judge`: stripping of markdown fences; `judgeResults` after the model call, with
  `JudgeResults` and `ScoreVerdicts` as the step-by-step methods; `generateTestSuite`'s
  parse step.
- `LlmSearch`: `searchOpenAI` after the model call. That covers the first-fence and
  bracket-span extraction, URL dedup as a method with a `seen` set, the slice, and the
  field defaults.
- `ParallelSearch` and `ExaSearch`: the two HTTP adapters after `fetch`.
- `Server`: the routes `/api/search`, `/api/judge`, `/api/suite/generate` and
  `/api/suite/run`. The suite run is a loop method that keeps four counters and emits
  the event stream.

Each source function is modelled by one member:

- `latencyScore` and `costScore` are `Scoring.InverseScore`.
- `judgeResults` is `Judge.Judge`; `generateTestSuite`'s parse step is `Judge.GenerateTestSuite`.
- `searchOpenAI` is `LlmSearch.SearchOpenAI`, with `LlmSearch.FencedBlock`,
  `LlmSearch.BracketSpan` and `LlmSearch.Normalise` for its extraction and defaults.
- `searchParallel` is `ParallelSearch.SearchParallel`; `searchExa` is `ExaSearch.SearchExa`.
- The route handlers are `Server.SearchRoute`, `Server.JudgeRoute`, `Server.SuiteGenerateRoute`
  and `Server.RunSuite`; one query of the suite run is `Server.EvaluateQuery`.

The comments in the scoring code promise that the fastest and the cheapest provider get
10 (`server/services/openai.js` lines 94 and 106). The code, however, takes the minimum and
maximum over the positive values plus a sentinel: 1 for latency and 0.001 for cost (lines
89-90 and 101-102). The model follows the code. Since latencies are whole milliseconds,
the minimum latency is always 1. So a provider scores 10 only when its value lies within
rounding of that minimum, sentinel included: on the scale from 1 to 800 ms, every latency
up to 58 ms still rounds to 10 (`Scoring.RoundingToTen`). `Judge.SentinelExample` works an example through: Parallel
at 200 ms and $0.01 and Exa at 800 ms and $0.0085 score 8/3 and 3/4, not the 10s the
comments suggest.

## Model

| member | source | states |
|---|---|---|
| Scoring.Round | server/services/openai.js:96 | `Math.round` gives the integer within half of its argument, with halves rounded up |
| Scoring.RoundMonotone | server/services/openai.js:141-145 | rounding never reverses the order of two values |
| Scoring.ScaleOf | server/services/openai.js:88-90 | the minimum and maximum of the positive values plus the sentinel: both bracket the sentinel and every positive value, and each is the sentinel or one of those values |
| Scoring.ScoreInRange | server/services/openai.js:92-108 | a non-zero value inside the scale scores between 3 and 10 |
| Scoring.ScoreAtExtremes | server/services/openai.js:95-96 | a degenerate scale gives every non-zero value 10; on a proper scale the maximum scores exactly 3 and the minimum exactly 10 |
| Scoring.RoundingToTen | server/services/openai.js:94-96 | on the scale from 1 to 800 ms, 58 ms still rounds to a score of 10 and 59 ms to 9, so "fastest gets 10" holds only up to rounding |
| Scoring.ScoreAntitone | server/services/openai.js:104-108 | a lower non-zero latency or cost never scores lower than a higher one |
| Scoring.Total | server/services/openai.js:140-146 | with scores and accuracy in 0..10 the total is in 0..10, and at most 5 when both scores are 0 |
| Scoring.TotalMonotone | server/services/openai.js:140-146 | raising any of the three inputs never lowers the total |
| Scoring.SortDesc | server/services/openai.js:153-157 | the sorted scores are a permutation of the input |
| Scoring.SortDescOrdered | server/services/openai.js:153-157 | sorting entries given in source order yields non-increasing totals, with equal totals keeping source order (a stable sort) |
| Scoring.SortScores | server/services/openai.js:153-157 | the in-place sort of the three-entry array leaves exactly the stable descending sort of its old contents |
| Scoring.RankingProperties | server/services/openai.js:167 | the ranking lists parallel, openai and exa once each, in non-increasing total, with ties in source order |
| Scoring.WinnerProperties | server/services/openai.js:159-165 | the winner is a tie exactly when the top two totals are equal; otherwise it is the first of the ranking, and a provider wins exactly when it beats both others |
| Judge.ReasoningOf | server/services/openai.js:119 | a missing or empty reasoning reads as 'No evaluation available' |
| Judge.RemoveFencesLeavesNone | server/services/openai.js:79 | after the global removal of the fence pattern no fence is left anywhere |
| Judge.StripFences | server/services/openai.js:77-80 | text with no fence is left unchanged, and the result never contains a fence |
| Judge.StripTaggedBlock | server/services/openai.js:77-80 | a body wrapped in a fenced block tagged `json` comes back as that body |
| Judge.StripPlainBlock | server/services/openai.js:77-80 | a body wrapped in an untagged fenced block comes back as that body |
| Judge.BareOpenerKept | server/services/openai.js:79 | the tag-removing pattern leaves an untagged block untouched (a bare fence followed by a newline is no opener); the plain fence removal deals with it |
| Judge.ParseReply | server/services/openai.js:73-85 | a failed call propagates its error; a reply whose trimmed, fence-stripped text parses gives exactly that value, and one that does not parse gives the parse-failure error and never a default; a fence-free reply is parsed after trimming only |
| Judge.JudgeResults | server/services/openai.js:73-169 | step by step, `jsonStr` reassigned only when the reply holds a fence, it returns `judgeResults`' outcome: an error or the judgment over the providers' metrics and verdicts |
| Judge.ScoreVerdicts | server/services/openai.js:87-169 | building the cards, sorting the scores array in place and picking the winner give the judgment of the metrics and verdicts |
| Judge.CardScores | server/services/openai.js:92-146 | a card copies its metrics; a zero metric scores 0 and a present one 3..10; a missing verdict gives accuracy 0 and the default reasoning; the total stays within 0..10, and at most 5 without metrics |
| Judge.AssessScores | server/services/openai.js:88-102 | the scales built from the three providers contain each provider's present metrics |
| Judge.AssessRanking | server/services/openai.js:153-167 | the judgment's ranking is a stable non-increasing permutation of the three providers, and its winner is a tie exactly when the top two totals are equal |
| Judge.JudgeOutcomes | server/services/openai.js:16-118 | (the metrics at lines 16-32, the reply parse at 73-85 and the verdict read at 118) a failed call, an unparseable reply and a `null` reply are errors; a reply parsing to per-provider verdicts gives the assessment of those verdicts over the providers' metrics, and a judgment carries each provider's metrics defaulted to 0 |
| Judge.SentinelExample | server/services/openai.js:88-108 | with the sentinels in the scales, 200 ms/$0.01 and 800 ms/$0.0085 score 8/3 and 3/4 and a provider with no metrics scores 0/0 |
| Judge.GenerateTestSuite | server/services/openai.js:230-241 | a failed call propagates; a reply whose trimmed, fence-stripped text parses gives exactly that value, and one that does not parse gives the suite parse-failure error |
| LlmSearch.FencedBlockFound | server/services/openai-search.js:49-54 | there is a block exactly when the text holds two fences; the block is the trimmed, untagged text between the first fence and the next |
| LlmSearch.FirstBlockWins | server/services/openai-search.js:50-53 | of several fenced blocks, only the first one's inner text is kept |
| LlmSearch.BracketSpanFound | server/services/openai-search.js:57-60 | the candidate runs from the first `[` to the last `]`, and there is none exactly when no `[` precedes a `]` |
| LlmSearch.BracketSpanOf | server/services/openai-search.js:57 | an array surrounded by text without brackets is found whole |
| LlmSearch.ExtractResults | server/services/openai-search.js:43-64 | with `jsonStr` and `results` reassigned step by step, it yields the parsed array or nothing |
| LlmSearch.KeepFirst | server/services/openai-search.js:67-69 | every entry kept has a URL not seen before, and nothing is added |
| LlmSearch.Dedup | server/services/openai-search.js:67-69 | the filter that fills a `seen` set as it goes keeps exactly the first entry of every URL |
| LlmSearch.KeepFirstDistinct | server/services/openai-search.js:69 | no two kept entries share a URL |
| LlmSearch.KeepFirstSubsequence | server/services/openai-search.js:68-69 | the kept entries are a subsequence of the parsed ones, in order |
| LlmSearch.KeepFirstKeepsFirst | server/services/openai-search.js:69 | the first entry with a given URL is always kept |
| LlmSearch.KeepFirstIgnoresUnkeyed | server/services/openai-search.js:69 | an entry without a URL is dropped without being recorded as seen |
| LlmSearch.ToHit | server/services/openai-search.js:71-75 | every hit has a non-empty title and the entry's URL, and its excerpt is non-empty exactly when the entry has a non-empty excerpt or summary |
| LlmSearch.NormaliseProperties | server/services/openai-search.js:67-75 | the hits are the first unique-URL entries, all with truthy and distinct URLs; there are exactly `numResults` of them when that many are kept, all kept ones when fewer are, and for a negative `numResults` all but that many from the back |
| LlmSearch.SearchOpenAI | server/services/openai-search.js:39-92 | a failed call gives the error result with no results and cost 0; otherwise it gives provider openai, cost 0.04 and the normalised parsed entries |
| LlmSearch.ParseFailureSwallowed | server/services/openai-search.js:56-64 | no bracket span, or one that does not parse, gives a successful empty result |
| LlmSearch.FencedArrayFound | server/services/openai-search.js:46-59 | a fenced JSON array between prose is reduced to exactly that array before parsing |
| ParallelSearch.ExcerptsRecoverable | server/services/parallel.js:43 | joined excerpts without newlines split back into the original excerpts |
| ParallelSearch.SearchParallel | server/services/parallel.js:26-45 | a failed response is an error; otherwise the result count equals that of `data.results` (0 when missing), in order, with title, URL and `publish_date` copied, and the cost is always 0.01 |
| ParallelSearch.ErrorNamesStatus | server/services/parallel.js:26-29 | the error message gives back the status code and body text |
| ExaSearch.Cost | server/services/exa.js:31-32 | the cost is at least 0.0035, and exactly 0.0035 for no results |
| ExaSearch.CostIncreasing | server/services/exa.js:31-32 | every further result adds exactly 0.001 |
| ExaSearch.ExcerptRecoverable | server/services/exa.js:45 | a truthy text is the excerpt whatever the highlights; without one, newline-free highlights joined with a blank line split back into the highlights |
| ExaSearch.SearchExa | server/services/exa.js:25-47 | a failed response is an error; otherwise the result count equals that of `data.results`, in order, with fields copied, and the cost is that of the result count |
| ExaSearch.CostOrdered | server/services/exa.js:31-32 | a missing `results` costs 0.0035, and more results always cost more |
| ExaSearch.ErrorNamesStatus | server/services/exa.js:25-28 | the error message gives back the status code and body text |
| Text.StatusMessageRoundTrip | server/services/parallel.js:28 | an API error message parses back into its status and body text |
| Text.SplitJoin | server/services/parallel.js:43 | joining items that avoid the separator's characters and splitting again gives the items back |
| Text.TrimAround | server/services/openai.js:73 | trimming removes exactly the surrounding whitespace |
| Server.SettleOutcome | server/index.js:29-33 | a failed slot becomes a placeholder with its provider, the error message and no results, latency or cost; a successful slot is kept |
| Server.ParallelFailureSettles | server/index.js:30 | a failed Parallel response settles into a placeholder whose message names the status and body text |
| Server.SearchValidation | server/index.js:23-27 | a missing or empty query gets 400 whatever the providers would return; any other query gets 200 |
| Server.SearchSlots | server/index.js:29-35 | each slot is its own provider's settled call, unaffected by the other slots |
| Server.SearchDefaultCount | server/index.js:23 | a missing `numResults` is served as 10 |
| Server.JudgeRouteOutcomes | server/index.js:45-56 | a request missing any input gets 400 whatever the judge says; otherwise the judgment with 200, or the judge's error with 500 |
| Server.SuiteGenerateOutcomes | server/index.js:60-69 | the generated queries with 200, or the error's message with 500 |
| Server.RunSuite | server/index.js:74-78 | a list of queries that is missing, not an array or empty gets 400 and no events; otherwise the event stream of all queries |
| Server.StreamSuite | server/index.js:85-163 | the loop with its four counters emits the progress and result events of every query, in order, and then the summary |
| Server.EvaluateOne | server/index.js:98-149 | the searches raced against their timers, then the judge raced against its own, give the query's result |
| Server.Count | server/index.js:114-117 | a judged query adds one to exactly one of the four counters, and a failed one to none |
| Server.StepsShape | server/index.js:92-149 | there are two events per query: progress i+1 of N, then result i |
| Server.SuiteStreamShape | server/index.js:92-163 | for N queries there are 2N+1 events, with the summary last and only there; its total is N, and wins plus ties plus failures make N |
| Server.TallyAddsUp | server/index.js:114-117 | the wins, ties and failures add up to the number of results |
| Server.JudgeTimeoutFails | server/index.js:112 | a judge call that outlives its timer fails the query with 'Timeout' |
| Server.NoMetricsScoresZero | server/services/openai.js:16-32 | for each of Parallel, Exa and OpenAI, a provider result with no latency and no cost is judged with both read as 0 and both scored 0 |
| Server.SearchTimers | server/index.js:105-108 | each search keeps its outcome while it finishes under its own timer (15000 ms for Parallel and Exa, 20000 ms for OpenAI, so an OpenAI call between 15000 and 20000 ms is kept), and otherwise becomes the provider's placeholder with 'Timeout' |
| Server.SearchTimeoutScoresZero | server/index.js:105-109 | each of the three searches that outlives its own timer leaves a judged slot with no results, the timeout message, and latency and cost read as 0 and scored 0 |
| Server.EvaluatedCopies | server/index.js:112-148 | a query is judged exactly when the judge succeeds; its result copies the cards, winner and ranking and counts each provider's results; otherwise it is the query with the error message |
| Server.EvaluatedRanking | server/index.js:136-137 | a judged query's ranking lists all three providers, and its winner is a tie or the first of the ranking |

## Left out

- Network and model calls, clocks and timers: `fetch`, the OpenAI client and `Date.now` are left out, and their results are inputs. A timed call is an outcome plus an elapsed time. A call that settles exactly at its deadline counts as timed out.
- Concurrency: `Promise.all` runs the three searches in parallel. The model evaluates them one after another, which gives the same result because the slots are independent.
- `JSON.parse` and the general regular-expression engine: parsing is a function parameter. Only the patterns the code uses are written out, as string functions.
- Parsed JSON values of unexpected types are not modelled: a non-string title, a non-array `results`, a non-number accuracy. Fields are `Option`s of the expected type. A non-array `results` would throw, and so would an Exa `highlights` that is not an array when the result has no truthy text.
- A `null` message content from the judge or suite model would throw on `.trim()`; reply texts are always strings here. For `searchOpenAI`, a `null` content reads as ''.
- IEEE-754 floating point: costs, scales and totals are exact reals. So `0.0035 + n * 0.001` and the `===` comparisons of the float minimum and maximum are exact here.
- Prompt templates, `toFixed(4)`, `console.error` logging, and the `count` and `topic` of suite generation: they only shape the prompt. The `resultCount` of the judge's metrics appears in the prompt only and is not modelled.
- Response fields that are passed through untouched are not modelled: `searchId`, `requestId`, `searchType`.
- Express wiring is left out: CORS, static files, SSE headers, `res.end`, the catch-all route, `app.listen`. So is the outer catch of `/api/search` and of the suite run (a 500, or an `error` event for the suite), which only a transport failure reaches, since the searches are settled and a query's failure is caught per query; the catch of `/api/judge` and `/api/suite/generate`, which every judge or generation error reaches, is modelled as their 500; and `client/src/main.js`, which is UI setup.
- `ExaSearch.Cost`: the cost is exact, not the floating-point sum the code computes.
