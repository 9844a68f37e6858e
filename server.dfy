/** The HTTP routes: input validation, settling each provider's call into a result or a
    placeholder, the judge route, test-suite generation and the suite run that streams
    progress and result events. */
module Server {
  import opened Types
  import opened Text
  import opened Scoring
  import opened Judge
  import ParallelSearch

  const DefaultNumResults: int := 10

  /** Timeouts of the suite run, in milliseconds. */
  const SearchTimeout: nat := 15000
  const OpenAITimeout: nat := 20000
  const JudgeTimeout: nat := 30000

  const QueryRequired := "Query is required"
  const JudgeInputsRequired := "Query, parallelResults, exaResults, and openaiResults are required"
  const QueriesRequired := "Queries array is required"
  const TimeoutMessage := "Timeout"

  /** A JSON body sent back by a route. */
  datatype Body =
    | ErrorBody(error: string)
    | SearchBody(parallel: ProviderResult, exa: ProviderResult, openai: ProviderResult)
    | JudgmentBody(judgment: Judgment)
    | QueriesBody(queries: seq<string>)

  datatype HttpReply = HttpReply(status: nat, body: Body)

  /** The object a `.catch` puts in a provider's slot: the error message and no results.
      It has no latency and no cost. */
  function Placeholder(p: Provider, message: string): ProviderResult {
    ProviderResult(p, None, None, [], Some(message))
  }

  /** A provider call once settled: its result, or the placeholder for its error. */
  function Settle(p: Provider, outcome: Result<ProviderResult>): ProviderResult {
    match outcome
    case Ok(r) => r
    case Err(e) => Placeholder(p, e)
  }

  /** A settled slot holds the call's result when it succeeded; otherwise it names the
      provider, has no results, no latency and no cost, and carries the error message. */
  lemma SettleOutcome(p: Provider, outcome: Result<ProviderResult>)
    ensures var r := Settle(p, outcome);
      && (outcome.Ok? ==> r == outcome.value)
      && (outcome.Err? ==>
            && r.provider == p && r.results == [] && r.error == Some(outcome.error)
            && MetricsOf(r) == Metrics(0, 0.0))
  {
  }

  /** A Parallel response that is not ok settles into a placeholder whose message gives
      back the status code and the body text. */
  lemma ParallelFailureSettles(response: Response<ParallelSearch.Data>, latency: nat)
    requires !response.ok
    ensures var r := Settle(Parallel, ParallelSearch.SearchParallel(response, latency));
      && r.results == [] && r.error.Some?
      && ParseStatusMessage(ParallelSearch.ErrorPrefix, r.error.value) == Some((response.status, response.text))
  {
    ParallelSearch.ErrorNamesStatus(response, latency);
  }

  // ---------------------------------------------------------------------------------
  // POST /api/search

  /** The request body's `query` and `numResults`, either possibly missing. */
  datatype SearchRequest = SearchRequest(query: Option<string>, numResults: Option<int>)

  /** What each provider's search call comes to for a query and a result count: its
      result, or the message of the error it threw. */
  type Searcher = (Provider, string, int) -> Result<ProviderResult>

  function NumResultsOf(req: SearchRequest): int {
    if req.numResults.Some? then req.numResults.value else DefaultNumResults
  }

  function SearchRoute(req: SearchRequest, search: Searcher): HttpReply {
    if !Truthy(req.query) then HttpReply(400, ErrorBody(QueryRequired))
    else
      var q, n := req.query.value, NumResultsOf(req);
      HttpReply(200, SearchBody(Settle(Parallel, search(Parallel, q, n)),
                            Settle(Exa, search(Exa, q, n)),
                            Settle(OpenAI, search(OpenAI, q, n))))
  }

  /** A missing or empty query is refused with 400 before any provider is asked: the
      reply is the same whatever the searches would have returned. Any other query gets
      200, never 500, since every provider's error is caught into its slot. */
  lemma SearchValidation(req: SearchRequest, s1: Searcher, s2: Searcher)
    ensures !Truthy(req.query) ==>
      SearchRoute(req, s1) == SearchRoute(req, s2) == HttpReply(400, ErrorBody(QueryRequired))
    ensures Truthy(req.query) ==> SearchRoute(req, s1).status == 200
  {
  }

  /** Each slot of a successful search reply is that provider's settled call with the
      request's query and count. */
  lemma SearchSlots(req: SearchRequest, search: Searcher)
    requires Truthy(req.query)
    ensures var r := SearchRoute(req, search);
      var q, n := req.query.value, NumResultsOf(req);
      && r.body.SearchBody?
      && (search(Parallel, q, n).Ok? ==> r.body.parallel == search(Parallel, q, n).value)
      && (search(Parallel, q, n).Err? ==>
            r.body.parallel.results == [] && r.body.parallel.error == Some(search(Parallel, q, n).error))
      && (search(Exa, q, n).Ok? ==> r.body.exa == search(Exa, q, n).value)
      && (search(Exa, q, n).Err? ==>
            r.body.exa.results == [] && r.body.exa.error == Some(search(Exa, q, n).error))
      && (search(OpenAI, q, n).Ok? ==> r.body.openai == search(OpenAI, q, n).value)
      && (search(OpenAI, q, n).Err? ==>
            r.body.openai.results == [] && r.body.openai.error == Some(search(OpenAI, q, n).error))
  {
  }

  /** A request without `numResults` is served as one asking for 10. */
  lemma SearchDefaultCount(req: SearchRequest, search: Searcher)
    requires req.numResults.None?
    ensures SearchRoute(req, search) == SearchRoute(req.(numResults := Some(10)), search)
  {
  }

  // ---------------------------------------------------------------------------------
  // POST /api/judge

  /** The request body's query and the three providers' results, any of them missing. */
  datatype JudgeRequest = JudgeRequest(
    query: Option<string>,
    parallel: Option<ProviderResult>, exa: Option<ProviderResult>, openai: Option<ProviderResult>)

  /** `reply` is what the judge model's call came to for this request. */
  function JudgeRoute(req: JudgeRequest, reply: Result<string>, parse: string -> Option<JudgeReply>): HttpReply {
    if !Truthy(req.query) || req.parallel.None? || req.exa.None? || req.openai.None? then
      HttpReply(400, ErrorBody(JudgeInputsRequired))
    else
      match Judge.Judge(req.parallel.value, req.exa.value, req.openai.value, reply, parse)
      case Ok(j) => HttpReply(200, JudgmentBody(j))
      case Err(e) => HttpReply(500, ErrorBody(e))
  }

  /** A request missing any input is refused with 400 whatever the judge would say; a
      complete one gets the judgment with 200 or the judge's error with 500, so a reply
      the judge cannot parse is a server error, never a default judgment. */
  lemma JudgeRouteOutcomes(req: JudgeRequest, reply: Result<string>, reply2: Result<string>,
                           parse: string -> Option<JudgeReply>)
    ensures var r := JudgeRoute(req, reply, parse);
      && (!Truthy(req.query) || req.parallel.None? || req.exa.None? || req.openai.None? ==>
            r == JudgeRoute(req, reply2, parse) == HttpReply(400, ErrorBody(JudgeInputsRequired)))
      && (Truthy(req.query) && req.parallel.Some? && req.exa.Some? && req.openai.Some? ==>
            var j := Judge.Judge(req.parallel.value, req.exa.value, req.openai.value, reply, parse);
            && (j.Ok? <==> r.status == 200)
            && (j.Ok? ==> r.body == JudgmentBody(j.value))
            && (j.Err? ==> r == HttpReply(500, ErrorBody(j.error))))
      && (reply.Ok? && parse(StripFences(Trim(reply.value))).None? ==> r.status != 200)
  {
    if Truthy(req.query) && req.parallel.Some? && req.exa.Some? && req.openai.Some? {
      JudgeOutcomes(req.parallel.value, req.exa.value, req.openai.value, reply, parse);
    }
  }

  // ---------------------------------------------------------------------------------
  // POST /api/suite/generate

  /** `reply` is what the generating model's call came to. */
  function SuiteGenerateRoute(reply: Result<string>, parse: string -> Option<seq<string>>): HttpReply {
    match GenerateTestSuite(reply, parse)
    case Ok(qs) => HttpReply(200, QueriesBody(qs))
    case Err(e) => HttpReply(500, ErrorBody(e))
  }

  /** The generated queries are sent with 200; a failed call or an unparseable reply is a
      500 with the error's message. */
  lemma SuiteGenerateOutcomes(reply: Result<string>, parse: string -> Option<seq<string>>)
    ensures var r := SuiteGenerateRoute(reply, parse);
      && (reply.Err? ==> r == HttpReply(500, ErrorBody(reply.error)))
      && (reply.Ok? && parse(StripFences(Trim(reply.value))).None? ==>
            r == HttpReply(500, ErrorBody(SuiteParseFailure)))
      && (reply.Ok? && parse(StripFences(Trim(reply.value))).Some? ==>
            r == HttpReply(200, QueriesBody(parse(StripFences(Trim(reply.value))).value)))
  {
  }

  // ---------------------------------------------------------------------------------
  // POST /api/suite/run

  /** A call raced against a timer: what it came to and how long it took. */
  datatype Timed<T> = Timed(outcome: Result<T>, elapsed: nat)

  /** `timeoutPromise`: the call's outcome if it settles before the limit, else the
      timeout error. */
  function WithTimeout<T>(call: Timed<T>, limit: nat): Result<T> {
    if call.elapsed < limit then call.outcome else Err(TimeoutMessage)
  }

  /** The four calls made for one query of the suite. */
  datatype QueryCalls = QueryCalls(
    parallel: Timed<ProviderResult>, exa: Timed<ProviderResult>, openai: Timed<ProviderResult>,
    judge: Timed<string>)

  /** One provider's part of a query's result. */
  datatype Slot = Slot(resultCount: nat, scores: ScoreCard, error: Option<string>)

  datatype QueryResult =
    | Evaluated(query: string, parallel: Slot, exa: Slot, openai: Slot,
                winner: Winner, ranking: seq<Provider>)
    | Failed(query: string, error: string)

  datatype Summary = Summary(total: nat, parallelWins: nat, exaWins: nat, openaiWins: nat, ties: nat)

  /** One server-sent event of the suite run. */
  datatype Event =
    | Progress(current: nat, total: nat, query: string)
    | ResultEvent(index: nat, result: QueryResult)
    | Complete(results: seq<QueryResult>, summary: Summary)

  datatype SuiteReply = Refused(reply: HttpReply) | Stream(events: seq<Event>)

  function SlotOf(r: ProviderResult, card: ScoreCard): Slot {
    Slot(|r.results|, card, r.error)
  }

  /** The three settled search slots of one query. */
  function SettledSearches(c: QueryCalls): (ProviderResult, ProviderResult, ProviderResult) {
    (Settle(Parallel, WithTimeout(c.parallel, SearchTimeout)),
     Settle(Exa, WithTimeout(c.exa, SearchTimeout)),
     Settle(OpenAI, WithTimeout(c.openai, OpenAITimeout)))
  }

  /** One query of the suite: the settled searches are judged; a judge error or timeout
      fails the query with its message. */
  function EvaluateQuery(query: string, c: QueryCalls, parse: string -> Option<JudgeReply>): QueryResult {
    var (p, e, o) := SettledSearches(c);
    match Judge.Judge(p, e, o, WithTimeout(c.judge, JudgeTimeout), parse)
    case Err(msg) => Failed(query, msg)
    case Ok(j) => Evaluated(query, SlotOf(p, j.parallel), SlotOf(e, j.exa), SlotOf(o, j.openai),
                            j.winner, j.ranking)
  }

  /** The results of the whole suite, query by query; `calls(k)` are the calls made for
      the query at index k. */
  function Evaluations(queries: seq<string>, calls: nat -> QueryCalls,
                       parse: string -> Option<JudgeReply>): (rs: seq<QueryResult>)
    ensures |rs| == |queries|
  {
    seq(|queries|, k requires 0 <= k < |queries| => EvaluateQuery(queries[k], calls(k), parse))
  }

  /** Results won by `p`. */
  function Wins(rs: seq<QueryResult>, p: Provider): nat {
    if rs == [] then 0
    else Wins(rs[..|rs| - 1], p) + (if rs[|rs| - 1].Evaluated? && rs[|rs| - 1].winner == Win(p) then 1 else 0)
  }

  /** Results judged a tie. */
  function Ties(rs: seq<QueryResult>): nat {
    if rs == [] then 0
    else Ties(rs[..|rs| - 1]) + (if rs[|rs| - 1].Evaluated? && rs[|rs| - 1].winner == Tie then 1 else 0)
  }

  /** Results of queries that failed. */
  function Failures(rs: seq<QueryResult>): nat {
    if rs == [] then 0
    else Failures(rs[..|rs| - 1]) + (if rs[|rs| - 1].Failed? then 1 else 0)
  }

  function Tally(total: nat, rs: seq<QueryResult>): Summary {
    Summary(total, Wins(rs, Parallel), Wins(rs, Exa), Wins(rs, OpenAI), Ties(rs))
  }

  /** The progress and result events of the first `n` queries. */
  function Steps(queries: seq<string>, rs: seq<QueryResult>, n: nat): seq<Event>
    requires n <= |queries| && n <= |rs|
  {
    if n == 0 then []
    else Steps(queries, rs, n - 1) + [Progress(n, |queries|, queries[n - 1]), ResultEvent(n - 1, rs[n - 1])]
  }

  /** The whole stream: a progress and a result event per query, then the summary. */
  function SuiteEvents(queries: seq<string>, rs: seq<QueryResult>): seq<Event>
    requires |queries| == |rs|
  {
    Steps(queries, rs, |queries|) + [Complete(rs, Tally(|queries|, rs))]
  }

  /** `/api/suite/run`: a list of queries that is missing, not an array (both given as
      `None`) or empty is refused with 400; otherwise every query is evaluated in order
      and its events streamed. */
  method RunSuite(queries: Option<seq<string>>, calls: nat -> QueryCalls, parse: string -> Option<JudgeReply>)
    returns (r: SuiteReply)
    ensures queries.None? || queries.value == [] ==> r == Refused(HttpReply(400, ErrorBody(QueriesRequired)))
    ensures queries.Some? && queries.value != [] ==>
      r == Stream(SuiteEvents(queries.value, Evaluations(queries.value, calls, parse)))
  {
    if queries.None? || queries.value == [] {
      return Refused(HttpReply(400, ErrorBody(QueriesRequired)));
    }
    var events := StreamSuite(queries.value, calls, parse);
    r := Stream(events);
  }

  /** The loop of the suite run, with its four counters. */
  method StreamSuite(queries: seq<string>, calls: nat -> QueryCalls, parse: string -> Option<JudgeReply>)
    returns (events: seq<Event>)
    ensures events == SuiteEvents(queries, Evaluations(queries, calls, parse))
  {
    var results: seq<QueryResult> := [];
    var parallelWins, exaWins, openaiWins, ties := 0, 0, 0, 0;
    events := [];
    var i := 0;
    while i < |queries|
      invariant 0 <= i <= |queries|
      invariant |results| == i
      invariant results == Evaluations(queries[..i], calls, parse)
      invariant parallelWins == Wins(results, Parallel)
      invariant exaWins == Wins(results, Exa)
      invariant openaiWins == Wins(results, OpenAI)
      invariant ties == Ties(results)
      invariant events == Steps(queries, results, i)
    {
      var query := queries[i];
      events := events + [Progress(i + 1, |queries|, query)];
      var result := EvaluateOne(query, calls(i), parse);
      parallelWins, exaWins, openaiWins, ties := Count(result, parallelWins, exaWins, openaiWins, ties);
      TallyStep(results, result);
      StepsExtend(queries, results, result, i);
      EvaluationsExtend(queries, i, calls, parse);
      results := results + [result];
      events := events + [ResultEvent(i, result)];
      i := i + 1;
    }
    assert queries[..i] == queries;
    events := events + [Complete(results, Summary(|queries|, parallelWins, exaWins, openaiWins, ties))];
  }

  lemma EvaluationsExtend(queries: seq<string>, i: nat, calls: nat -> QueryCalls,
                          parse: string -> Option<JudgeReply>)
    requires i < |queries|
    ensures Evaluations(queries[..i + 1], calls, parse)
         == Evaluations(queries[..i], calls, parse) + [EvaluateQuery(queries[i], calls(i), parse)]
  {
  }

  /** The counters after one more result: a judged query adds one to its winner's
      count or to the ties; a failed one changes none. */
  method Count(result: QueryResult, parallelWins: nat, exaWins: nat, openaiWins: nat, ties: nat)
    returns (parallelWins': nat, exaWins': nat, openaiWins': nat, ties': nat)
    ensures parallelWins' == parallelWins + (if result.Evaluated? && result.winner == Win(Parallel) then 1 else 0)
    ensures exaWins' == exaWins + (if result.Evaluated? && result.winner == Win(Exa) then 1 else 0)
    ensures openaiWins' == openaiWins + (if result.Evaluated? && result.winner == Win(OpenAI) then 1 else 0)
    ensures ties' == ties + (if result.Evaluated? && result.winner == Tie then 1 else 0)
  {
    parallelWins', exaWins', openaiWins', ties' := parallelWins, exaWins, openaiWins, ties;
    if result.Evaluated? {
      match result.winner
      case Win(Parallel) => parallelWins' := parallelWins + 1;
      case Win(Exa) => exaWins' := exaWins + 1;
      case Win(OpenAI) => openaiWins' := openaiWins + 1;
      case Tie => ties' := ties + 1;
    }
  }

  /** Appending one result adds it to its own count only. */
  lemma TallyStep(rs: seq<QueryResult>, x: QueryResult)
    ensures Wins(rs + [x], Parallel) == Wins(rs, Parallel) + (if x.Evaluated? && x.winner == Win(Parallel) then 1 else 0)
    ensures Wins(rs + [x], Exa) == Wins(rs, Exa) + (if x.Evaluated? && x.winner == Win(Exa) then 1 else 0)
    ensures Wins(rs + [x], OpenAI) == Wins(rs, OpenAI) + (if x.Evaluated? && x.winner == Win(OpenAI) then 1 else 0)
    ensures Ties(rs + [x]) == Ties(rs) + (if x.Evaluated? && x.winner == Tie then 1 else 0)
  {
    assert (rs + [x])[..|rs|] == rs;
  }

  /** The steps of the first `n` queries and one more: the latter's progress, then its
      result. */
  lemma StepsExtend(queries: seq<string>, rs: seq<QueryResult>, x: QueryResult, n: nat)
    requires n < |queries| && n == |rs|
    ensures Steps(queries, rs + [x], n + 1)
         == Steps(queries, rs, n) + [Progress(n + 1, |queries|, queries[n])] + [ResultEvent(n, x)]
  {
    StepsPrefix(queries, rs, [x], n);
  }

  lemma {:induction false} StepsPrefix(queries: seq<string>, rs: seq<QueryResult>, more: seq<QueryResult>, n: nat)
    requires n <= |queries| && n <= |rs|
    ensures Steps(queries, rs + more, n) == Steps(queries, rs, n)
  {
    if n > 0 {
      StepsPrefix(queries, rs, more, n - 1);
      assert (rs + more)[n - 1] == rs[n - 1];
    }
  }

  /** One query of the suite run: the three searches raced against their timers, then
      the judge raced against its own; a judge error or timeout becomes a failed
      result. */
  method EvaluateOne(query: string, c: QueryCalls, parse: string -> Option<JudgeReply>)
    returns (result: QueryResult)
    ensures result == EvaluateQuery(query, c, parse)
  {
    var parallel := Settle(Parallel, WithTimeout(c.parallel, SearchTimeout));
    var exa := Settle(Exa, WithTimeout(c.exa, SearchTimeout));
    var openai := Settle(OpenAI, WithTimeout(c.openai, OpenAITimeout));
    var judgment := JudgeResults(parallel, exa, openai, WithTimeout(c.judge, JudgeTimeout), parse);
    if judgment.Err? {
      return Failed(query, judgment.error);
    }
    var j := judgment.value;
    result := Evaluated(query, SlotOf(parallel, j.parallel), SlotOf(exa, j.exa),
                        SlotOf(openai, j.openai), j.winner, j.ranking);
  }

  /** The first `n` steps are two events per query: its progress, counting from 1 out of
      the number of queries, then its result at its index; none is the summary. */
  lemma {:induction false} StepsShape(queries: seq<string>, rs: seq<QueryResult>, n: nat)
    requires n <= |queries| && n <= |rs|
    ensures var s := Steps(queries, rs, n);
      && |s| == 2 * n
      && (forall k :: 0 <= k < n ==> s[2 * k] == Progress(k + 1, |queries|, queries[k]))
      && (forall k :: 0 <= k < n ==> s[2 * k + 1] == ResultEvent(k, rs[k]))
      && (forall e :: e in s ==> !e.Complete?)
  {
    if n > 0 {
      StepsShape(queries, rs, n - 1);
      var s := Steps(queries, rs, n);
      var t := Steps(queries, rs, n - 1);
      assert s == t + [Progress(n, |queries|, queries[n - 1]), ResultEvent(n - 1, rs[n - 1])];
      forall k | 0 <= k < n
        ensures s[2 * k] == Progress(k + 1, |queries|, queries[k])
        ensures s[2 * k + 1] == ResultEvent(k, rs[k])
      {
        if k < n - 1 {
          assert s[2 * k] == t[2 * k];
          assert s[2 * k + 1] == t[2 * k + 1];
        }
      }
    }
  }

  /** The stream of a suite run holds 2N + 1 events for N queries: progress and result
      for each query in order, and last and only once the summary of all results. */
  lemma SuiteStreamShape(queries: seq<string>, rs: seq<QueryResult>)
    requires |queries| == |rs|
    ensures var s := SuiteEvents(queries, rs);
      && |s| == 2 * |queries| + 1
      && (forall k :: 0 <= k < |queries| ==> s[2 * k] == Progress(k + 1, |queries|, queries[k]))
      && (forall k :: 0 <= k < |queries| ==> s[2 * k + 1] == ResultEvent(k, rs[k]))
      && s[|s| - 1] == Complete(rs, Tally(|queries|, rs))
      && (forall k :: 0 <= k < |s| - 1 ==> !s[k].Complete?)
      && var sum := s[|s| - 1].summary;
         && sum.total == |queries|
         && sum.parallelWins + sum.exaWins + sum.openaiWins + sum.ties + Failures(rs) == |queries|
  {
    TallyAddsUp(rs);
    var n := |queries|;
    StepsShape(queries, rs, n);
    var s := SuiteEvents(queries, rs);
    var t := Steps(queries, rs, n);
    forall k | 0 <= k < |s| - 1
      ensures !s[k].Complete?
    {
      assert s[k] == t[k];
      assert t[k] in t;
    }
  }

  /** Every result is a win for one provider, a tie or a failure: the summary's wins and
      ties add up to the number of queries that did not fail. */
  lemma {:induction false} TallyAddsUp(rs: seq<QueryResult>)
    ensures Wins(rs, Parallel) + Wins(rs, Exa) + Wins(rs, OpenAI) + Ties(rs) + Failures(rs) == |rs|
  {
    if rs != [] {
      TallyAddsUp(rs[..|rs| - 1]);
      var last := rs[|rs| - 1];
      if last.Evaluated? {
        match last.winner
        case Tie =>
        case Win(p) =>
          match p
          case Parallel =>
          case Exa =>
          case OpenAI =>
      }
    }
  }

  /** A judge call that outlives its timer fails the query with the timeout message. */
  lemma JudgeTimeoutFails(query: string, c: QueryCalls, parse: string -> Option<JudgeReply>)
    requires c.judge.elapsed >= JudgeTimeout
    ensures EvaluateQuery(query, c, parse) == Failed(query, TimeoutMessage)
  {
  }

  /** Each search keeps its own outcome while it finishes under its own timer: 15000 ms
      for Parallel and Exa, 20000 ms for OpenAI. One that outlives its timer settles into
      the provider's placeholder with the timeout message. */
  lemma SearchTimers(c: QueryCalls)
    ensures var (p, e, o) := SettledSearches(c);
      && p == (if c.parallel.elapsed < SearchTimeout then Settle(Parallel, c.parallel.outcome)
               else Placeholder(Parallel, TimeoutMessage))
      && e == (if c.exa.elapsed < SearchTimeout then Settle(Exa, c.exa.outcome)
               else Placeholder(Exa, TimeoutMessage))
      && o == (if c.openai.elapsed < OpenAITimeout then Settle(OpenAI, c.openai.outcome)
               else Placeholder(OpenAI, TimeoutMessage))
      && (SearchTimeout <= c.openai.elapsed < OpenAITimeout ==> o == Settle(OpenAI, c.openai.outcome))
  {
  }

  /** A slot left by a search that timed out: no results, the timeout message, and
      latency and cost read as 0 and scored 0. */
  predicate TimedOutSlot(s: Slot) {
    && s.resultCount == 0 && s.error == Some(TimeoutMessage)
    && s.scores.latency == 0 && s.scores.latencyScore == 0
    && s.scores.cost == 0.0 && s.scores.costScore == 0
  }

  /** Every search that outlives its timer leaves an empty slot in the judged query:
      no results, the timeout message, and latency and cost read as 0 and scored 0. */
  lemma SearchTimeoutScoresZero(query: string, c: QueryCalls, parse: string -> Option<JudgeReply>)
    ensures var r := EvaluateQuery(query, c, parse);
      r.Evaluated? ==>
        && (c.parallel.elapsed >= SearchTimeout ==> TimedOutSlot(r.parallel))
        && (c.exa.elapsed >= SearchTimeout ==> TimedOutSlot(r.exa))
        && (c.openai.elapsed >= OpenAITimeout ==> TimedOutSlot(r.openai))
  {
    var (p, e, o) := SettledSearches(c);
    SearchTimers(c);
    EvaluatedCopies(query, c, parse);
    NoMetricsScoresZero(p, e, o, WithTimeout(c.judge, JudgeTimeout), parse);
  }

  /** A card whose latency and cost are both read as 0 and scored 0. */
  predicate Unscored(card: ScoreCard) {
    card.latency == 0 && card.latencyScore == 0 && card.cost == 0.0 && card.costScore == 0
  }

  /** A provider result without latency or cost is judged with both read as 0 and both
      scored 0, for each of the three providers. */
  lemma NoMetricsScoresZero(p: ProviderResult, e: ProviderResult, o: ProviderResult,
                            reply: Result<string>, parse: string -> Option<JudgeReply>)
    ensures var j := Judge.Judge(p, e, o, reply, parse);
      j.Ok? ==>
        && (MetricsOf(p) == Metrics(0, 0.0) ==> Unscored(j.value.parallel))
        && (MetricsOf(e) == Metrics(0, 0.0) ==> Unscored(j.value.exa))
        && (MetricsOf(o) == Metrics(0, 0.0) ==> Unscored(j.value.openai))
  {
    var parsed: Result<JudgeReply> := ParseReply(reply, parse, JudgeParseFailure);
    if parsed.Ok? && parsed.value.Reply? {
      var mp, mo, me := MetricsOf(p), MetricsOf(o), MetricsOf(e);
      var v := parsed.value;
      assert Judge.Judge(p, e, o, reply, parse) == Ok(Assess(mp, mo, me, v.parallel, v.openai, v.exa));
      AssessScores(mp, mo, me, v.parallel, v.openai, v.exa);
      var lat, cost := LatencyScale(mp, mo, me), CostScale(mp, mo, me);
      CardScores(mp, v.parallel, lat, cost);
      CardScores(mo, v.openai, lat, cost);
      CardScores(me, v.exa, lat, cost);
    }
  }

  /** A query is judged exactly when the judge succeeds on its settled searches; its
      result then copies the judgment's cards, winner and ranking, and counts each
      provider's results. A judge error fails the query with the error's message. */
  lemma EvaluatedCopies(query: string, c: QueryCalls, parse: string -> Option<JudgeReply>)
    ensures var (p, e, o) := SettledSearches(c);
      var j := Judge.Judge(p, e, o, WithTimeout(c.judge, JudgeTimeout), parse);
      var r := EvaluateQuery(query, c, parse);
      && r.query == query
      && (j.Ok? <==> r.Evaluated?)
      && (j.Err? ==> r == Failed(query, j.error))
      && (j.Ok? ==>
            && r.winner == j.value.winner && r.ranking == j.value.ranking
            && r.parallel == Slot(|p.results|, j.value.parallel, p.error)
            && r.exa == Slot(|e.results|, j.value.exa, e.error)
            && r.openai == Slot(|o.results|, j.value.openai, o.error))
  {
  }

  /** A judged query carries the judgment's ranking, which lists the three providers once
      each, and a winner that is a tie or the first of the ranking. */
  lemma EvaluatedRanking(query: string, c: QueryCalls, parse: string -> Option<JudgeReply>)
    ensures var r := EvaluateQuery(query, c, parse);
      r.Evaluated? ==>
        && |r.ranking| == 3 && Parallel in r.ranking && OpenAI in r.ranking && Exa in r.ranking
        && (r.winner == Tie || r.winner == Win(r.ranking[0]))
  {
    var (p, e, o) := SettledSearches(c);
    var parsed: Result<JudgeReply> := ParseReply(WithTimeout(c.judge, JudgeTimeout), parse, JudgeParseFailure);
    if parsed.Ok? && parsed.value.Reply? {
      var v := parsed.value;
      AssessRanking(MetricsOf(p), MetricsOf(o), MetricsOf(e), v.parallel, v.openai, v.exa);
    }
  }
}
