/** `searchExa` once the HTTP call has returned: the status check, the cost formula and
    the mapping of each result with its excerpt fallbacks. */
module ExaSearch {
  import opened Types
  import opened Text

  /** `EXA_BASE_COST`. */
  const BaseCost: real := 0.0035
  /** `EXA_COST_PER_RESULT_WITH_TEXT`. */
  const CostPerResult: real := 0.001

  const ErrorPrefix := "Exa API error: "

  const HighlightSeparator := "\n\n"

  /** One element of `data.results`. */
  datatype RawResult = RawResult(
    title: Option<string>, url: Option<string>, publishedDate: Option<string>,
    text: Option<string>, highlights: Option<seq<string>>)

  /** The parsed body; `results` may be missing. */
  datatype Data = Data(results: Option<seq<RawResult>>)

  /** The estimated cost for `count` results: at least the base cost, and exactly the
      base cost for none. */
  function Cost(count: nat): (c: real)
    ensures c >= BaseCost
    ensures count == 0 <==> c == BaseCost
  {
    BaseCost + count as real * CostPerResult
  }

  /** Every further result costs strictly more, by the per-result price each. */
  lemma CostIncreasing(m: nat, n: nat)
    requires m < n
    ensures Cost(m) < Cost(n)
    ensures Cost(n) - Cost(m) == (n - m) as real * CostPerResult
  {
  }

  /** `r.text || r.highlights?.join('\n\n') || ''`. */
  function ExcerptOf(r: RawResult): (s: string)
    ensures Truthy(r.text) ==> s == r.text.value
    ensures !Truthy(r.text) && r.highlights.Some? ==> s == Join(r.highlights.value, HighlightSeparator)
    ensures !Truthy(r.text) && r.highlights.None? ==> s == ""
  {
    if Truthy(r.text) then r.text.value
    else if r.highlights.Some? && Join(r.highlights.value, HighlightSeparator) != "" then
      Join(r.highlights.value, HighlightSeparator)
    else ""
  }

  /** A truthy text is the excerpt whatever the highlights; without one, highlights free of
      newlines are joined so that they split back into the highlights. */
  lemma ExcerptRecoverable(r: RawResult)
    ensures Truthy(r.text) ==> ExcerptOf(r) == r.text.value
    ensures !Truthy(r.text) && r.highlights.Some? && |r.highlights.value| > 0 &&
            (forall k :: 0 <= k < |r.highlights.value| ==> '\n' !in r.highlights.value[k]) ==>
      Split(ExcerptOf(r), HighlightSeparator) == r.highlights.value
  {
    if !Truthy(r.text) && r.highlights.Some? && |r.highlights.value| > 0 &&
       (forall k :: 0 <= k < |r.highlights.value| ==> '\n' !in r.highlights.value[k]) {
      var items := r.highlights.value;
      forall k | 0 <= k < |items|
        ensures AvoidsChars(items[k], HighlightSeparator)
      {
        forall i | 0 <= i < |items[k]|
          ensures items[k][i] !in HighlightSeparator
        {
          assert items[k][i] in items[k];
        }
      }
      SplitJoin(items, HighlightSeparator);
    }
  }

  function ToHit(r: RawResult): SearchHit {
    SearchHit(r.title, r.url, r.publishedDate, ExcerptOf(r))
  }

  /** `searchExa`: a response that is not ok raises an error naming its status and body
      text; a body that is not JSON raises the parse error; otherwise every result is
      mapped, in order, and the cost grows with the number of results. */
  function SearchExa(response: Response<Data>, latency: nat): (r: Result<ProviderResult>)
    ensures !response.ok ==> r == Err(StatusMessage(ErrorPrefix, response.status, response.text))
    ensures response.ok && response.json.Err? ==> r == Err(response.json.error)
    ensures response.ok && response.json.Ok? ==>
      var raw := if response.json.value.results.Some? then response.json.value.results.value else [];
      && r.Ok? && r.value.provider == Exa && r.value.error.None?
      && r.value.latency == Some(latency) && r.value.estimatedCost == Some(Cost(|raw|))
      && |r.value.results| == |raw|
      && forall k :: 0 <= k < |raw| ==>
           && r.value.results[k].title == raw[k].title
           && r.value.results[k].url == raw[k].url
           && r.value.results[k].publishedDate == raw[k].publishedDate
           && r.value.results[k].excerpt == ExcerptOf(raw[k])
  {
    if !response.ok then Err(StatusMessage(ErrorPrefix, response.status, response.text))
    else
      match response.json
      case Err(e) => Err(e)
      case Ok(data) =>
        var raw := if data.results.Some? then data.results.value else [];
        Ok(ProviderResult(Exa, Some(latency), Some(Cost(|raw|)),
                          seq(|raw|, k requires 0 <= k < |raw| => ToHit(raw[k])), None))
  }

  /** The cost depends on the results through their number only: a missing `results`
      costs the base, and more results always cost more. */
  lemma CostOrdered(a: Response<Data>, b: Response<Data>, latency: nat)
    requires a.ok && b.ok && a.json.Ok? && b.json.Ok?
    ensures var ra, rb := SearchExa(a, latency), SearchExa(b, latency);
      && (a.json.value.results.None? ==> ra.value.estimatedCost == Some(BaseCost))
      && (|ra.value.results| < |rb.value.results| ==> ra.value.estimatedCost.value < rb.value.estimatedCost.value)
  {
    var ra, rb := SearchExa(a, latency), SearchExa(b, latency);
    if |ra.value.results| < |rb.value.results| {
      CostIncreasing(|ra.value.results|, |rb.value.results|);
    }
  }

  /** The status code and the body text of a failed response can be read back from the
      error message. */
  lemma ErrorNamesStatus(response: Response<Data>, latency: nat)
    requires !response.ok
    ensures var r := SearchExa(response, latency);
      r.Err? && ParseStatusMessage(ErrorPrefix, r.error) == Some((response.status, response.text))
  {
    StatusMessageRoundTrip(ErrorPrefix, response.status, response.text);
  }
}
