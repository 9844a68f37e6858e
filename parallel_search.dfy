/** `searchParallel` once the HTTP call has returned: the status check, the mapping of
    each result onto the common hit shape, and the flat cost estimate. */
module ParallelSearch {
  import opened Types
  import opened Text

  /** `PARALLEL_COST_PER_SEARCH`. */
  const CostPerSearch: real := 0.01

  const ErrorPrefix := "Parallel API error: "

  /** The separator between excerpts joined into one. */
  const ExcerptSeparator := "\n\n"

  /** The `excerpts` field of a result: missing (or another falsy value), a string, or an
      array of strings. */
  datatype Excerpts = NoExcerpts | ExcerptText(text: string) | ExcerptList(items: seq<string>)

  /** One element of `data.results`. */
  datatype RawResult = RawResult(
    title: Option<string>, url: Option<string>, publishDate: Option<string>, excerpts: Excerpts)

  /** The parsed body; `results` may be missing. */
  datatype Data = Data(results: Option<seq<RawResult>>)

  /** `Array.isArray(r.excerpts) ? r.excerpts.join('\n\n') : r.excerpts || ''`. */
  function ExcerptOf(e: Excerpts): (s: string)
    ensures e.ExcerptList? ==> s == Join(e.items, ExcerptSeparator)
    ensures e.ExcerptText? ==> s == e.text
    ensures e.NoExcerpts? ==> s == ""
  {
    match e
    case NoExcerpts => ""
    case ExcerptText(t) => t
    case ExcerptList(items) => Join(items, ExcerptSeparator)
  }

  /** A joined list of excerpts splits back into the excerpts, as long as none of them
      holds a newline. */
  lemma ExcerptsRecoverable(items: seq<string>)
    requires |items| > 0
    requires forall k :: 0 <= k < |items| ==> '\n' !in items[k]
    ensures Split(ExcerptOf(ExcerptList(items)), ExcerptSeparator) == items
  {
    forall k | 0 <= k < |items|
      ensures AvoidsChars(items[k], ExcerptSeparator)
    {
      forall i | 0 <= i < |items[k]|
        ensures items[k][i] !in ExcerptSeparator
      {
        assert items[k][i] in items[k];
      }
    }
    SplitJoin(items, ExcerptSeparator);
  }

  function ToHit(r: RawResult): SearchHit {
    SearchHit(r.title, r.url, r.publishDate, ExcerptOf(r.excerpts))
  }

  /** `searchParallel`: a response that is not ok raises an error naming its status and
      body text; a body that is not JSON raises the parse error; otherwise every result is
      mapped, in order, and the cost is the flat estimate. */
  function SearchParallel(response: Response<Data>, latency: nat): (r: Result<ProviderResult>)
    ensures !response.ok ==> r == Err(StatusMessage(ErrorPrefix, response.status, response.text))
    ensures response.ok && response.json.Err? ==> r == Err(response.json.error)
    ensures response.ok && response.json.Ok? ==>
      var raw := if response.json.value.results.Some? then response.json.value.results.value else [];
      && r.Ok? && r.value.provider == Parallel && r.value.error.None?
      && r.value.latency == Some(latency) && r.value.estimatedCost == Some(CostPerSearch)
      && |r.value.results| == |raw|
      && forall k :: 0 <= k < |raw| ==>
           && r.value.results[k].title == raw[k].title
           && r.value.results[k].url == raw[k].url
           && r.value.results[k].publishedDate == raw[k].publishDate
           && r.value.results[k].excerpt == ExcerptOf(raw[k].excerpts)
  {
    if !response.ok then Err(StatusMessage(ErrorPrefix, response.status, response.text))
    else
      match response.json
      case Err(e) => Err(e)
      case Ok(data) =>
        var raw := if data.results.Some? then data.results.value else [];
        Ok(ProviderResult(Parallel, Some(latency), Some(CostPerSearch),
                          seq(|raw|, k requires 0 <= k < |raw| => ToHit(raw[k])), None))
  }

  /** The status code and the body text of a failed response can be read back from the
      error message. */
  lemma ErrorNamesStatus(response: Response<Data>, latency: nat)
    requires !response.ok
    ensures var r := SearchParallel(response, latency);
      r.Err? && ParseStatusMessage(ErrorPrefix, r.error) == Some((response.status, response.text))
  {
    StatusMessageRoundTrip(ErrorPrefix, response.status, response.text);
  }
}
