/** Values shared by the search adapters, the judge and the server. */
module Types {

  datatype Option<+T> = None | Some(value: T)

  /** A value, or the message of the error that was thrown instead. */
  datatype Result<+T> = Ok(value: T) | Err(error: string)

  /** The three compared search providers. */
  datatype Provider = Parallel | OpenAI | Exa

  /** The identifier each provider is reported under. */
  function ProviderName(p: Provider): (name: string)
    ensures name in {"parallel", "openai", "exa"}
  {
    match p
    case Parallel => "parallel"
    case OpenAI => "openai"
    case Exa => "exa"
  }

  /** A string field read through JavaScript's `||`: absent and "" are both falsy. */
  predicate Truthy(s: Option<string>) {
    s.Some? && s.value != ""
  }

  /** One normalised search hit; fields copied verbatim from a provider may be absent. */
  datatype SearchHit = SearchHit(
    title: Option<string>,
    url: Option<string>,
    publishedDate: Option<string>,
    excerpt: string)

  /** What a provider slot holds once its call has settled. Error placeholders carry
      neither latency nor cost. */
  datatype ProviderResult = ProviderResult(
    provider: Provider,
    latency: Option<nat>,
    estimatedCost: Option<real>,
    results: seq<SearchHit>,
    error: Option<string>)

  /** An HTTP response as the adapters see it: `ok`, `status`, the body as text (read on
      failure) and the body parsed as JSON (read on success; `Err` when it is not JSON). */
  datatype Response<D> = Response(ok: bool, status: nat, text: string, json: Result<D>)
}
