/** `searchOpenAI`: the reply of the search-enabled chat model is cut down to a JSON
    array, parsed, deduplicated by URL, truncated and normalised. The chat completion is an
    input: the message content (absent when the model sent none), or the message of the
    error the call failed with. */
module LlmSearch {
  import opened Types
  import opened Text

  /** `OPENAI_SEARCH_COST_ESTIMATE`. */
  const SearchCost: real := 0.04

  /** The text after an optional `json` tag. */
  function DropTag(s: string): (r: string)
    ensures StartsWith(s, "json") ==> r == s[4..]
    ensures !StartsWith(s, "json") ==> r == s
  {
    if StartsWith(s, "json") then s[4..] else s
  }

  /** `match(/```(?:json)?\s*([\s\S]*?)```/)` and the trim of the captured group. The
      leftmost match opens at the first fence and closes at the next fence that does not
      overlap it; the optional tag and the whitespace after it are not captured, and the
      whitespace is trimmed away in any case. */
  function FencedBlock(s: string): Option<string> {
    match IndexOfFrom(s, Fence, 0)
    case None => None
    case Some(i) =>
      match IndexOfFrom(s, Fence, i + 3)
      case None => None
      case Some(j) => Some(Trim(DropTag(s[i + 3..j])))
  }

  /** Two fences at `i` and `j` that do not overlap. */
  predicate FencePair(s: string, i: nat, j: nat) {
    i + 3 <= j && OccursAt(s, Fence, i) && OccursAt(s, Fence, j)
  }

  /** The fence at `i` is the first one and the fence at `j` the first after it. */
  predicate FirstFencePair(s: string, i: nat, j: nat) {
    && FencePair(s, i, j)
    && (forall k :: 0 <= k < i ==> !OccursAt(s, Fence, k))
    && (forall k :: i + 3 <= k < j ==> !OccursAt(s, Fence, k))
  }

  /** There is a block exactly when two fences occur that do not overlap, and it is the
      trimmed, untagged text between the first fence and the next one after it. */
  lemma FencedBlockFound(s: string)
    ensures FencedBlock(s).None? <==> forall i: nat, j: nat :: !FencePair(s, i, j)
    ensures FencedBlock(s).Some? ==>
      exists i: nat, j: nat :: FirstFencePair(s, i, j) && FencedBlock(s).value == Trim(DropTag(s[i + 3..j]))
  {
    var first := IndexOfFrom(s, Fence, 0);
    if first.None? {
      assert FencedBlock(s) == None;
      assert forall i: nat :: !OccursAt(s, Fence, i);
    } else {
      var i := first.value;
      var next := IndexOfFrom(s, Fence, i + 3);
      if next.Some? {
        var j := next.value;
        assert FencedBlock(s) == Some(Trim(DropTag(s[i + 3..j])));
        assert FirstFencePair(s, i, j);
      } else {
        assert FencedBlock(s) == None;
        forall i': nat, j': nat
          ensures !FencePair(s, i', j')
        {
          if i' + 3 <= j' && OccursAt(s, Fence, i') {
            assert i <= i';
            assert !OccursAt(s, Fence, j');
          }
        }
      }
    }
  }

  /** Only the first fenced block counts: whatever follows its closing fence, more
      blocks included, is ignored. */
  lemma FirstBlockWins(pre: string, body: string, post: string)
    requires NoTicks(pre) && NoTicks(body)
    ensures FencedBlock(pre + Fence + "json" + body + Fence + post) == Some(Trim(body))
  {
    var inner := "json" + body;
    assert NoTicks(inner) by {
      forall k | 0 <= k < |inner|
        ensures inner[k] != '`'
      {
        if k >= 4 {
          assert inner[k] == body[k - 4];
        }
      }
    }
    assert pre + Fence + "json" + body + Fence + post == pre + Fence + inner + Fence + post;
    FencedBlockOf(pre, inner, post);
    assert inner[..4] == "json" && inner[4..] == body;
  }

  /** A fenced block after tick-free text, with tick-free inner text, is the block found. */
  lemma FencedBlockOf(pre: string, inner: string, post: string)
    requires NoTicks(pre) && NoTicks(inner)
    ensures FencedBlock(pre + Fence + inner + Fence + post) == Some(Trim(DropTag(inner)))
  {
    var s1 := pre + Fence;
    var s2 := s1 + inner;
    var s3 := s2 + Fence;
    var s := s3 + post;
    var i, j := |pre|, |s2|;
    OccursAfter(pre, Fence);
    OccursExtended(s1, inner + Fence + post, Fence, i);
    assert s1 + (inner + Fence + post) == s;
    OccursAfter(s2, Fence);
    OccursExtended(s3, post, Fence, j);
    assert s[..i] == pre;
    assert s[i + 3..j] == inner;
    FencedBlockAt(s, i, j);
  }

  /** Fences at `i` and `j` with no backtick before the first or between them delimit the
      block found. */
  lemma FencedBlockAt(s: string, i: nat, j: nat)
    requires i + 3 <= j && OccursAt(s, Fence, i) && OccursAt(s, Fence, j)
    requires NoTicks(s[..i]) && NoTicks(s[i + 3..j])
    ensures FencedBlock(s) == Some(Trim(DropTag(s[i + 3..j])))
  {
    NoFenceWithin(s, 0, i);
    IndexOfFromIs(s, Fence, 0, i);
    NoFenceWithin(s, i + 3, j);
    IndexOfFromIs(s, Fence, i + 3, j);
  }

  /** `match(/\[[\s\S]*\]/)`: from the first `[` to the last `]`, when that `]` comes after
      it; none otherwise. */
  function BracketSpan(s: string): Option<string> {
    match FirstIndexOf(s, '[')
    case None => None
    case Some(i) =>
      match LastIndexOf(s, ']')
      case None => None
      case Some(k) => if i < k then Some(s[i..k + 1]) else None
  }

  /** The span runs from a `[` with none before it to a `]` with none after it; there is
      none exactly when no `]` follows a `[`. */
  lemma BracketSpanFound(s: string)
    ensures BracketSpan(s).Some? ==>
      exists i: nat, k: nat :: i < k < |s| && BracketSpan(s).value == s[i..k + 1]
        && s[i] == '[' && s[k] == ']'
        && (forall j :: 0 <= j < i ==> s[j] != '[') && (forall j :: k < j < |s| ==> s[j] != ']')
    ensures BracketSpan(s).None? <==> forall i, k :: 0 <= i < k < |s| && s[i] == '[' ==> s[k] != ']'
  {
  }

  /** Brackets before the first `[` or after the last `]` do not matter. */
  lemma BracketSpanOf(pre: string, mid: string, post: string)
    requires '[' !in pre && ']' !in post
    ensures BracketSpan(pre + "[" + mid + "]" + post) == Some("[" + mid + "]")
  {
    var s := pre + "[" + mid + "]" + post;
    var i, k := |pre|, |pre| + 1 + |mid|;
    assert s[i] == '[' && s[k] == ']';
    forall j | 0 <= j < i
      ensures s[j] != '['
    {
      assert s[j] == pre[j];
    }
    forall j | k < j < |s|
      ensures s[j] != ']'
    {
      assert s[j] == post[j - k - 1];
    }
    assert FirstIndexOf(s, '[') == Some(i);
    assert LastIndexOf(s, ']') == Some(k);
    assert s[i..k + 1] == "[" + mid + "]";
  }

  /** The text handed to the bracket search: the trimmed content, or the first fenced
      block's inner text when there is one. */
  function Candidate(content: string): (r: string) {
    var jsonStr := Trim(content);
    if Contains(jsonStr, Fence) && FencedBlock(jsonStr).Some? then FencedBlock(jsonStr).value else jsonStr
  }

  /** One element of the parsed array: not an object (or a falsy value), or an object
      whose string fields may be missing. */
  datatype ParsedEntry =
    | NonObject
    | Entry(title: Option<string>, url: Option<string>, excerpt: Option<string>, summary: Option<string>)

  /** The parsed array, or no results: a missing span and a parse error both leave
      `results` empty. */
  function ParsedResults(content: string, parse: string -> Option<seq<ParsedEntry>>): seq<ParsedEntry> {
    match BracketSpan(Candidate(content))
    case None => []
    case Some(span) =>
      match parse(span)
      case None => []
      case Some(rs) => rs
  }

  /** The extraction as written: `jsonStr` and `results` reassigned step by step, a
      failed parse swallowed. */
  method ExtractResults(content: string, parse: string -> Option<seq<ParsedEntry>>)
    returns (results: seq<ParsedEntry>)
    ensures results == ParsedResults(content, parse)
  {
    results := [];
    var jsonStr := Trim(content);
    if Contains(jsonStr, Fence) {
      var m := FencedBlock(jsonStr);
      if m.Some? {
        jsonStr := m.value;
      }
    }
    assert jsonStr == Candidate(content);
    var arrayMatch := BracketSpan(jsonStr);
    if arrayMatch.Some? {
      var parsed := parse(arrayMatch.value);
      if parsed.Some? {
        results := parsed.value;
      }
    }
  }

  /** An entry the filter keeps unless its URL was seen: an object with a truthy `url`. */
  predicate HasUrl(e: ParsedEntry) {
    e.Entry? && Truthy(e.url)
  }

  /** The filter of the deduplication: an entry is kept when it has a URL not yet in
      `seen`, and only a kept entry's URL is added to `seen`. */
  function KeepFirst(rs: seq<ParsedEntry>, seen: set<string>): (out: seq<ParsedEntry>)
    ensures |out| <= |rs|
    ensures forall k :: 0 <= k < |out| ==> HasUrl(out[k]) && out[k].url.value !in seen
  {
    if rs == [] then []
    else if HasUrl(rs[0]) && rs[0].url.value !in seen then
      [rs[0]] + KeepFirst(rs[1..], seen + {rs[0].url.value})
    else KeepFirst(rs[1..], seen)
  }

  /** The deduplication as written: one pass that adds each kept URL to the `seen` set. */
  method Dedup(rs: seq<ParsedEntry>) returns (out: seq<ParsedEntry>)
    ensures out == KeepFirst(rs, {})
  {
    var seen: set<string> := {};
    out := [];
    var i := 0;
    while i < |rs|
      invariant 0 <= i <= |rs|
      invariant out + KeepFirst(rs[i..], seen) == KeepFirst(rs, {})
    {
      var r := rs[i];
      assert rs[i..][1..] == rs[i + 1..];
      if HasUrl(r) && r.url.value !in seen {
        seen := seen + {r.url.value};
        out := out + [r];
      }
      i := i + 1;
    }
    assert rs[i..] == [];
  }

  /** No two kept entries share a URL. */
  predicate DistinctUrls(out: seq<ParsedEntry>) {
    forall a, b :: 0 <= a < b < |out| && out[a].Entry? && out[b].Entry? ==> out[a].url != out[b].url
  }

  lemma {:induction false} KeepFirstDistinct(rs: seq<ParsedEntry>, seen: set<string>)
    ensures DistinctUrls(KeepFirst(rs, seen))
  {
    if rs != [] {
      if HasUrl(rs[0]) && rs[0].url.value !in seen {
        var tail := KeepFirst(rs[1..], seen + {rs[0].url.value});
        KeepFirstDistinct(rs[1..], seen + {rs[0].url.value});
        var out := [rs[0]] + tail;
        forall a, b | 0 <= a < b < |out|
          ensures out[a].url != out[b].url
        {
          if a == 0 {
            assert out[0] == rs[0] && out[b] == tail[b - 1];
            assert HasUrl(tail[b - 1]) && tail[b - 1].url.value !in seen + {rs[0].url.value};
            assert tail[b - 1].url.value != rs[0].url.value;
          } else {
            assert out[a] == tail[a - 1] && out[b] == tail[b - 1];
            assert tail[a - 1].url != tail[b - 1].url;
          }
        }
        assert KeepFirst(rs, seen) == out;
      } else {
        KeepFirstDistinct(rs[1..], seen);
        assert KeepFirst(rs, seen) == KeepFirst(rs[1..], seen);
      }
    }
  }

  /** `a` is `b` with some elements left out, in the same order. */
  predicate IsSubsequence(a: seq<ParsedEntry>, b: seq<ParsedEntry>)
    decreases |b|
  {
    a == [] || (b != [] && ((a[0] == b[0] && IsSubsequence(a[1..], b[1..])) || IsSubsequence(a, b[1..])))
  }

  /** The kept entries appear in the parsed order. */
  lemma {:induction false} KeepFirstSubsequence(rs: seq<ParsedEntry>, seen: set<string>)
    ensures IsSubsequence(KeepFirst(rs, seen), rs)
  {
    if rs != [] {
      if HasUrl(rs[0]) && rs[0].url.value !in seen {
        KeepFirstSubsequence(rs[1..], seen + {rs[0].url.value});
        assert ([rs[0]] + KeepFirst(rs[1..], seen + {rs[0].url.value}))[1..]
          == KeepFirst(rs[1..], seen + {rs[0].url.value});
      } else {
        KeepFirstSubsequence(rs[1..], seen);
      }
    }
  }

  /** Of the entries sharing a URL, the first one is kept: an entry with a URL that is
      neither in `seen` nor carried by an earlier entry is in the output; and every URL of
      the input not in `seen` is represented. */
  lemma {:induction false} KeepFirstKeepsFirst(rs: seq<ParsedEntry>, seen: set<string>, i: nat)
    requires i < |rs| && HasUrl(rs[i]) && rs[i].url.value !in seen
    requires forall j :: 0 <= j < i && HasUrl(rs[j]) ==> rs[j].url != rs[i].url
    ensures rs[i] in KeepFirst(rs, seen)
  {
    if i == 0 {
    } else if HasUrl(rs[0]) && rs[0].url.value !in seen {
      forall j | 0 <= j < i - 1 && HasUrl(rs[1..][j])
        ensures rs[1..][j].url != rs[1..][i - 1].url
      {
        assert rs[1..][j] == rs[j + 1];
      }
      KeepFirstKeepsFirst(rs[1..], seen + {rs[0].url.value}, i - 1);
    } else {
      forall j | 0 <= j < i - 1 && HasUrl(rs[1..][j])
        ensures rs[1..][j].url != rs[1..][i - 1].url
      {
        assert rs[1..][j] == rs[j + 1];
      }
      KeepFirstKeepsFirst(rs[1..], seen, i - 1);
    }
  }

  /** An entry without a URL is skipped without being recorded: removing it changes
      nothing. */
  lemma {:induction false} KeepFirstIgnoresUnkeyed(a: seq<ParsedEntry>, e: ParsedEntry, b: seq<ParsedEntry>, seen: set<string>)
    requires !HasUrl(e)
    ensures KeepFirst(a + [e] + b, seen) == KeepFirst(a + b, seen)
  {
    if a == [] {
      assert a + [e] + b == [e] + b && ([e] + b)[1..] == b;
      assert a + b == b;
    } else {
      assert (a + [e] + b)[0] == a[0] && (a + [e] + b)[1..] == a[1..] + [e] + b;
      assert (a + b)[0] == a[0] && (a + b)[1..] == a[1..] + b;
      if HasUrl(a[0]) && a[0].url.value !in seen {
        KeepFirstIgnoresUnkeyed(a[1..], e, b, seen + {a[0].url.value});
      } else {
        KeepFirstIgnoresUnkeyed(a[1..], e, b, seen);
      }
    }
  }

  /** `slice(0, n)`: a negative end counts from the back, and the end is clamped to the
      length. */
  function Slice<T>(xs: seq<T>, n: int): (r: seq<T>)
    ensures |r| <= |xs| && r == xs[..|r|]
    ensures n >= 0 ==> |r| == if n < |xs| then n else |xs|
    ensures n < 0 ==> |r| == if |xs| + n > 0 then |xs| + n else 0
  {
    var end := if n < 0 then (if |xs| + n > 0 then |xs| + n else 0) else (if n < |xs| then n else |xs|);
    xs[..end]
  }

  /** The output entry for a kept input entry. */
  function ToHit(e: ParsedEntry): (h: SearchHit)
    requires e.Entry?
    ensures h.url == e.url && h.publishedDate.None?
    ensures Truthy(h.title)
    ensures h.excerpt != "" <==> Truthy(e.excerpt) || Truthy(e.summary)
    ensures h.title == Some(if Truthy(e.title) then e.title.value else "Untitled")
    ensures h.excerpt == if Truthy(e.excerpt) then e.excerpt.value
                         else if Truthy(e.summary) then e.summary.value else ""
  {
    var title := if Truthy(e.title) then e.title.value else "Untitled";
    var excerpt := if Truthy(e.excerpt) then e.excerpt.value
                   else if Truthy(e.summary) then e.summary.value else "";
    SearchHit(Some(title), e.url, None, excerpt)
  }

  /** `.filter(...).slice(0, numResults).map(...)`. */
  function Normalise(rs: seq<ParsedEntry>, numResults: int): (hits: seq<SearchHit>) {
    var kept := Slice(KeepFirst(rs, {}), numResults);
    seq(|kept|, k requires 0 <= k < |kept| => ToHit(kept[k]))
  }

  /** The normalised output: at most `numResults` hits (for a non-negative
      `numResults`), each the mapping of the matching entry among the first unique-URL
      entries, all with truthy and distinct URLs. */
  lemma NormaliseProperties(rs: seq<ParsedEntry>, numResults: int)
    ensures var hits := Normalise(rs, numResults);
      var kept := KeepFirst(rs, {});
      && (numResults >= 0 ==> |hits| <= numResults)
      && |hits| <= |kept|
      && (0 <= numResults <= |kept| ==> |hits| == numResults)
      && (numResults >= |kept| ==> |hits| == |kept|)
      && (numResults < 0 ==> |hits| == if |kept| + numResults > 0 then |kept| + numResults else 0)
      && (forall k :: 0 <= k < |hits| ==> hits[k] == ToHit(kept[k]))
      && (forall k :: 0 <= k < |hits| ==> Truthy(hits[k].url))
      && (forall a, b :: 0 <= a < b < |hits| ==> hits[a].url != hits[b].url)
  {
    KeepFirstDistinct(rs, {});
  }

  /** What the call to the chat model yields: its message content, or the error. */
  type Call = Result<Option<string>>

  /** `searchOpenAI` once the model call has settled, `latency` milliseconds later. */
  method SearchOpenAI(call: Call, latency: nat, numResults: int,
                      parse: string -> Option<seq<ParsedEntry>>)
    returns (r: ProviderResult)
    ensures call.Err? ==> r == ProviderResult(OpenAI, Some(latency), Some(0.0), [], Some(call.error))
    ensures call.Ok? ==>
      var content := if call.value.Some? then call.value.value else "";
      r == ProviderResult(OpenAI, Some(latency), Some(SearchCost), Normalise(ParsedResults(content, parse), numResults), None)
  {
    if call.Err? {
      return ProviderResult(OpenAI, Some(latency), Some(0.0), [], Some(call.error));
    }
    var content := if call.value.Some? then call.value.value else "";
    var results := ExtractResults(content, parse);
    var unique := Dedup(results);
    var kept := Slice(unique, numResults);
    var hits := seq(|kept|, k requires 0 <= k < |kept| => ToHit(kept[k]));
    r := ProviderResult(OpenAI, Some(latency), Some(SearchCost), hits, None);
  }

  /** A parse failure is swallowed: the search still succeeds, with no results and the
      usual cost. */
  lemma ParseFailureSwallowed(content: string, parse: string -> Option<seq<ParsedEntry>>, numResults: int)
    requires BracketSpan(Candidate(content)).None? || parse(BracketSpan(Candidate(content)).value).None?
    ensures ParsedResults(content, parse) == []
    ensures Normalise(ParsedResults(content, parse), numResults) == []
  {
  }

  /** A reply that is a fenced JSON array between prose comes down to exactly that
      array, which is what gets parsed. */
  lemma FencedArrayFound(pre: string, mid: string, post: string, parse: string -> Option<seq<ParsedEntry>>)
    requires NoTicks(pre) && NoTicks(mid)
    requires pre == [] || !IsWhitespace(pre[0])
    requires post == [] || !IsWhitespace(post[|post| - 1])
    ensures var arr := "[" + mid + "]";
      var content := pre + Fence + "json\n" + arr + "\n" + Fence + post;
      && Candidate(content) == arr
      && BracketSpan(Candidate(content)) == Some(arr)
      && ParsedResults(content, parse) == (if parse(arr).Some? then parse(arr).value else [])
  {
    var arr := "[" + mid + "]";
    FencedCandidate(pre, mid, post);
    BracketArray(mid);
  }

  /** A bracketed text is its own span. */
  lemma BracketArray(mid: string)
    ensures BracketSpan("[" + mid + "]") == Some("[" + mid + "]")
  {
    BracketSpanOf([], mid, []);
    assert [] + "[" + mid + "]" + [] == "[" + mid + "]";
  }

  lemma FencedCandidate(pre: string, mid: string, post: string)
    requires NoTicks(pre) && NoTicks(mid)
    requires pre == [] || !IsWhitespace(pre[0])
    requires post == [] || !IsWhitespace(post[|post| - 1])
    ensures var arr := "[" + mid + "]";
      Candidate(pre + Fence + "json\n" + arr + "\n" + Fence + post) == arr
  {
    var arr := "[" + mid + "]";
    var body := "\n" + arr + "\n";
    var content := pre + Fence + "json" + body + Fence + post;
    assert pre + Fence + "json\n" + arr + "\n" + Fence + post == content by {
      assert "json\n" + arr + "\n" == "json" + body;
    }
    WrappedNoTicks("[", mid, "]");
    WrappedNoTicks("\n", arr, "\n");
    CandidateFenced(pre, body, post);
    TrimNewlines(arr);
  }

  /** A tagged fenced block between a non-blank prefix and a non-blank suffix is the
      candidate, trimmed. */
  lemma CandidateFenced(pre: string, body: string, post: string)
    requires NoTicks(pre) && NoTicks(body)
    requires pre == [] || !IsWhitespace(pre[0])
    requires post == [] || !IsWhitespace(post[|post| - 1])
    ensures Candidate(pre + Fence + "json" + body + Fence + post) == Trim(body)
  {
    FencedTrimmed(pre, body, post);
    FirstBlockWins(pre, body, post);
    CandidateOfBlock(pre + Fence + "json" + body + Fence + post);
  }

  /** Already-trimmed text holding a fenced block comes down to that block. */
  lemma CandidateOfBlock(content: string)
    requires Trim(content) == content && Contains(content, Fence) && FencedBlock(content).Some?
    ensures Candidate(content) == FencedBlock(content).value
  {
  }

  /** A tagged fenced block between a non-blank prefix and a non-blank suffix holds a
      fence and is already trimmed. */
  lemma FencedTrimmed(pre: string, body: string, post: string)
    requires pre == [] || !IsWhitespace(pre[0])
    requires post == [] || !IsWhitespace(post[|post| - 1])
    ensures var content := pre + Fence + "json" + body + Fence + post;
      Trim(content) == content && Contains(content, Fence)
  {
    var content := pre + Fence + "json" + body + Fence + post;
    FencedEnds(pre, body, post);
    AlreadyTrimmed(content);
    FencedContains(pre, body, post);
  }

  lemma FencedEnds(pre: string, body: string, post: string)
    requires pre == [] || !IsWhitespace(pre[0])
    requires post == [] || !IsWhitespace(post[|post| - 1])
    ensures var content := pre + Fence + "json" + body + Fence + post;
      content != [] && !IsWhitespace(content[0]) && !IsWhitespace(content[|content| - 1])
  {
    var left := pre + Fence;
    var right := Fence + post;
    var content := pre + Fence + "json" + body + Fence + post;
    assert left[0] == (if pre == [] then '`' else pre[0]);
    assert right[|right| - 1] == (if post == [] then '`' else post[|post| - 1]);
    assert content == left + ("json" + body) + right;
    assert content[0] == left[0];
    assert content[|content| - 1] == right[|right| - 1];
  }

  lemma FencedContains(pre: string, body: string, post: string)
    ensures Contains(pre + Fence + "json" + body + Fence + post, Fence)
  {
    var content := pre + Fence + "json" + body + Fence + post;
    var rest := "json" + body + Fence + post;
    assert content == (pre + Fence) + rest;
    OccursAfter(pre, Fence);
    OccursExtended(pre + Fence, rest, Fence, |pre|);
    ContainsAt(content, Fence, |pre|);
  }

  lemma TrimNewlines(arr: string)
    requires arr != [] && arr[0] == '[' && arr[|arr| - 1] == ']'
    ensures Trim("\n" + arr + "\n") == arr
  {
    TrimAround("\n", arr, "\n");
  }

  /** Text that starts and ends with non-whitespace is its own trim. */
  lemma AlreadyTrimmed(s: string)
    requires s != [] && !IsWhitespace(s[0]) && !IsWhitespace(s[|s| - 1])
    ensures Trim(s) == s
  {
    TrimStartKeeps(s);
  }
}
