/** The LLM judge: the markdown-fence stripping applied to a model reply before it is
    parsed, `judgeResults` from the parsed verdicts onwards, and `generateTestSuite`. The
    chat completion itself is an input: its reply text, or the message it failed with. */
module Judge {
  import opened Types
  import opened Text
  import opened Scoring

  /** `pat` occurs nowhere in `s`. */
  ghost predicate Absent(s: string, pat: string) {
    forall j: nat :: !OccursAt(s, pat, j)
  }

  /** The length of the `/```json?\n?/` match at the start of `s`, 0 when there is none:
      `` ```jso ``, then an `n` if one follows, then a newline if one follows. */
  function OpenerLength(s: string): (n: nat)
    ensures n == 0 || (6 <= n <= |s| && StartsWith(s, "```jso"))
  {
    if !StartsWith(s, "```jso") then 0
    else
      var withN := if 6 < |s| && s[6] == 'n' then 7 else 6;
      if withN < |s| && s[withN] == '\n' then withN + 1 else withN
  }

  /** `replace(/```json?\n?/g, '')`: every match is removed, scanning left to right. */
  function RemoveFenceOpeners(s: string): (r: string)
    ensures |r| <= |s|
    decreases |s|
  {
    if s == [] then []
    else if OpenerLength(s) > 0 then RemoveFenceOpeners(s[OpenerLength(s)..])
    else [s[0]] + RemoveFenceOpeners(s[1..])
  }

  /** `replace(/```/g, '')`. */
  function RemoveFences(s: string): (r: string)
    ensures |r| <= |s|
    decreases |s|
  {
    if StartsWith(s, Fence) then RemoveFences(s[3..])
    else if s == [] then []
    else [s[0]] + RemoveFences(s[1..])
  }

  /** The number of backticks `s` starts with. */
  function LeadingTicks(s: string): (n: nat)
    ensures n <= |s|
  {
    if s != [] && s[0] == '`' then 1 + LeadingTicks(s[1..]) else 0
  }

  /** A string starts with a fence exactly when it starts with three backticks. */
  lemma TicksFence(s: string)
    ensures LeadingTicks(s) >= 3 <==> StartsWith(s, Fence)
  {
    if s != [] && s[0] == '`' {
      var s1 := s[1..];
      if s1 != [] && s1[0] == '`' {
        var s2 := s1[1..];
        assert s2 == s[2..] && s1[0] == s[1];
        if s2 != [] && s2[0] == '`' {
          assert s2[0] == s[2];
          assert s[..3] == Fence;
          assert LeadingTicks(s2) == 1 + LeadingTicks(s2[1..]);
          assert LeadingTicks(s1) == 1 + LeadingTicks(s2);
        } else {
          assert LeadingTicks(s2) == 0;
          assert LeadingTicks(s1) == 1 + LeadingTicks(s2);
          assert |s| < 3 || s[2] != '`';
        }
      }
    }
  }

  /** A fence contributes exactly three leading backticks. */
  lemma FenceTicks(s: string)
    requires StartsWith(s, Fence)
    ensures LeadingTicks(s) == 3 + LeadingTicks(s[3..])
  {
    assert s[..3] == Fence;
    assert s[0] == '`' && s[1] == '`' && s[2] == '`';
    var s1 := s[1..];
    var s2 := s1[1..];
    assert s1[0] == '`' && s2[0] == '`';
    assert s2[1..] == s[3..];
    assert LeadingTicks(s2) == 1 + LeadingTicks(s[3..]);
    assert LeadingTicks(s1) == 1 + LeadingTicks(s2);
  }

  /** A run of `n` leading backticks comes out of the removal as a run of `n % 3`. */
  lemma {:induction false} RemoveFencesTicks(s: string)
    ensures LeadingTicks(RemoveFences(s)) == LeadingTicks(s) % 3
    decreases |s|
  {
    TicksFence(s);
    if StartsWith(s, Fence) {
      FenceTicks(s);
      assert RemoveFences(s) == RemoveFences(s[3..]);
      RemoveFencesTicks(s[3..]);
      var n := LeadingTicks(s[3..]);
      assert (n + 3) % 3 == n % 3;
    } else if s != [] {
      var tail := RemoveFences(s[1..]);
      assert RemoveFences(s) == [s[0]] + tail;
      RemoveFencesTicks(s[1..]);
      if s[0] == '`' {
        var m := LeadingTicks(s[1..]);
        assert LeadingTicks(s) == 1 + m;
        assert m < 2;
        assert ([s[0]] + tail)[1..] == tail;
        assert LeadingTicks([s[0]] + tail) == 1 + LeadingTicks(tail);
        assert m % 3 == m && (1 + m) % 3 == 1 + m;
      } else {
        assert LeadingTicks(s) == 0;
        assert ([s[0]] + tail)[0] == s[0];
      }
    }
  }

  /** Removing every fence leaves none behind: a backtick that survives sits in a run of
      fewer than three. */
  lemma {:induction false} RemoveFencesLeavesNone(s: string)
    ensures Absent(RemoveFences(s), Fence)
    decreases |s|
  {
    var r := RemoveFences(s);
    if StartsWith(s, Fence) {
      RemoveFencesLeavesNone(s[3..]);
    } else if s != [] {
      RemoveFencesLeavesNone(s[1..]);
      RemoveFencesTicks(s);
      TicksFence(r);
      var tail := RemoveFences(s[1..]);
      assert r == [s[0]] + tail;
      forall j: nat
        ensures !OccursAt(r, Fence, j)
      {
        if j > 0 && j + 3 <= |r| {
          assert r[j..j + 3] == tail[j - 1..j + 2];
          assert !OccursAt(tail, Fence, j - 1);
        }
      }
    }
  }

  /** A pattern absent from a string is absent from each of its slices. */
  lemma AbsentFromSlice(s: string, pat: string, a: nat, b: nat)
    requires a <= b <= |s| && Absent(s, pat)
    ensures Absent(s[a..b], pat)
  {
    forall j: nat
      ensures !OccursAt(s[a..b], pat, j)
    {
      if j + |pat| <= b - a {
        var k: nat := a + j;
        assert !OccursAt(s, pat, k);
        var inSlice, inWhole := s[a..b][j..j + |pat|], s[k..k + |pat|];
        assert |inSlice| == |inWhole|;
        forall i | 0 <= i < |pat|
          ensures inSlice[i] == inWhole[i]
        {
          assert inSlice[i] == s[a..b][j + i];
          assert s[a..b][j + i] == s[k + i];
        }
        assert inSlice == inWhole;
      }
    }
  }

  lemma AbsentNotContained(s: string, pat: string)
    requires !Contains(s, pat)
    ensures Absent(s, pat)
  {
  }

  /** The `jsonStr` handed to `JSON.parse`: when the text contains a fence, every opener
      and every fence is removed and the rest trimmed; otherwise the text is unchanged.
      Either way no fence is left. */
  function StripFences(content: string): (r: string)
    ensures !Contains(content, Fence) ==> r == content
    ensures Absent(r, Fence)
  {
    if Contains(content, Fence) then
      var removed := RemoveFences(RemoveFenceOpeners(content));
      RemoveFencesLeavesNone(RemoveFenceOpeners(content));
      var t := TrimStart(removed);
      AbsentFromSlice(removed, Fence, |removed| - |t|, |removed|);
      assert t == removed[|removed| - |t|..|removed|];
      AbsentFromSlice(t, Fence, 0, |TrimEnd(t)|);
      assert TrimEnd(t) == t[0..|TrimEnd(t)|];
      Trim(removed)
    else
      AbsentNotContained(content, Fence);
      content
  }

  /** A string that differs from `prefix` at some index does not start with it. */
  lemma NotStartsWith(s: string, prefix: string, k: nat)
    requires k < |s| && k < |prefix| && s[k] != prefix[k]
    ensures !StartsWith(s, prefix)
  {
    if |prefix| <= |s| {
      assert s[..|prefix|][k] == s[k];
    }
  }

  /** A character that starts no opener is kept by the first removal. */
  lemma OpenerSkipsChar(c: char, u: string)
    requires !StartsWith([c] + u, "```jso")
    ensures RemoveFenceOpeners([c] + u) == [c] + RemoveFenceOpeners(u)
  {
    var v := [c] + u;
    assert OpenerLength(v) == 0;
    assert v[0] == c && v[1..] == u;
  }

  /** A character other than a backtick is kept by the fence removal. */
  lemma FenceSkipsChar(c: char, u: string)
    requires c != '`'
    ensures RemoveFences([c] + u) == [c] + RemoveFences(u)
  {
    var v := [c] + u;
    assert v[0] == c;
    NotStartsWith(v, Fence, 0);
    assert v[1..] == u;
  }

  /** Text with no backtick passes both removals unchanged. */
  lemma {:induction false} OpenersSkipPlain(t: string, u: string)
    requires NoTicks(t)
    ensures RemoveFenceOpeners(t + u) == t + RemoveFenceOpeners(u)
  {
    if t == [] {
      assert t + u == u;
    } else {
      var w := t[1..] + u;
      assert t + u == [t[0]] + w;
      assert ([t[0]] + w)[0] == t[0] && t[0] != '`';
      NotStartsWith([t[0]] + w, "```jso", 0);
      OpenerSkipsChar(t[0], w);
      assert NoTicks(t[1..]);
      OpenersSkipPlain(t[1..], u);
      assert [t[0]] + (t[1..] + RemoveFenceOpeners(u)) == t + RemoveFenceOpeners(u);
    }
  }

  lemma {:induction false} FencesSkipPlain(t: string, u: string)
    requires NoTicks(t)
    ensures RemoveFences(t + u) == t + RemoveFences(u)
  {
    if t == [] {
      assert t + u == u;
    } else {
      var w := t[1..] + u;
      assert t + u == [t[0]] + w;
      FenceSkipsChar(t[0], w);
      assert NoTicks(t[1..]);
      FencesSkipPlain(t[1..], u);
      assert [t[0]] + (t[1..] + RemoveFences(u)) == t + RemoveFences(u);
    }
  }

  /** A lone fence is shorter than any opener, and is exactly one fence. */
  lemma LoneFence()
    ensures RemoveFenceOpeners("```") == "```"
    ensures RemoveFences("```") == []
  {
    assert "```"[1..] == "``" && "``"[1..] == "`" && "`"[1..] == [];
    assert "```"[3..] == [];
  }

  /** Text that starts with a fence goes through both removals and the trim. */
  lemma StripFenced(content: string)
    requires StartsWith(content, Fence)
    ensures StripFences(content) == Trim(RemoveFences(RemoveFenceOpeners(content)))
  {
    assert OccursAt(content, Fence, 0);
    ContainsAt(content, Fence, 0);
  }

  /** A body already trimmed and free of backticks comes back exactly from a fenced block
      tagged `json`. */
  lemma StripTaggedBlock(body: string)
    requires NoTicks(body)
    requires body == [] || (!IsWhitespace(body[0]) && !IsWhitespace(body[|body| - 1]))
    ensures StripFences("```json\n" + body + "\n```") == body
  {
    var block := "```json\n" + body + "\n```";
    assert block[..3] == Fence;
    StripFenced(block);
    TaggedRemoved(body);
    TrimClosingNewline(body);
  }

  lemma TrimClosingNewline(body: string)
    requires body == [] || (!IsWhitespace(body[0]) && !IsWhitespace(body[|body| - 1]))
    ensures Trim(body + "\n") == body
  {
    TrimAround([], body, "\n");
    assert [] + body + "\n" == body + "\n";
  }

  /** Both removals on a tagged block leave the body and its closing newline. */
  lemma TaggedRemoved(body: string)
    requires NoTicks(body)
    ensures RemoveFences(RemoveFenceOpeners("```json\n" + body + "\n```")) == body + "\n"
  {
    var block := "```json\n" + body + "\n```";
    var kept := body + "\n";
    assert block[..6] == "```jso" && block[6] == 'n' && block[7] == '\n';
    assert OpenerLength(block) == 8;
    assert block[8..] == kept + "```";
    assert RemoveFenceOpeners(block) == RemoveFenceOpeners(kept + "```");
    assert NoTicks(kept);
    LoneFence();
    OpenersSkipPlain(kept, "```");
    FencesSkipPlain(kept, "```");
    assert kept + [] == kept;
  }

  /** The same for a block without a tag, whose opening fence the first removal leaves. */
  lemma StripPlainBlock(body: string)
    requires NoTicks(body)
    requires body == [] || (!IsWhitespace(body[0]) && !IsWhitespace(body[|body| - 1]))
    ensures StripFences("```\n" + body + "\n```") == body
  {
    var block := "```\n" + body + "\n```";
    assert block[..3] == Fence;
    StripFenced(block);
    PlainRemoved(body);
    TrimAround("\n", body, "\n");
  }

  /** Both removals on an untagged block leave the body between its two newlines. */
  lemma PlainRemoved(body: string)
    requires NoTicks(body)
    ensures RemoveFences(RemoveFenceOpeners("```\n" + body + "\n```")) == "\n" + body + "\n"
  {
    var inner := "\n" + body + "\n";
    assert "```\n" + body + "\n```" == "```" + inner + "```";
    WrappedNoTicks("\n", body, "\n");
    BareOpenerKept(inner);
    FenceDropped(inner);
  }

  /** The fence removal drops the two fences around backtick-free text. */
  lemma FenceDropped(inner: string)
    requires NoTicks(inner)
    ensures RemoveFences("```" + inner + "```") == inner
  {
    var block := "```" + inner + "```";
    assert block[..3] == Fence;
    assert block[3..] == inner + "```";
    LoneFence();
    FencesSkipPlain(inner, "```");
    assert inner + [] == inner;
  }

  /** A fence followed by a newline is no opener: the first removal keeps it. */
  lemma BareOpenerKept(inner: string)
    requires NoTicks(inner) && inner != [] && inner[0] == '\n'
    ensures RemoveFenceOpeners("```" + inner + "```") == "```" + inner + "```"
  {
    var tail := inner + "```";
    var b2 := ['`'] + tail;
    var b1 := ['`'] + b2;
    var block := ['`'] + b1;
    assert block == "```" + inner + "```";
    assert tail[0] == '\n' && b2[1] == '\n' && b1[2] == '\n' && block[3] == '\n';
    NotStartsWith(b2, "```jso", 1);
    NotStartsWith(b1, "```jso", 2);
    NotStartsWith(block, "```jso", 3);
    OpenerSkipsChar('`', tail);
    OpenerSkipsChar('`', b2);
    OpenerSkipsChar('`', b1);
    LoneFence();
    OpenersSkipPlain(inner, "```");
  }

  /** Parses a model reply the way both callers do: trim, strip fences, `JSON.parse`;
      a parse failure raises `failure` rather than falling back to a default. */
  function ParseReply<T>(reply: Result<string>, parse: string -> Option<T>, failure: string): (r: Result<T>)
    ensures reply.Err? ==> r == Err(reply.error)
    ensures reply.Ok? && parse(StripFences(Trim(reply.value))).None? ==> r == Err(failure)
    ensures reply.Ok? && parse(StripFences(Trim(reply.value))).Some? ==>
      r == Ok(parse(StripFences(Trim(reply.value))).value)
    ensures r.Ok? ==> reply.Ok? && Some(r.value) == parse(StripFences(Trim(reply.value)))
    ensures reply.Ok? && !Contains(Trim(reply.value), Fence) ==>
      r == (match parse(Trim(reply.value)) case None => Err(failure) case Some(v) => Ok(v))
  {
    match reply
    case Err(e) => Err(e)
    case Ok(text) =>
      match parse(StripFences(Trim(text)))
      case None => Err(failure)
      case Some(v) => Ok(v)
  }

  const JudgeParseFailure := "Failed to parse LLM judge response"
  const SuiteParseFailure := "Failed to parse test suite generation response"
  /** The TypeError raised by reading `.parallel` of a reply that parsed to `null`. */
  const NullReplyFailure := "Cannot read properties of null (reading 'parallel')"
  const NoEvaluation := "No evaluation available"

  /** The judge's verdict on one provider; each field may be missing. */
  datatype Verdict = Verdict(accuracy: Option<real>, reasoning: Option<string>)

  /** The parsed reply: `null`, or a value whose per-provider entries may be missing (a
      reply that is not an object has all three missing). */
  datatype JudgeReply =
    | NullReply
    | Reply(parallel: Option<Verdict>, openai: Option<Verdict>, exa: Option<Verdict>)

  /** `.accuracy || 0` through an optional verdict. */
  function AccuracyOf(v: Option<Verdict>): (a: real)
    ensures v.None? || v.value.accuracy.None? ==> a == 0.0
    ensures v.Some? && v.value.accuracy.Some? ==> a == v.value.accuracy.value
  {
    if v.Some? && v.value.accuracy.Some? then v.value.accuracy.value else 0.0
  }

  /** `.reasoning || 'No evaluation available'` through an optional verdict. */
  function ReasoningOf(v: Option<Verdict>): (s: string)
    ensures s != ""
    ensures v.None? || !Truthy(v.value.reasoning) ==> s == NoEvaluation
    ensures v.Some? && Truthy(v.value.reasoning) ==> s == v.value.reasoning.value
  {
    if v.Some? && Truthy(v.value.reasoning) then v.value.reasoning.value else NoEvaluation
  }

  /** The latency and cost of one provider with a missing value read as 0. */
  datatype Metrics = Metrics(latency: nat, cost: real)

  function MetricsOf(r: ProviderResult): (m: Metrics)
    ensures m.latency == (if r.latency.Some? then r.latency.value else 0)
    ensures m.cost == (if r.estimatedCost.Some? then r.estimatedCost.value else 0.0)
  {
    Metrics(
      match r.latency case Some(l) => l case None => 0,
      match r.estimatedCost case Some(c) => c case None => 0.0)
  }

  /** One provider's entry of the judgment. */
  datatype ScoreCard = ScoreCard(
    latency: nat, latencyScore: int,
    cost: real, costScore: int,
    accuracy: real, reasoning: string,
    total: int)

  /** The judgment returned to the caller. */
  datatype Judgment = Judgment(
    parallel: ScoreCard, openai: ScoreCard, exa: ScoreCard,
    winner: Winner, ranking: seq<Provider>)

  /** The scales over the three providers, listed parallel, openai, exa. */
  function LatencyScale(mp: Metrics, mo: Metrics, me: Metrics): Scale {
    ScaleOf([mp.latency as real, mo.latency as real, me.latency as real], LatencySentinel)
  }

  function CostScale(mp: Metrics, mo: Metrics, me: Metrics): Scale {
    ScaleOf([mp.cost, mo.cost, me.cost], CostSentinel)
  }

  function Card(m: Metrics, v: Option<Verdict>, latencies: Scale, costs: Scale): ScoreCard {
    var ls := InverseScore(m.latency as real, latencies);
    var cs := InverseScore(m.cost, costs);
    var acc := AccuracyOf(v);
    ScoreCard(m.latency, ls, m.cost, cs, acc, ReasoningOf(v), Total(ls, cs, acc))
  }

  /** The judgment for three providers' metrics and verdicts. */
  function Assess(mp: Metrics, mo: Metrics, me: Metrics,
                  vp: Option<Verdict>, vo: Option<Verdict>, ve: Option<Verdict>): Judgment
  {
    var lat := LatencyScale(mp, mo, me);
    var cost := CostScale(mp, mo, me);
    var cp := Card(mp, vp, lat, cost);
    var co := Card(mo, vo, lat, cost);
    var ce := Card(me, ve, lat, cost);
    var sorted := SortedScores(cp.total, co.total, ce.total);
    Judgment(cp, co, ce, WinnerOf(sorted), RankingOf(sorted))
  }

  /** `judgeResults` given the providers' results and the judge model's reply. */
  function Judge(parallel: ProviderResult, exa: ProviderResult, openai: ProviderResult,
                 reply: Result<string>, parse: string -> Option<JudgeReply>): Result<Judgment>
  {
    var parsed: Result<JudgeReply> := ParseReply(reply, parse, JudgeParseFailure);
    match parsed
    case Err(e) => Err(e)
    case Ok(NullReply) => Err(NullReplyFailure)
    case Ok(Reply(vp, vo, ve)) =>
      Ok(Assess(MetricsOf(parallel), MetricsOf(openai), MetricsOf(exa), vp, vo, ve))
  }

  /** `judgeResults` step by step: `jsonStr` is reassigned when a fence is present, and
      the parsed verdicts are scored by `ScoreVerdicts`. */
  method JudgeResults(parallel: ProviderResult, exa: ProviderResult, openai: ProviderResult,
                      reply: Result<string>, parse: string -> Option<JudgeReply>)
    returns (r: Result<Judgment>)
    ensures r == Judge(parallel, exa, openai, reply, parse)
  {
    if reply.Err? {
      return Err(reply.error);
    }
    var content := Trim(reply.value);
    var jsonStr := content;
    if Contains(content, Fence) {
      jsonStr := Trim(RemoveFences(RemoveFenceOpeners(content)));
    }
    var parsed := parse(jsonStr);
    if parsed.None? {
      return Err(JudgeParseFailure);
    }
    if parsed.value.NullReply? {
      return Err(NullReplyFailure);
    }
    var j := ScoreVerdicts(MetricsOf(parallel), MetricsOf(openai), MetricsOf(exa),
                           parsed.value.parallel, parsed.value.openai, parsed.value.exa);
    r := Ok(j);
  }

  /** The scoring half of `judgeResults`: the three cards, the three-entry `scores` array
      sorted in place, and the winner picked with both of the source's tie checks. */
  method ScoreVerdicts(mp: Metrics, mo: Metrics, me: Metrics,
                       vp: Option<Verdict>, vo: Option<Verdict>, ve: Option<Verdict>)
    returns (j: Judgment)
    ensures j == Assess(mp, mo, me, vp, vo, ve)
  {
    var lat := LatencyScale(mp, mo, me);
    var cost := CostScale(mp, mo, me);
    var cp := Card(mp, vp, lat, cost);
    var co := Card(mo, vo, lat, cost);
    var ce := Card(me, ve, lat, cost);
    var scores := new ScoreEntry[3] [ScoreEntry(Parallel, cp.total), ScoreEntry(OpenAI, co.total), ScoreEntry(Exa, ce.total)];
    assert scores[..] == InitialScores(cp.total, co.total, ce.total);
    SortScores(scores);
    var winner;
    if scores[0].total == scores[1].total && scores[1].total == scores[2].total {
      winner := Tie;
    } else if scores[0].total == scores[1].total {
      winner := Tie;
    } else {
      winner := Win(scores[0].provider);
    }
    j := Judgment(cp, co, ce, winner, RankingOf(scores[..]));
  }

  /** One card, given scales that contain its present metrics: it copies the metrics;
      a zero metric scores 0 and a present one 3..10; a missing verdict reads as accuracy 0
      with the default reasoning; the total is within 0..10 for an accuracy within 0..10
      and a cost that is not negative, and at most 5 when both metrics are missing. */
  lemma CardScores(m: Metrics, v: Option<Verdict>, latencies: Scale, costs: Scale)
    requires m.latency > 0 ==> latencies.lo <= m.latency as real <= latencies.hi
    requires m.cost > 0.0 ==> costs.lo <= m.cost <= costs.hi
    ensures var c := Card(m, v, latencies, costs);
      && c.latency == m.latency && c.cost == m.cost
      && (m.latency == 0 ==> c.latencyScore == 0)
      && (m.latency > 0 ==> 3 <= c.latencyScore <= 10)
      && (m.cost == 0.0 ==> c.costScore == 0)
      && (m.cost > 0.0 ==> 3 <= c.costScore <= 10)
      && (v.None? ==> c.accuracy == 0.0 && c.reasoning == NoEvaluation)
      && (m.cost >= 0.0 && 0.0 <= c.accuracy <= 10.0 ==> 0 <= c.total <= 10)
      && (m.latency == 0 && m.cost == 0.0 && 0.0 <= c.accuracy <= 10.0 ==> c.total <= 5)
  {
    if m.latency > 0 {
      ScoreInRange(m.latency as real, latencies);
    }
    if m.cost > 0.0 {
      ScoreInRange(m.cost, costs);
    }
  }

  /** The scales of a judgment contain every provider's present metrics, so
      `CardScores` applies to all three cards. */
  lemma AssessScores(mp: Metrics, mo: Metrics, me: Metrics,
                     vp: Option<Verdict>, vo: Option<Verdict>, ve: Option<Verdict>)
    ensures var j := Assess(mp, mo, me, vp, vo, ve);
      var lat, cost := LatencyScale(mp, mo, me), CostScale(mp, mo, me);
      && j.parallel == Card(mp, vp, lat, cost)
      && j.openai == Card(mo, vo, lat, cost)
      && j.exa == Card(me, ve, lat, cost)
      && forall m :: m in [mp, mo, me] ==>
           && (m.latency > 0 ==> lat.lo <= m.latency as real <= lat.hi)
           && (m.cost > 0.0 ==> cost.lo <= m.cost <= cost.hi)
  {
    var lat, cost := LatencyScale(mp, mo, me), CostScale(mp, mo, me);
    forall m | m in [mp, mo, me]
      ensures m.latency > 0 ==> lat.lo <= m.latency as real <= lat.hi
      ensures m.cost > 0.0 ==> cost.lo <= m.cost <= cost.hi
    {
      assert m.latency as real in [mp.latency as real, mo.latency as real, me.latency as real];
      assert m.cost in [mp.cost, mo.cost, me.cost];
    }
  }

  /** The ranking is parallel, openai and exa in non-increasing order of their totals,
      equal totals in that order; the winner is a tie exactly when the top two totals are
      equal and otherwise the one provider whose total beats both others. */
  lemma AssessRanking(mp: Metrics, mo: Metrics, me: Metrics,
                      vp: Option<Verdict>, vo: Option<Verdict>, ve: Option<Verdict>)
    ensures var j := Assess(mp, mo, me, vp, vo, ve);
      var r := j.ranking;
      var tp, to, te := j.parallel.total, j.openai.total, j.exa.total;
      && |r| == 3 && Parallel in r && OpenAI in r && Exa in r
      && (forall i, k :: 0 <= i < k < 3 ==> r[i] != r[k])
      && (forall i, k :: 0 <= i < k < 3 ==> TotalOf(tp, to, te, r[i]) >= TotalOf(tp, to, te, r[k]))
      && (forall i, k :: 0 <= i < k < 3 && TotalOf(tp, to, te, r[i]) == TotalOf(tp, to, te, r[k]) ==>
            SourceRank(r[i]) < SourceRank(r[k]))
      && (j.winner == Tie <==> TotalOf(tp, to, te, r[0]) == TotalOf(tp, to, te, r[1]))
      && (j.winner != Tie ==> j.winner == Win(r[0]))
      && (forall p :: j.winner == Win(p) <==> forall q :: q != p ==> TotalOf(tp, to, te, q) < TotalOf(tp, to, te, p))
  {
    var j := Assess(mp, mo, me, vp, vo, ve);
    var tp, to, te := j.parallel.total, j.openai.total, j.exa.total;
    assert j.ranking == RankingOf(SortedScores(tp, to, te));
    assert j.winner == WinnerOf(SortedScores(tp, to, te));
    RankingProperties(tp, to, te);
    WinnerProperties(tp, to, te);
  }

  /** A reply that fails to parse is an error, never a default judgment; a reply that
      parses to `null` fails as reading a field of `null` does; any other reply yields a
      judgment over the providers' metrics with a missing metric read as 0. */
  lemma JudgeOutcomes(parallel: ProviderResult, exa: ProviderResult, openai: ProviderResult,
                      reply: Result<string>, parse: string -> Option<JudgeReply>)
    ensures var r := Judge(parallel, exa, openai, reply, parse);
      && (reply.Err? ==> r == Err(reply.error))
      && (reply.Ok? && parse(StripFences(Trim(reply.value))).None? ==> r == Err(JudgeParseFailure))
      && (reply.Ok? && parse(StripFences(Trim(reply.value))) == Some(NullReply) ==> r == Err(NullReplyFailure))
      && (reply.Ok? && parse(StripFences(Trim(reply.value))).Some? && parse(StripFences(Trim(reply.value))).value.Reply? ==>
            var v := parse(StripFences(Trim(reply.value))).value;
            r == Ok(Assess(MetricsOf(parallel), MetricsOf(openai), MetricsOf(exa), v.parallel, v.openai, v.exa)))
      && (r.Ok? ==>
            && r.value.parallel.latency == MetricsOf(parallel).latency
            && r.value.openai.latency == MetricsOf(openai).latency
            && r.value.exa.latency == MetricsOf(exa).latency
            && r.value.parallel.cost == MetricsOf(parallel).cost
            && r.value.openai.cost == MetricsOf(openai).cost
            && r.value.exa.cost == MetricsOf(exa).cost)
  {
  }

  /** Parallel answers in 200 ms for $0.01 and exa in 800 ms for $0.0085, while openai
      timed out: the sentinels keep the fastest and the cheapest provider below 10. */
  lemma SentinelExample(vp: Option<Verdict>, vo: Option<Verdict>, ve: Option<Verdict>)
    ensures var j := Assess(Metrics(200, 0.01), Metrics(0, 0.0), Metrics(800, 0.0085), vp, vo, ve);
      && j.parallel.latencyScore == 8 && j.parallel.costScore == 3
      && j.exa.latencyScore == 3 && j.exa.costScore == 4
      && j.openai.latencyScore == 0 && j.openai.costScore == 0
  {
    var mp, mo, me := Metrics(200, 0.01), Metrics(0, 0.0), Metrics(800, 0.0085);
    ExampleLatencyScale();
    ExampleCostScale();
    assert InverseScore(200.0, Scale(1.0, 800.0)) == 8;
    assert InverseScore(800.0, Scale(1.0, 800.0)) == 3;
    assert InverseScore(0.01, Scale(0.001, 0.01)) == 3;
    assert InverseScore(0.0085, Scale(0.001, 0.01)) == 4;
  }

  lemma ExampleLatencyScale()
    ensures LatencyScale(Metrics(200, 0.01), Metrics(0, 0.0), Metrics(800, 0.0085)) == Scale(1.0, 800.0)
  {
    var vs := [200.0, 0.0, 800.0];
    assert [200 as real, 0 as real, 800 as real] == vs;
    assert vs[1..] == [0.0, 800.0] && vs[1..][1..] == [800.0] && vs[1..][1..][1..] == [];
    assert Positives(vs) == [200.0, 800.0];
    var ps := [200.0, 800.0];
    assert ps[1..] == [800.0] && ps[1..][1..] == [];
    assert MinWith(ps, 1.0) == 1.0;
    assert MaxWith(ps, 1.0) == 800.0;
  }

  lemma ExampleCostScale()
    ensures CostScale(Metrics(200, 0.01), Metrics(0, 0.0), Metrics(800, 0.0085)) == Scale(0.001, 0.01)
  {
    var vs := [0.01, 0.0, 0.0085];
    assert vs[1..] == [0.0, 0.0085] && vs[1..][1..] == [0.0085] && vs[1..][1..][1..] == [];
    assert Positives(vs) == [0.01, 0.0085];
    var ps := [0.01, 0.0085];
    assert ps[1..] == [0.0085] && ps[1..][1..] == [];
    assert MinWith(ps, 0.001) == 0.001;
    assert MaxWith(ps, 0.001) == 0.01;
  }

  /** `generateTestSuite` once the model has replied: the parsed value, or an error. */
  function GenerateTestSuite<T>(reply: Result<string>, parse: string -> Option<T>): (r: Result<T>)
    ensures reply.Err? ==> r == Err(reply.error)
    ensures reply.Ok? ==> r.Err? ==> r.error == SuiteParseFailure
    ensures reply.Ok? && parse(StripFences(Trim(reply.value))).None? ==> r == Err(SuiteParseFailure)
    ensures reply.Ok? && parse(StripFences(Trim(reply.value))).Some? ==>
      r == Ok(parse(StripFences(Trim(reply.value))).value)
    ensures r.Ok? ==> Some(r.value) == parse(StripFences(Trim(reply.value)))
  {
    ParseReply(reply, parse, SuiteParseFailure)
  }
}
