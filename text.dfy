/** The few string operations of JavaScript the core relies on: `trim`, `includes`,
    `indexOf`/`lastIndexOf`, `Array.prototype.join` and the decimal rendering of a
    status code in a template string. */
module Text {
  import opened Types

  /** The characters JavaScript's `trim` removes and the regex class `\s` matches. */
  predicate IsWhitespace(c: char) {
    || c == ' ' || c == '\t' || c == '\n' || c == '\r' || c == '\U{B}' || c == '\U{C}'
    || c == '\U{A0}' || c == '\U{1680}' || ('\U{2000}' <= c <= '\U{200A}')
    || c == '\U{2028}' || c == '\U{2029}' || c == '\U{202F}' || c == '\U{205F}'
    || c == '\U{3000}' || c == '\U{FEFF}'
  }

  predicate AllWhitespace(s: string) {
    forall i :: 0 <= i < |s| ==> IsWhitespace(s[i])
  }

  /** Drops leading whitespace. */
  function TrimStart(s: string): (r: string)
    ensures |r| <= |s| && r == s[|s| - |r|..]
    ensures r == [] || !IsWhitespace(r[0])
    ensures AllWhitespace(s[..|s| - |r|])
  {
    if s != [] && IsWhitespace(s[0]) then TrimStart(s[1..]) else s
  }

  /** Drops trailing whitespace. */
  function TrimEnd(s: string): (r: string)
    ensures |r| <= |s| && r == s[..|r|]
    ensures r == [] || !IsWhitespace(r[|r| - 1])
    ensures AllWhitespace(s[|r|..])
  {
    if s != [] && IsWhitespace(s[|s| - 1]) then TrimEnd(s[..|s| - 1]) else s
  }

  /** `String.prototype.trim`. */
  function Trim(s: string): string {
    TrimEnd(TrimStart(s))
  }

  /** Whitespace around a core that neither starts nor ends with whitespace is exactly
      what `Trim` removes. */
  lemma {:induction false} TrimAround(pre: string, core: string, post: string)
    requires AllWhitespace(pre) && AllWhitespace(post)
    requires core == [] || (!IsWhitespace(core[0]) && !IsWhitespace(core[|core| - 1]))
    ensures Trim(pre + core + post) == core
  {
    var rest := core + post;
    assert pre + core + post == pre + rest;
    TrimStartSkips(pre, rest);
    if core == [] {
      assert rest == post + [];
      TrimStartSkips(post, []);
    } else {
      TrimStartKeeps(rest);
      TrimEndSkips(core, post);
    }
  }

  lemma {:induction false} TrimStartSkips(ws: string, s: string)
    requires AllWhitespace(ws)
    ensures TrimStart(ws + s) == TrimStart(s)
  {
    if ws != [] {
      assert (ws + s)[1..] == ws[1..] + s;
      TrimStartSkips(ws[1..], s);
    } else {
      assert ws + s == s;
    }
  }

  lemma TrimStartKeeps(s: string)
    requires s == [] || !IsWhitespace(s[0])
    ensures TrimStart(s) == s
  {
  }

  lemma {:induction false} TrimEndSkips(s: string, ws: string)
    requires AllWhitespace(ws)
    requires s == [] || !IsWhitespace(s[|s| - 1])
    ensures TrimEnd(s + ws) == s
  {
    if ws != [] {
      assert (s + ws)[..|s + ws| - 1] == s + ws[..|ws| - 1];
      TrimEndSkips(s, ws[..|ws| - 1]);
    } else {
      assert s + ws == s;
    }
  }

  predicate StartsWith(s: string, prefix: string) {
    |prefix| <= |s| && s[..|prefix|] == prefix
  }

  /** `pat` occurs in `s` starting at index `i`. */
  predicate OccursAt(s: string, pat: string, i: nat) {
    i + |pat| <= |s| && s[i..i + |pat|] == pat
  }

  /** The first occurrence of `pat` in `s` at or after `from` (`indexOf(pat, from)`). */
  function IndexOfFrom(s: string, pat: string, from: nat): (r: Option<nat>)
    decreases |s| - from
    ensures r.Some? ==> from <= r.value && OccursAt(s, pat, r.value)
    ensures r.Some? ==> forall j :: from <= j < r.value ==> !OccursAt(s, pat, j)
    ensures r.None? ==> forall j :: from <= j ==> !OccursAt(s, pat, j)
  {
    if from + |pat| > |s| then None
    else if OccursAt(s, pat, from) then Some(from)
    else IndexOfFrom(s, pat, from + 1)
  }

  /** `IndexOfFrom` finds an occurrence that no earlier one precedes. */
  lemma IndexOfFromIs(s: string, pat: string, from: nat, i: nat)
    requires from <= i && OccursAt(s, pat, i)
    requires forall k :: from <= k < i ==> !OccursAt(s, pat, k)
    ensures IndexOfFrom(s, pat, from) == Some(i)
  {
  }

  /** A pattern cannot occur where its first character is missing. */
  lemma NotOccursAt(s: string, pat: string, k: nat)
    requires pat != [] && k < |s| && s[k] != pat[0]
    ensures !OccursAt(s, pat, k)
  {
    if k + |pat| <= |s| {
      assert s[k..k + |pat|][0] == s[k];
    }
  }

  /** `String.prototype.includes`. */
  predicate Contains(s: string, pat: string) {
    IndexOfFrom(s, pat, 0).Some?
  }

  lemma ContainsAt(s: string, pat: string, i: nat)
    requires OccursAt(s, pat, i)
    ensures Contains(s, pat)
  {
  }

  /** The first index of `c` in `s` (`indexOf`). */
  function FirstIndexOf(s: string, c: char): (r: Option<nat>)
    ensures r.Some? ==> r.value < |s| && s[r.value] == c
    ensures r.Some? ==> forall j :: 0 <= j < r.value ==> s[j] != c
    ensures r.None? ==> forall j :: 0 <= j < |s| ==> s[j] != c
  {
    if s == [] then None
    else if s[0] == c then Some(0)
    else match FirstIndexOf(s[1..], c)
      case None => None
      case Some(i) => Some(i + 1)
  }

  lemma OccursAfter(pre: string, pat: string)
    ensures OccursAt(pre + pat, pat, |pre|)
  {
    assert (pre + pat)[|pre|..|pre| + |pat|] == pat;
  }

  /** An occurrence stays where it is when text is appended. */
  lemma OccursExtended(s: string, t: string, pat: string, i: nat)
    requires OccursAt(s, pat, i)
    ensures OccursAt(s + t, pat, i)
  {
    assert (s + t)[i..i + |pat|] == s[i..i + |pat|];
  }

  /** The last index of `c` in `s` (`lastIndexOf`). */
  function LastIndexOf(s: string, c: char): (r: Option<nat>)
    ensures r.Some? ==> r.value < |s| && s[r.value] == c
    ensures r.Some? ==> forall j :: r.value < j < |s| ==> s[j] != c
    ensures r.None? ==> forall j :: 0 <= j < |s| ==> s[j] != c
  {
    if s == [] then None
    else if s[|s| - 1] == c then Some(|s| - 1)
    else LastIndexOf(s[..|s| - 1], c)
  }

  /** `Array.prototype.join(sep)` over strings. */
  function Join(items: seq<string>, sep: string): string {
    if |items| == 0 then ""
    else if |items| == 1 then items[0]
    else items[0] + sep + Join(items[1..], sep)
  }

  /** Splits `s` at every occurrence of `sep` (`String.prototype.split(sep)`), the inverse
      that `Join` is checked against. */
  function Split(s: string, sep: string): seq<string>
    requires sep != []
    decreases |s|
  {
    match IndexOfFrom(s, sep, 0)
    case None => [s]
    case Some(i) => [s[..i]] + Split(s[i + |sep|..], sep)
  }

  /** No character of `s` is a character of `sep`. */
  predicate AvoidsChars(s: string, sep: string) {
    forall i :: 0 <= i < |s| ==> s[i] !in sep
  }

  /** Joining and splitting again gives back the items, as long as no item shares a
      character with the separator. */
  lemma {:induction false} SplitJoin(items: seq<string>, sep: string)
    requires sep != [] && |items| > 0
    requires forall k :: 0 <= k < |items| ==> AvoidsChars(items[k], sep)
    ensures Split(Join(items, sep), sep) == items
  {
    var x := items[0];
    if |items| == 1 {
      NoOccurrence(x, sep);
    } else {
      var rest := Join(items[1..], sep);
      var s := x + sep + rest;
      assert OccursAt(s, sep, |x|) by {
        assert s[|x|..|x| + |sep|] == sep;
      }
      forall j | 0 <= j < |x|
        ensures !OccursAt(s, sep, j)
      {
        assert s[j] == x[j] && x[j] !in sep;
      }
      assert IndexOfFrom(s, sep, 0) == Some(|x|);
      assert s[..|x|] == x;
      assert s[|x| + |sep|..] == rest;
      SplitJoin(items[1..], sep);
    }
  }

  lemma NoOccurrence(x: string, sep: string)
    requires sep != [] && AvoidsChars(x, sep)
    ensures Split(x, sep) == [x]
  {
    forall j | 0 <= j
      ensures !OccursAt(x, sep, j)
    {
      assert j < |x| ==> x[j] !in sep;
    }
  }

  predicate IsDigit(c: char) {
    '0' <= c <= '9'
  }

  predicate AllDigits(s: string) {
    forall i :: 0 <= i < |s| ==> IsDigit(s[i])
  }

  function DigitChar(d: nat): (c: char)
    requires d < 10
    ensures IsDigit(c) && (c as int) - ('0' as int) == d
  {
    (('0' as int) + d) as char
  }

  /** The decimal rendering of a natural number, as a template string prints it. */
  function NatToString(n: nat): (s: string)
    ensures |s| > 0 && AllDigits(s)
  {
    if n < 10 then [DigitChar(n)] else NatToString(n / 10) + [DigitChar(n % 10)]
  }

  /** The value of a string of decimal digits. */
  function DigitsValue(s: string): nat
    requires AllDigits(s)
  {
    if s == [] then 0
    else DigitsValue(s[..|s| - 1]) * 10 + ((s[|s| - 1] as int) - ('0' as int))
  }

  lemma {:induction false} NatToStringRoundTrip(n: nat)
    ensures DigitsValue(NatToString(n)) == n
  {
    if n >= 10 {
      var s := NatToString(n);
      assert s[..|s| - 1] == NatToString(n / 10);
      NatToStringRoundTrip(n / 10);
    }
  }

  /** The longest prefix of `s` made of digits. */
  function LeadingDigits(s: string): (d: string)
    ensures StartsWith(s, d) && AllDigits(d)
    ensures |d| == |s| || !IsDigit(s[|d|])
  {
    if s != [] && IsDigit(s[0]) then [s[0]] + LeadingDigits(s[1..]) else []
  }

  lemma {:induction false} LeadingDigitsOf(ds: string, t: string)
    requires AllDigits(ds)
    requires t == [] || !IsDigit(t[0])
    ensures LeadingDigits(ds + t) == ds
  {
    if ds != [] {
      assert (ds + t)[1..] == ds[1..] + t;
      LeadingDigitsOf(ds[1..], t);
    } else {
      assert ds + t == t;
    }
  }

  /** The markdown code-fence marker. */
  const Fence := "```"

  /** No backtick at all. */
  predicate NoTicks(s: string) {
    forall i :: 0 <= i < |s| ==> s[i] != '`'
  }

  /** Backtick-free pieces make backtick-free text. */
  lemma WrappedNoTicks(a: string, s: string, b: string)
    requires NoTicks(a) && NoTicks(s) && NoTicks(b)
    ensures NoTicks(a + s + b)
  {
    var t := a + s + b;
    forall i | 0 <= i < |t|
      ensures t[i] != '`'
    {
      if i < |a| {
        assert t[i] == a[i];
      } else if i < |a| + |s| {
        assert t[i] == s[i - |a|];
      } else {
        assert t[i] == b[i - |a| - |s|];
      }
    }
  }

  /** Text without backticks holds no fence at any of its positions, wherever it sits
      in a longer string. */
  lemma NoFenceWithin(s: string, lo: nat, hi: nat)
    requires lo <= hi <= |s| && NoTicks(s[lo..hi])
    ensures forall k :: lo <= k < hi ==> !OccursAt(s, Fence, k)
  {
    forall k | lo <= k < hi
      ensures !OccursAt(s, Fence, k)
    {
      assert s[k] == s[lo..hi][k - lo];
      NotOccursAt(s, Fence, k);
    }
  }

  const StatusSeparator := " - "

  /** The message the index adapters throw on a non-ok response:
      `<prefix><status> - <body text>`. */
  function StatusMessage(prefix: string, status: nat, text: string): string {
    prefix + NatToString(status) + StatusSeparator + text
  }

  /** Reads the status and the body text back out of a `StatusMessage`. */
  function ParseStatusMessage(prefix: string, msg: string): Option<(nat, string)> {
    if !StartsWith(msg, prefix) then None
    else
      var rest := msg[|prefix|..];
      var d := LeadingDigits(rest);
      var tail := rest[|d|..];
      if d != [] && StartsWith(tail, StatusSeparator) then Some((DigitsValue(d), tail[|StatusSeparator|..]))
      else None
  }

  /** The status code and the body text can both be recovered from the message. */
  lemma StatusMessageRoundTrip(prefix: string, status: nat, text: string)
    ensures ParseStatusMessage(prefix, StatusMessage(prefix, status, text)) == Some((status, text))
  {
    var digits := NatToString(status);
    var msg := StatusMessage(prefix, status, text);
    assert msg[..|prefix|] == prefix;
    var rest := msg[|prefix|..];
    assert rest == digits + (StatusSeparator + text);
    LeadingDigitsOf(digits, StatusSeparator + text);
    assert rest[|digits|..] == StatusSeparator + text;
    assert (StatusSeparator + text)[|StatusSeparator|..] == text;
    NatToStringRoundTrip(status);
  }
}
