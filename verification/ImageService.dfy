/**
 * The pure helpers of the match-report image: the KDA, CS and result-colour rules of the report
 * header, and `formatAnalysisHtml`, three global regular-expression replacements that turn the
 * analysis text into HTML: `**[X]**` into a section-header div, `**X**` into bold, and every
 * newline into `<br>`. (Its escaping is `Html.EscapeHtmlKeepingQuotes`.)
 */
module ImageService {
  import opened Wrappers
  import opened Text
  import Html

  // ---------------------------------------------------------------------------
  // Report header
  // ---------------------------------------------------------------------------

  /** The per-minute figures of the parsed match, when present. */
  datatype RawStats = RawStats(kda: real, csPerMin: real)

  /** The fields of the match the header reads. */
  datatype MatchInfo = MatchInfo(
    raw: Option<RawStats>,
    kills: Option<nat>,
    deaths: Option<nat>,
    assists: Option<nat>,
    teamResult: Option<string>)

  /** What the KDA cell shows: the computed ratio (to two decimals), or the kills/deaths/assists triple. */
  datatype KdaShown = FixedKda(kda: real) | KdaCounts(kills: nat, deaths: nat, assists: nat)

  function KdaText(m: MatchInfo): (r: KdaShown)
    ensures r.FixedKda? <==> m.raw.Some?
    ensures r.FixedKda? ==> r.kda == m.raw.value.kda
    ensures r.KdaCounts? ==> r.kills == (if m.kills.Some? then m.kills.value else 0)
    ensures r.KdaCounts? ==> r.deaths == (if m.deaths.Some? then m.deaths.value else 0)
    ensures r.KdaCounts? ==> r.assists == (if m.assists.Some? then m.assists.value else 0)
  {
    match m.raw
    case Some(raw) => FixedKda(raw.kda)
    case None => KdaCounts(m.kills.GetOr(0), m.deaths.GetOr(0), m.assists.GetOr(0))
  }

  /** The CS cell: CS per minute (to one decimal, with a unit) when present; None stands for '-'. */
  function CsText(m: MatchInfo): (r: Option<real>)
    ensures r.Some? <==> m.raw.Some?
    ensures r.Some? ==> r.value == m.raw.value.csPerMin
  {
    match m.raw
    case Some(raw) => Some(raw.csPerMin)
    case None => None
  }

  const WinColor: string := "#2ecc71"
  const LossColor: string := "#e74c3c"

  /** Green exactly for a won game; any other or missing result is red. */
  function ResultColor(teamResult: Option<string>): (c: string)
    ensures c == WinColor <==> teamResult == Some("WIN")
    ensures c == LossColor <==> teamResult != Some("WIN")
  {
    if teamResult == Some("WIN") then WinColor else LossColor
  }

  // ---------------------------------------------------------------------------
  // The lazy group `(.+?)` followed by a closing literal
  // ---------------------------------------------------------------------------

  /** `closer` occurs in `s` at index `j`. */
  predicate At(s: string, j: nat, closer: string) {
    j + |closer| <= |s| && s[j..j + |closer|] == closer
  }

  /**
   * Where a lazy group ends when it is already `k - start` characters long: the first `e >= k`
   * with `closer` at `e`, provided no character of the group (from index `k - 1` on) is a line
   * terminator, which `.` does not match.
   */
  function LazyEnd(s: string, k: nat, closer: string): (r: Option<nat>)
    requires k >= 1
    ensures r.Some? ==> k <= r.value && At(s, r.value, closer)
    ensures r.Some? ==> forall j :: k - 1 <= j < r.value ==> !IsLineTerminator(s[j])
    ensures r.Some? ==> forall j :: k <= j < r.value ==> !At(s, j, closer)
    decreases |s| - k
  {
    if k > |s| || IsLineTerminator(s[k - 1]) then None
    else if At(s, k, closer) then Some(k)
    else LazyEnd(s, k + 1, closer)
  }

  /** The lazy group stops at the first closer when nothing before it stops it. */
  lemma {:induction false} LazyEndFinds(s: string, k: nat, e: nat, closer: string)
    requires 1 <= k <= e && At(s, e, closer)
    requires forall j :: k - 1 <= j < e ==> !IsLineTerminator(s[j])
    requires forall j :: k <= j < e ==> !At(s, j, closer)
    ensures LazyEnd(s, k, closer) == Some(e)
    decreases e - k
  {
    if k < e {
      LazyEndFinds(s, k + 1, e, closer);
    }
  }

  // ---------------------------------------------------------------------------
  // The three replacements
  // ---------------------------------------------------------------------------

  const HeaderOpen: string := "<div class=\"section-header\">"
  const HeaderClose: string := "</div>"
  const BoldOpen: string := "<strong>"
  const BoldClose: string := "</strong>"

  /**
   * `s.replace(/\*\*\[(.+?)\]\*\*\/g, …)`: scanning left to right, a match at the current
   * position is replaced and the scan resumes after it; elsewhere one character is kept.
   */
  function ReplaceHeaders(s: string): string
    decreases |s|
  {
    if |s| == 0 then ""
    else if StartsWith(s, "**[") && LazyEnd(s, 4, "]**").Some? then
      var e := LazyEnd(s, 4, "]**").value;
      HeaderOpen + s[3..e] + HeaderClose + ReplaceHeaders(s[e + 3..])
    else [s[0]] + ReplaceHeaders(s[1..])
  }

  /** `s.replace(/\*\*(.+?)\*\*\/g, '<strong>$1</strong>')`, scanning the same way. */
  function ReplaceBold(s: string): string
    decreases |s|
  {
    if |s| == 0 then ""
    else if StartsWith(s, "**") && LazyEnd(s, 3, "**").Some? then
      var e := LazyEnd(s, 3, "**").value;
      BoldOpen + s[2..e] + BoldClose + ReplaceBold(s[e + 2..])
    else [s[0]] + ReplaceBold(s[1..])
  }

  /** `formatAnalysisHtml`: headers, then bold, then line breaks. */
  function FormatAnalysisHtml(text: string): (r: string)
    ensures '\n' !in r
  {
    Html.ReplaceChar(ReplaceBold(ReplaceHeaders(text)), '\n', "<br>")
  }

  // ---------------------------------------------------------------------------
  // What the replacements do
  // ---------------------------------------------------------------------------

  /** Where no header starts, one character is kept. */
  lemma HeadersSkip(s: string)
    requires |s| > 0 && !StartsWith(s, "**[")
    ensures ReplaceHeaders(s) == [s[0]] + ReplaceHeaders(s[1..])
  {
  }

  /** Where no bold run starts, one character is kept. */
  lemma BoldSkip(s: string)
    requires |s| > 0 && !StartsWith(s, "**")
    ensures ReplaceBold(s) == [s[0]] + ReplaceBold(s[1..])
  {
  }

  lemma ConsConcat(p: string, x: string)
    requires |p| > 0
    ensures [p[0]] + (p[1..] + x) == p + x
  {
    assert p == [p[0]] + p[1..];
  }

  /** A prefix without asterisks passes both bold passes unchanged. */
  lemma {:induction false} StarlessPrefix(p: string, q: string)
    requires '*' !in p
    ensures ReplaceHeaders(p + q) == p + ReplaceHeaders(q)
    ensures ReplaceBold(p + q) == p + ReplaceBold(q)
    decreases |p|
  {
    if |p| == 0 {
      assert p + q == q;
    } else {
      var s := p + q;
      assert s[0] == p[0] && s[1..] == p[1..] + q;
      assert p[0] != '*';
      HeadersSkip(s);
      BoldSkip(s);
      StarlessPrefix(p[1..], q);
      ConsConcat(p, ReplaceHeaders(q));
      ConsConcat(p, ReplaceBold(q));
    }
  }

  /** Text without asterisks only has its newlines turned into `<br>`. */
  lemma StarlessText(s: string)
    requires '*' !in s
    ensures FormatAnalysisHtml(s) == Html.ReplaceChar(s, '\n', "<br>")
    ensures '\n' !in s ==> FormatAnalysisHtml(s) == s
  {
    StarlessPrefix(s, "");
    assert s + "" == s;
  }

  /** Without a '[' there is no section header to replace. */
  lemma {:induction false} BracketlessHeaders(s: string)
    requires '[' !in s
    ensures ReplaceHeaders(s) == s
    decreases |s|
  {
    if |s| > 0 {
      assert !StartsWith(s, "**[") by {
        if |s| >= 3 {
          assert s[2] != '[';
          assert s[..3][2] == s[2];
        }
      }
      HeadersSkip(s);
      BracketlessHeaders(s[1..]);
      assert s == [s[0]] + s[1..];
    }
  }

  /** `**[t]**` opens a section header when its title is a plain one-line text. */
  lemma HeaderReplaced(t: string, rest: string)
    requires t != [] && '*' !in t && ']' !in t
    requires forall i :: 0 <= i < |t| ==> !IsLineTerminator(t[i])
    ensures ReplaceHeaders("**[" + t + "]**" + rest) == HeaderOpen + t + HeaderClose + ReplaceHeaders(rest)
  {
    var s := "**[" + t + "]**" + rest;
    var e := 3 + |t|;
    assert s[..3] == "**[";
    assert s[3..e] == t;
    assert s[e..e + 3] == "]**";
    assert s[e + 3..] == rest;
    forall j | 3 <= j < e
      ensures !IsLineTerminator(s[j]) && !At(s, j, "]**")
    {
      assert s[j] == t[j - 3];
    }
    LazyEndFinds(s, 4, e, "]**");
  }

  /** `**t**` becomes bold when `t` is a plain one-line text. */
  lemma BoldReplaced(t: string, rest: string)
    requires t != [] && '*' !in t
    requires forall i :: 0 <= i < |t| ==> !IsLineTerminator(t[i])
    ensures ReplaceBold("**" + t + "**" + rest) == BoldOpen + t + BoldClose + ReplaceBold(rest)
  {
    var s := "**" + t + "**" + rest;
    var e := 2 + |t|;
    assert s[..2] == "**";
    assert s[2..e] == t;
    assert s[e..e + 2] == "**";
    assert s[e + 2..] == rest;
    forall j | 2 <= j < e
      ensures !IsLineTerminator(s[j]) && !At(s, j, "**")
    {
      assert s[j] == t[j - 2];
    }
    LazyEndFinds(s, 3, e, "**");
  }

  /** `p` has none of the characters the passes after the header pass act on. */
  predicate Inert(p: string) {
    '*' !in p && '\n' !in p
  }

  /** An inert prefix is left alone by the bold and line-break passes. */
  lemma InertPrefix(p: string, q: string)
    requires Inert(p)
    ensures Html.ReplaceChar(ReplaceBold(p + q), '\n', "<br>") == p + Html.ReplaceChar(ReplaceBold(q), '\n', "<br>")
  {
    StarlessPrefix(p, q);
    Html.ReplaceCharAppend(p, ReplaceBold(q), '\n', "<br>");
  }

  lemma InertMarkup(t: string)
    requires '*' !in t && forall i :: 0 <= i < |t| ==> !IsLineTerminator(t[i])
    ensures Inert(HeaderOpen + t + HeaderClose) && Inert(BoldOpen + t + BoldClose)
  {
    assert Inert(HeaderOpen) && Inert(HeaderClose) && Inert(BoldOpen) && Inert(BoldClose);
  }

  /** A section header in the analysis becomes a header div, and the rest is formatted on its own. */
  lemma HeaderBecomesDiv(t: string, rest: string)
    requires t != [] && '*' !in t && ']' !in t
    requires forall i :: 0 <= i < |t| ==> !IsLineTerminator(t[i])
    ensures FormatAnalysisHtml("**[" + t + "]**" + rest) == HeaderOpen + t + HeaderClose + FormatAnalysisHtml(rest)
  {
    var whole := "**[" + t + "]**" + rest;
    var p := HeaderOpen + t + HeaderClose;
    HeaderReplaced(t, rest);
    assert ReplaceHeaders(whole) == p + ReplaceHeaders(rest);
    InertMarkup(t);
    InertPrefix(p, ReplaceHeaders(rest));
  }

  /** Bold text becomes a strong element when there is no section header around. */
  lemma BoldBecomesStrong(t: string, rest: string)
    requires t != [] && '*' !in t && '[' !in t && '[' !in rest
    requires forall i :: 0 <= i < |t| ==> !IsLineTerminator(t[i])
    ensures FormatAnalysisHtml("**" + t + "**" + rest) == BoldOpen + t + BoldClose + FormatAnalysisHtml(rest)
  {
    var whole := "**" + t + "**" + rest;
    assert '[' !in whole by {
      assert whole == "**" + (t + ("**" + rest));
    }
    BracketlessHeaders(whole);
    BracketlessHeaders(rest);
    BoldReplaced(t, rest);
    var p := BoldOpen + t + BoldClose;
    assert ReplaceBold(ReplaceHeaders(whole)) == p + ReplaceBold(ReplaceHeaders(rest));
    InertMarkup(t);
    Html.ReplaceCharAppend(p, ReplaceBold(ReplaceHeaders(rest)), '\n', "<br>");
  }
}
