/**
 * The patch-note summarizer's text rules. The three formatters (League of Legends, TFT,
 * Valorant) cut the AI summary into '## ' sections with the shared section parser and wrap the
 * fields in an embed that differs per game only in title prefix, colour and thumbnail. When the
 * AI call fails, the fallback summary is the first 1500 characters of the patch notes with every
 * whitespace run collapsed to one space, under a fixed header and footer line.
 */
module AiSummarizer {
  import opened Wrappers
  import opened Text
  import opened SectionFields

  datatype Game = LeagueOfLegends | Tft | Valorant

  /** The crawled patch note: its title, link and text. */
  datatype PatchData = PatchData(title: string, url: string, content: string)

  /** The embed the formatters return; `timestamp` is the ISO time of the call. */
  datatype Embed = Embed(
    title: string,
    url: string,
    fields: seq<Field>,
    color: nat,
    timestamp: string,
    footer: string,
    thumbnail: string)

  function TitlePrefix(game: Game): string {
    match game
    case LeagueOfLegends => "📰 "
    case Tft => "🎮 "
    case Valorant => "🔫 "
  }

  function Color(game: Game): nat {
    match game
    case LeagueOfLegends => 0x1a78ae
    case Tft => 0xc89b3c
    case Valorant => 0xff4655
  }

  const Footer: string := "🤖 AI 요약 | 자세한 내용은 원문 확인"

  const LolThumbnail: string := "https://images.contentstack.io/v3/assets/blt731acb42bb3d1659/blt63f045f1aa0e2440/5ef1132f90d2de3ed4bbe867/LOL_PROMOART_2.jpg"
  const TftThumbnail: string := "https://images.contentstack.io/v3/assets/blt731acb42bb3d1659/bltc3572889a8f37be9/5fb56ca12ea50d5e4d7da47b/TFT_LOGO.png"
  const ValorantThumbnail: string := "https://images.contentstack.io/v3/assets/bltb6530b271fddd0b1/blt8a9da6d9e84cdee7/5f7a73cc64c8cc5c26fc4ac5/VALORANT_logo_image.jpg"

  function Thumbnail(game: Game): string {
    match game
    case LeagueOfLegends => LolThumbnail
    case Tft => TftThumbnail
    case Valorant => ValorantThumbnail
  }

  /**
   * `formatForDiscord`, `formatTftForDiscord` and `formatValorantForDiscord`: the fields of the
   * summary's non-blank '## ' sections, in order and clipped to 1024 characters, under the
   * game's title prefix and the patch's own title and link.
   */
  method FormatForDiscord(game: Game, summary: string, patch: PatchData, timestamp: string) returns (e: Embed)
    ensures e == EmbedOf(game, summary, patch, timestamp)
  {
    var fields := ParseToFields(Markdown, summary);
    e := Embed(TitlePrefix(game) + patch.title, patch.url, fields, Color(game), timestamp, Footer, Thumbnail(game));
  }

  /** The embed `FormatForDiscord` builds. */
  function EmbedOf(game: Game, summary: string, patch: PatchData, timestamp: string): Embed {
    Embed(TitlePrefix(game) + patch.title, patch.url, Fields(SectionsOf(Markdown, summary)), Color(game), timestamp,
          Footer, Thumbnail(game))
  }

  /** The three formatters build the same fields, link, footer and time from the same summary. */
  lemma FormattersAgree(g1: Game, g2: Game, summary: string, patch: PatchData, timestamp: string)
    ensures var e1, e2 := EmbedOf(g1, summary, patch, timestamp), EmbedOf(g2, summary, patch, timestamp);
            && e1.fields == e2.fields && e1.url == e2.url && e1.footer == e2.footer && e1.timestamp == e2.timestamp
            && e1.title[|TitlePrefix(g1)|..] == e2.title[|TitlePrefix(g2)|..] == patch.title
  {
    var e1, e2 := EmbedOf(g1, summary, patch, timestamp), EmbedOf(g2, summary, patch, timestamp);
    assert e1.title[|TitlePrefix(g1)|..] == patch.title;
    assert e2.title[|TitlePrefix(g2)|..] == patch.title;
  }

  /** The title prefix and the colour each tell the three games apart. */
  lemma GamesTellApart(g1: Game, g2: Game)
    ensures Color(g1) == Color(g2) <==> g1 == g2
    ensures TitlePrefix(g1) == TitlePrefix(g2) <==> g1 == g2
  {
    if g1 != g2 {
      assert TitlePrefix(g1)[0] != TitlePrefix(g2)[0];
    }
  }

  // ---------------------------------------------------------------------------
  // The fallback summary
  // ---------------------------------------------------------------------------

  /** No whitespace other than single spaces: what `replace(/\s+/g, ' ')` leaves. */
  predicate Collapsed(s: string) {
    forall i :: 0 <= i < |s| && IsSpace(s[i]) ==> s[i] == ' ' && (i + 1 < |s| ==> !IsSpace(s[i + 1]))
  }

  /** `s.replace(/\s+/g, ' ')`: every maximal whitespace run becomes one space. */
  function CollapseSpaces(s: string): (r: string)
    ensures |r| <= |s|
    ensures r == [] <==> s == []
    ensures r != [] ==> (IsSpace(r[0]) <==> IsSpace(s[0]))
    ensures Collapsed(r)
    decreases |s|
  {
    if |s| == 0 then ""
    else if IsSpace(s[0]) then
      var t := TrimStart(s);
      assert |t| < |s|;
      " " + CollapseSpaces(t)
    else [s[0]] + CollapseSpaces(s[1..])
  }

  /** The characters of `s` that are not whitespace, in order. */
  function Visible(s: string): string {
    if |s| == 0 then ""
    else (if IsSpace(s[0]) then "" else [s[0]]) + Visible(s[1..])
  }

  lemma {:induction false} VisibleAppend(a: string, b: string)
    ensures Visible(a + b) == Visible(a) + Visible(b)
    decreases |a|
  {
    if |a| == 0 {
      assert a + b == b;
    } else {
      assert (a + b)[1..] == a[1..] + b;
      VisibleAppend(a[1..], b);
    }
  }

  lemma {:induction false} VisibleBlank(s: string)
    requires IsBlank(s)
    ensures Visible(s) == ""
    decreases |s|
  {
    if |s| > 0 {
      VisibleBlank(s[1..]);
    }
  }

  /** Collapsing keeps every visible character, in order: only whitespace changes. */
  lemma {:induction false} CollapseKeepsVisible(s: string)
    ensures Visible(CollapseSpaces(s)) == Visible(s)
    decreases |s|
  {
    if |s| == 0 {
    } else if IsSpace(s[0]) {
      var t := TrimStart(s);
      CollapseKeepsVisible(t);
      VisibleAppend(" ", CollapseSpaces(t));
      assert s == s[..|s| - |t|] + t;
      VisibleAppend(s[..|s| - |t|], t);
      VisibleBlank(s[..|s| - |t|]);
    } else {
      CollapseKeepsVisible(s[1..]);
      VisibleAppend([s[0]], CollapseSpaces(s[1..]));
    }
  }

  /** Collapsed text is left as it is. */
  lemma {:induction false} CollapsedUnchanged(s: string)
    requires Collapsed(s)
    ensures CollapseSpaces(s) == s
    decreases |s|
  {
    if |s| > 0 {
      CollapsedTail(s);
      CollapsedUnchanged(s[1..]);
      var rest := s[1..];
      assert s == [s[0]] + rest;
      if IsSpace(s[0]) {
        assert s[0] == ' ' && (|s| > 1 ==> !IsSpace(s[1]));
        LoneSpaceTrimmed(s);
        assert CollapseSpaces(s) == " " + CollapseSpaces(rest);
      } else {
        assert CollapseSpaces(s) == [s[0]] + CollapseSpaces(rest);
      }
    }
  }

  lemma CollapsedTail(s: string)
    requires Collapsed(s) && |s| > 0
    ensures Collapsed(s[1..])
  {
    forall i | 0 <= i < |s[1..]| && IsSpace(s[1..][i])
      ensures s[1..][i] == ' ' && (i + 1 < |s[1..]| ==> !IsSpace(s[1..][i + 1]))
    {
      assert s[1..][i] == s[i + 1];
    }
  }

  /** A single leading space is all `TrimStart` removes when a visible character follows it. */
  lemma LoneSpaceTrimmed(s: string)
    requires |s| > 0 && IsSpace(s[0]) && (|s| > 1 ==> !IsSpace(s[1]))
    ensures TrimStart(s) == s[1..]
  {
    assert TrimStart(s) == TrimStart(s[1..]);
  }

  /** Collapsing twice is collapsing once. */
  lemma CollapseIdempotent(s: string)
    ensures CollapseSpaces(CollapseSpaces(s)) == CollapseSpaces(s)
  {
    CollapsedUnchanged(CollapseSpaces(s));
  }

  /** Past a leading whitespace run, `TrimStart` stops inside `a` when `a` ends with a visible character. */
  lemma {:induction false} TrimStartAppend(a: string, s: string)
    requires |a| > 0 && !IsSpace(a[|a| - 1])
    ensures TrimStart(a + s) == TrimStart(a) + s
    decreases |a|
  {
    if IsSpace(a[0]) {
      assert (a + s)[1..] == a[1..] + s;
      TrimStartAppend(a[1..], s);
    }
  }

  /** `TrimStart` removes a whole whitespace run and nothing after it. */
  lemma {:induction false} TrimStartBlank(w: string, b: string)
    requires IsBlank(w) && (|b| == 0 || !IsSpace(b[0]))
    ensures TrimStart(w + b) == b
    decreases |w|
  {
    if |w| == 0 {
      assert w + b == b;
    } else {
      assert (w + b)[1..] == w[1..] + b;
      TrimStartBlank(w[1..], b);
    }
  }

  /** One unfolding of `CollapseSpaces` at a leading whitespace run. */
  lemma CollapseSpaceHead(s: string)
    requires |s| > 0 && IsSpace(s[0])
    ensures CollapseSpaces(s) == " " + CollapseSpaces(TrimStart(s))
  {
  }

  /** One unfolding of `CollapseSpaces` at a leading visible character. */
  lemma CollapseVisibleHead(s: string)
    requires |s| > 0 && !IsSpace(s[0])
    ensures CollapseSpaces(s) == [s[0]] + CollapseSpaces(s[1..])
  {
  }

  /** Text that ends with a visible character collapses on its own: nothing joins it to what follows. */
  lemma {:induction false} CollapseAppend(a: string, s: string)
    requires |a| == 0 || !IsSpace(a[|a| - 1])
    ensures CollapseSpaces(a + s) == CollapseSpaces(a) + CollapseSpaces(s)
    decreases |a|
  {
    if |a| == 0 {
      assert a + s == s;
    } else if IsSpace(a[0]) {
      var t := TrimStart(a);
      TrimStartAppend(a, s);
      assert |t| > 0 && |t| < |a| by {
        if |t| == 0 {
          assert false;
        }
        if |t| == |a| {
          assert false;
        }
      }
      assert t[|t| - 1] == a[|a| - 1];
      CollapseAppend(t, s);
      CollapseSpaceHead(a);
      CollapseSpaceHead(a + s);
      ConcatAssoc(" ", CollapseSpaces(t), CollapseSpaces(s));
    } else {
      var rest := a[1..];
      assert (a + s)[1..] == rest + s;
      CollapseAppend(rest, s);
      CollapseVisibleHead(a);
      CollapseVisibleHead(a + s);
      ConcatAssoc([a[0]], CollapseSpaces(rest), CollapseSpaces(s));
    }
  }

  /** A whitespace run before visible text (or the end) becomes exactly one space. */
  lemma CollapseRun(w: string, b: string)
    requires |w| > 0 && IsBlank(w) && (|b| == 0 || !IsSpace(b[0]))
    ensures CollapseSpaces(w + b) == " " + CollapseSpaces(b)
  {
    assert IsSpace((w + b)[0]);
    TrimStartBlank(w, b);
    CollapseSpaceHead(w + b);
  }

  /**
   * `replace(/\s+/g, ' ')` in full: a maximal whitespace run, between a visible character (or the
   * start) and a visible character (or the end), becomes exactly one space, in place.
   */
  lemma RunBecomesOneSpace(a: string, w: string, b: string)
    requires |a| == 0 || !IsSpace(a[|a| - 1])
    requires |w| > 0 && IsBlank(w)
    requires |b| == 0 || !IsSpace(b[0])
    ensures CollapseSpaces(a + (w + b)) == CollapseSpaces(a) + (" " + CollapseSpaces(b))
  {
    CollapseAppend(a, w + b);
    CollapseRun(w, b);
  }

  /** How many characters of the patch notes the fallback shows. */
  const PreviewLength: nat := 1500

  /** The first 1500 characters of the patch notes, or all of them when shorter. */
  function PreviewCut(content: string): (r: string)
    ensures |r| <= PreviewLength && r <= content
    ensures |content| >= PreviewLength ==> |r| == PreviewLength
    ensures |content| < PreviewLength ==> r == content
  {
    content[..if |content| < PreviewLength then |content| else PreviewLength]
  }

  /** Each whitespace run of the cut shows as one space in the preview, with the text around it kept. */
  lemma PreviewRun(content: string, a: string, w: string, b: string)
    requires PreviewCut(content) == a + (w + b)
    requires |a| == 0 || !IsSpace(a[|a| - 1])
    requires |w| > 0 && IsBlank(w)
    requires |b| == 0 || !IsSpace(b[0])
    ensures Preview(content) == CollapseSpaces(a) + (" " + CollapseSpaces(b))
  {
    RunBecomesOneSpace(a, w, b);
  }

  /** `content.substring(0, 1500).replace(/\s+/g, ' ')`. */
  function Preview(content: string): (r: string)
    ensures |r| <= PreviewLength
    ensures Collapsed(r) && '\n' !in r
    ensures Visible(r) == Visible(PreviewCut(content))
  {
    var cut := PreviewCut(content);
    CollapseKeepsVisible(cut);
    var r := CollapseSpaces(cut);
    assert IsSpace('\n');
    r
  }

  const FallbackTitle: string := "📋 패치노트 요약 (자동 요약 실패 - 원문 일부)"
  const FallbackClosing: string := "... 자세한 내용은 원문을 확인해주세요."

  /** `getFallbackSummary`: a '## ' header, a blank line, the preview, a blank line and a closing line. */
  function FallbackSummary(patch: PatchData): string {
    "## " + FallbackTitle + "\n\n" + Preview(patch.content) + "\n\n" + FallbackClosing
  }

  /** A header, a blank line, a line, a blank line and a closing line. */
  function FiveLines(title: string, line: string, closing: string): string {
    "## " + title + "\n\n" + line + "\n\n" + closing
  }

  lemma FiveLinesSplit(title: string, line: string, closing: string)
    requires '\n' !in title && '\n' !in line && '\n' !in closing
    ensures Split(FiveLines(title, line, closing), '\n') == ["## " + title, "", line, "", closing]
  {
    var parts := ["## " + title, "", line, "", closing];
    assert Join(parts[3..], "\n") == "\n" + closing;
    assert Join(parts[2..], "\n") == line + "\n\n" + closing;
    assert Join(parts[1..], "\n") == "\n" + line + "\n\n" + closing;
    var nl := "\n";
    assert nl + nl == "\n\n";
    calc {
      Join(parts, nl);
      parts[0] + nl + Join(parts[1..], nl);
      ("## " + title) + nl + (nl + line + (nl + nl) + closing);
      "## " + title + (nl + nl) + line + (nl + nl) + closing;
    }
    assert '\n' !in parts[0];
    assert nl == ['\n'];
    SplitJoin(parts, '\n');
  }

  /** Such a text is a single section: one field, named after the header. */
  lemma FiveLinesOneField(title: string, line: string, closing: string)
    requires '\n' !in title && '\n' !in line && '\n' !in closing
    requires title != [] && !IsSpace(title[0]) && !IsSpace(title[|title| - 1])
    requires !StartsWith(line, "## ") && !StartsWith(closing, "## ") && !IsBlank(closing)
    ensures |Fields(SectionsOf(Markdown, FiveLines(title, line, closing)))| == 1
    ensures Fields(SectionsOf(Markdown, FiveLines(title, line, closing)))[0].name == title
  {
    var body := ["", line, "", closing];
    FiveLinesSection(title, line, closing);
    BodyTextNotBlank(body);
    assert !IsBlank(body[3]);
    assert [Section(title, BodyText(body))][..0] == [];
  }

  /** Such a text parses as the one section its header opens, holding the four lines below it. */
  lemma FiveLinesSection(title: string, line: string, closing: string)
    requires '\n' !in title && '\n' !in line && '\n' !in closing
    requires title != [] && !IsSpace(title[0]) && !IsSpace(title[|title| - 1])
    requires !StartsWith(line, "## ") && !StartsWith(closing, "## ")
    ensures SectionsOf(Markdown, FiveLines(title, line, closing)) == [Section(title, BodyText(["", line, "", closing]))]
  {
    var body := ["", line, "", closing];
    var header := "## " + title;
    FiveLinesSplit(title, line, closing);
    assert Split(FiveLines(title, line, closing), '\n') == [] + [header] + body;
    HeaderOpens(title);
    BodyOpensNothing(line, closing);
    OneSection(Markdown, [], header, body);
    var sec := Section(title, BodyText(body));
    var o := OpeningOf(Markdown, header).value;
    assert Open(o).(content := Open(o).content + BodyText(body)) == sec by {
      assert Open(o) == Section(title, "");
      assert "" + BodyText(body) == BodyText(body);
    }
  }

  lemma HeaderOpens(title: string)
    requires '\n' !in title
    requires title != [] && !IsSpace(title[0]) && !IsSpace(title[|title| - 1])
    ensures OpeningOf(Markdown, "## " + title) == Some(Opening(title, ""))
  {
    var header := "## " + title;
    assert header[3..] == title;
    assert Trim(title) == title by {
      assert TrimStart(title) == title && TrimEnd(title) == title;
    }
  }

  lemma BodyOpensNothing(line: string, closing: string)
    requires !StartsWith(line, "## ") && !StartsWith(closing, "## ")
    ensures var body := ["", line, "", closing];
            forall i :: 0 <= i < |body| ==> OpeningOf(Markdown, body[i]).None?
  {
    var body := ["", line, "", closing];
    forall i | 0 <= i < |body|
      ensures OpeningOf(Markdown, body[i]).None?
    {
      assert body[i] == "" || body[i] == line || body[i] == closing;
      assert !StartsWith(body[i], "## ");
    }
  }

  /**
   * Run through the formatter, the fallback summary is one field named after its header, unless
   * the preview itself happens to begin with '## '.
   */
  lemma FallbackIsOneField(patch: PatchData)
    requires !StartsWith(Preview(patch.content), "## ")
    ensures |Fields(SectionsOf(Markdown, FallbackSummary(patch)))| == 1
    ensures Fields(SectionsOf(Markdown, FallbackSummary(patch)))[0].name == FallbackTitle
  {
    assert FallbackSummary(patch) == FiveLines(FallbackTitle, Preview(patch.content), FallbackClosing);
    FallbackTitleIsOneLine();
    FallbackClosingIsPlain();
    FiveLinesOneField(FallbackTitle, Preview(patch.content), FallbackClosing);
  }

  lemma FallbackTitleIsOneLine()
    ensures '\n' !in FallbackTitle
    ensures FallbackTitle != [] && !IsSpace(FallbackTitle[0]) && !IsSpace(FallbackTitle[|FallbackTitle| - 1])
  {
  }

  lemma FallbackClosingIsPlain()
    ensures '\n' !in FallbackClosing && !StartsWith(FallbackClosing, "## ") && !IsBlank(FallbackClosing)
  {
    assert !IsSpace(FallbackClosing[0]);
  }
}
