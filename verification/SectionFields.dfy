/**
 * The parser that turns an AI answer into Discord embed fields. The answer is cut into lines;
 * a header line opens a section, other non-blank lines are appended to the open section, and
 * at the end every section with a title and non-blank content becomes one field whose value is
 * the trimmed content clipped to Discord's 1024-character limit.
 *
 * The bot carries six copies of this loop, in four services, that differ only in what a header
 * looks like: a Markdown header `## Title` (match analysis, coaching, the three patch-note
 * formatters) or a bold bracket `**[Title]** rest of line` (the Claude match analysis).
 * `ParseToFields` is that loop, parameterised by the header style; each service's parser calls it.
 */
module SectionFields {
  import opened Wrappers
  import opened Text

  /** `{ title, content }` while the loop runs. */
  datatype Section = Section(title: string, content: string)

  /** An embed field `{ name, value }`. */
  datatype Field = Field(name: string, value: string)

  datatype HeaderStyle = Markdown | Bracket

  /** What a header line opens: the section title and the start of its content. */
  datatype Opening = Opening(title: string, first: string)

  /** Discord's limit on a field value. */
  const FieldLimit: nat := 1024

  /** The section the loop starts with; it has no title, so it is never emitted. */
  const Untitled := Section("", "")

  /** `]**` starts at index `j` of `line`. */
  predicate ClosesAt(line: string, j: nat) {
    j + 3 <= |line| && line[j..j + 3] == "]**"
  }

  /**
   * The lazy match of `\*\*\[(.+?)\]\*\*` after the leading `**[`: the first `k >= 4` such that
   * `]**` starts at `k` and no character of the title `line[3..k]` is a line terminator.
   */
  function CloseFrom(line: string, k: nat): (r: Option<nat>)
    requires 4 <= k
    requires forall j :: 3 <= j < k - 1 && j < |line| ==> !IsLineTerminator(line[j])
    ensures r.Some? ==> k <= r.value && ClosesAt(line, r.value)
    ensures r.Some? ==> forall j :: 3 <= j < r.value ==> !IsLineTerminator(line[j])
    ensures r.Some? ==> forall j :: k <= j < r.value ==> !ClosesAt(line, j)
    decreases |line| - k
  {
    if k > |line| || IsLineTerminator(line[k - 1]) then None
    else if ClosesAt(line, k) then Some(k)
    else CloseFrom(line, k + 1)
  }

  /** Whether `line` is a header in the given style, and what it opens. */
  function OpeningOf(style: HeaderStyle, line: string): (r: Option<Opening>)
    ensures style == Markdown ==> (r.Some? <==> StartsWith(line, "## "))
    ensures style == Markdown && r.Some? ==> r.value == Opening(Trim(line[3..]), "")
    ensures style == Bracket && r.Some? ==>
              StartsWith(line, "**[") && r.value.title != [] && Contains(line, "**[" + r.value.title + "]**")
    ensures style == Bracket && r.Some? ==> r.value.first == [] || !IsSpace(r.value.first[0])
  {
    match style
    case Markdown =>
      // `line.replace('## ', '')` removes the first occurrence, which is the prefix
      if StartsWith(line, "## ") then Some(Opening(Trim(line[3..]), "")) else None
    case Bracket =>
      if StartsWith(line, "**[") then
        match CloseFrom(line, 4)
        case None => None
        case Some(k) =>
          assert line == [] + ("**[" + line[3..k] + "]**") + line[k + 3..] by {
            assert line[..3] == "**[";
          }
          InfixContained([], "**[" + line[3..k] + "]**", line[k + 3..]);
          Some(Opening(line[3..k], Trim(line[k + 3..])))
      else None
  }

  lemma {:induction false} CloseFromFinds(line: string, k: nat, e: nat)
    requires 4 <= k <= e && ClosesAt(line, e)
    requires forall j :: 3 <= j < e ==> !IsLineTerminator(line[j])
    requires forall j :: k <= j < e ==> !ClosesAt(line, j)
    ensures CloseFrom(line, k) == Some(e)
    decreases e - k
  {
    if k < e {
      CloseFromFinds(line, k + 1, e);
    }
  }

  /**
   * A line `**[t]** rest` with a one-line title free of ']' opens a section titled `t`, whose
   * first content line is `rest` trimmed.
   */
  lemma BracketHeaderOpens(t: string, rest: string)
    requires t != [] && ']' !in t
    requires forall i :: 0 <= i < |t| ==> !IsLineTerminator(t[i])
    ensures OpeningOf(Bracket, "**[" + t + "]**" + rest) == Some(Opening(t, Trim(rest)))
  {
    var line := "**[" + t + "]**" + rest;
    var e := 3 + |t|;
    assert line[..3] == "**[";
    assert line[3..e] == t;
    assert line[e..e + 3] == "]**";
    assert line[e + 3..] == rest;
    forall j | 3 <= j < e
      ensures !IsLineTerminator(line[j]) && !ClosesAt(line, j)
    {
      assert line[j] == t[j - 3];
    }
    CloseFromFinds(line, 4, e);
  }

  /** The title a line contributes as a header, or "" when it is not one. */
  function HeaderTitle(style: HeaderStyle, line: string): string {
    match OpeningOf(style, line)
    case Some(o) => o.title
    case None => ""
  }

  /** The section a header opens: its title, and the rest of the header line as first content line. */
  function Open(o: Opening): (r: Section)
    ensures r.title == o.title
    ensures o.first == [] ==> r.content == []
    ensures o.first != [] ==> r.content == o.first + "\n"
  {
    Section(o.title, if o.first != [] then o.first + "\n" else "")
  }

  /** What closing a section emits: the section itself, when its title is not empty. */
  function Flush(cur: Section): (r: seq<Section>)
    ensures |r| <= 1
    ensures r == [] <==> cur.title == []
  {
    if cur.title != [] then [cur] else []
  }

  /** One line added to the open section: non-blank lines are appended with a newline. */
  function Append(cur: Section, line: string): (r: Section)
    ensures r.title == cur.title
    ensures IsBlank(line) ==> r == cur
  {
    if IsBlank(line) then cur else cur.(content := cur.content + line + "\n")
  }

  /** The sections the loop emits when it starts on `lines` with `cur` open. */
  function Run(style: HeaderStyle, cur: Section, lines: seq<string>): seq<Section>
    decreases |lines|
  {
    if |lines| == 0 then Flush(cur)
    else match OpeningOf(style, lines[0])
      case Some(o) => Flush(cur) + Run(style, Open(o), lines[1..])
      case None => Run(style, Append(cur, lines[0]), lines[1..])
  }

  /** Untitled text before the first header is dropped: every emitted section has a title. */
  lemma {:induction false} RunTitled(style: HeaderStyle, cur: Section, lines: seq<string>)
    ensures forall i :: 0 <= i < |Run(style, cur, lines)| ==> Run(style, cur, lines)[i].title != []
    decreases |lines|
  {
    var r := Run(style, cur, lines);
    if |lines| == 0 {
      assert r == Flush(cur);
    } else {
      match OpeningOf(style, lines[0])
      case Some(o) =>
        var next := Run(style, Open(o), lines[1..]);
        RunTitled(style, Open(o), lines[1..]);
        assert r == Flush(cur) + next;
        forall i | 0 <= i < |r|
          ensures r[i].title != []
        {
          if i >= |Flush(cur)| {
            assert r[i] == next[i - |Flush(cur)|];
          }
        }
      case None =>
        RunTitled(style, Append(cur, lines[0]), lines[1..]);
        assert r == Run(style, Append(cur, lines[0]), lines[1..]);
    }
  }

  lemma RunHeader(style: HeaderStyle, done: seq<Section>, cur: Section, lines: seq<string>)
    requires |lines| > 0 && OpeningOf(style, lines[0]).Some?
    ensures done + Run(style, cur, lines)
         == (done + Flush(cur)) + Run(style, Open(OpeningOf(style, lines[0]).value), lines[1..])
  {
  }

  lemma RunOther(style: HeaderStyle, cur: Section, lines: seq<string>)
    requires |lines| > 0 && OpeningOf(style, lines[0]).None?
    ensures Run(style, cur, lines) == Run(style, Append(cur, lines[0]), lines[1..])
  {
  }

  /** The sections of a whole answer. */
  function SectionsOf(style: HeaderStyle, text: string): seq<Section> {
    Run(style, Untitled, Split(text, '\n'))
  }

  /** The loop over the lines of the answer. */
  method ParseSections(style: HeaderStyle, text: string) returns (sections: seq<Section>)
    ensures sections == SectionsOf(style, text)
  {
    sections := [];
    var lines := Split(text, '\n');
    var current := Untitled;
    for i := 0 to |lines|
      invariant sections + Run(style, current, lines[i..]) == Run(style, Untitled, lines)
    {
      var line := lines[i];
      assert lines[i..][0] == line && lines[i..][1..] == lines[i + 1..];
      var opening := OpeningOf(style, line);
      if opening.Some? {
        RunHeader(style, sections, current, lines[i..]);
        ghost var emitted := Flush(current);
        if current.title != [] {
          assert emitted == [current];
          sections := sections + [current];
        } else {
          assert sections + emitted == sections;
        }
        current := Open(opening.value);
      } else {
        RunOther(style, current, lines[i..]);
        if !IsBlank(line) {
          current := current.(content := current.content + line + "\n");
        }
      }
    }
    assert lines[|lines|..] == [];
    if current.title != [] {
      assert Flush(current) == [current];
      sections := sections + [current];
    } else {
      assert sections + Flush(current) == sections;
    }
  }

  // ---------------------------------------------------------------------------
  // From sections to fields
  // ---------------------------------------------------------------------------

  /** A value cut to the field limit: 1021 characters and "...". */
  function Clip(s: string): (r: string)
    ensures |r| <= FieldLimit
    ensures |s| <= FieldLimit ==> r == s
    ensures |s| > FieldLimit ==> |r| == FieldLimit && r[..1021] == s[..1021] && r[1021..] == "..."
  {
    if |s| > FieldLimit then s[..1021] + "..." else s
  }

  /** `sections.filter(s => s.content.trim()).map(...)`: the fields of the sections with non-blank content, in order. */
  function Fields(sections: seq<Section>): (r: seq<Field>)
    ensures |r| <= |sections|
    ensures forall i :: 0 <= i < |r| ==> 0 < |r[i].value| <= FieldLimit
  {
    if |sections| == 0 then []
    else
      var s := sections[|sections| - 1];
      var rest := Fields(sections[..|sections| - 1]);
      if IsBlank(s.content) then rest else rest + [Field(s.title, Clip(Trim(s.content)))]
  }

  /** The whole parser: answer text in, embed fields out. */
  method ParseToFields(style: HeaderStyle, text: string) returns (fields: seq<Field>)
    ensures fields == Fields(SectionsOf(style, text))
  {
    var sections := ParseSections(style, text);
    fields := Fields(sections);
  }

  // ---------------------------------------------------------------------------
  // What the parser promises
  // ---------------------------------------------------------------------------

  /** The titles of the sections, in order. */
  function Titles(sections: seq<Section>): seq<string> {
    if |sections| == 0 then [] else [sections[0].title] + Titles(sections[1..])
  }

  /** The non-empty header titles of the lines, in order: one per header, duplicates kept. */
  function HeaderTitles(style: HeaderStyle, lines: seq<string>): seq<string> {
    if |lines| == 0 then []
    else
      var t := HeaderTitle(style, lines[0]);
      (if t != [] then [t] else []) + HeaderTitles(style, lines[1..])
  }

  lemma {:induction false} TitlesAppend(a: seq<Section>, b: seq<Section>)
    ensures Titles(a + b) == Titles(a) + Titles(b)
    decreases |a|
  {
    if |a| == 0 {
      assert a + b == b;
    } else {
      assert (a + b)[1..] == a[1..] + b;
      TitlesAppend(a[1..], b);
    }
  }

  /**
   * Sections are emitted exactly for the titled headers, in header order: neither content nor
   * blank lines add or remove one, and two headers with the same title give two sections.
   */
  lemma {:induction false} RunTitles(style: HeaderStyle, cur: Section, lines: seq<string>)
    ensures Titles(Run(style, cur, lines)) == Titles(Flush(cur)) + HeaderTitles(style, lines)
    decreases |lines|
  {
    if |lines| == 0 {
      assert Titles(Flush(cur)) + [] == Titles(Flush(cur));
    } else {
      var rest := HeaderTitles(style, lines[1..]);
      var t := HeaderTitle(style, lines[0]);
      assert HeaderTitles(style, lines) == (if t != [] then [t] else []) + rest;
      match OpeningOf(style, lines[0])
      case Some(o) =>
        var next := Run(style, Open(o), lines[1..]);
        RunHeader(style, [], cur, lines);
        assert [] + Run(style, cur, lines) == Run(style, cur, lines);
        assert [] + Flush(cur) == Flush(cur);
        RunTitles(style, Open(o), lines[1..]);
        TitlesAppend(Flush(cur), next);
        FlushTitles(Open(o));
        ConcatAssoc(Titles(Flush(cur)), Titles(Flush(Open(o))), rest);
      case None =>
        RunOther(style, cur, lines);
        RunTitles(style, Append(cur, lines[0]), lines[1..]);
        FlushTitles(cur);
        FlushTitles(Append(cur, lines[0]));
        assert [] + rest == rest;
    }
  }

  lemma FlushTitles(cur: Section)
    ensures Titles(Flush(cur)) == if cur.title != [] then [cur.title] else []
  {
  }

  /** Once a header has been seen, what went before an untitled section no longer matters. */
  lemma {:induction false} UntitledContentIgnored(style: HeaderStyle, c: string, lines: seq<string>)
    ensures Run(style, Section("", c), lines) == Run(style, Untitled, lines)
    decreases |lines|
  {
    if |lines| > 0 && OpeningOf(style, lines[0]).None? {
      UntitledContentIgnored(style, Append(Section("", c), lines[0]).content, lines[1..]);
      UntitledContentIgnored(style, Append(Untitled, lines[0]).content, lines[1..]);
    }
  }

  /** Text before the first header is discarded. */
  lemma {:induction false} PreambleDropped(style: HeaderStyle, pre: seq<string>, rest: seq<string>)
    requires forall i :: 0 <= i < |pre| ==> OpeningOf(style, pre[i]).None?
    ensures Run(style, Untitled, pre + rest) == Run(style, Untitled, rest)
    decreases |pre|
  {
    if |pre| > 0 {
      assert (pre + rest)[0] == pre[0];
      assert (pre + rest)[1..] == pre[1..] + rest;
      PreambleDropped(style, pre[1..], rest);
      UntitledContentIgnored(style, Append(Untitled, pre[0]).content, pre[1..] + rest);
    } else {
      assert pre + rest == rest;
    }
  }

  /** The content a header-free run of lines adds: each non-blank line, verbatim, with a newline. */
  function BodyText(lines: seq<string>): string {
    if |lines| == 0 then ""
    else (if IsBlank(lines[0]) then "" else lines[0] + "\n") + BodyText(lines[1..])
  }

  /** A section collects exactly the non-blank lines up to the next header. */
  lemma {:induction false} BodyCollected(style: HeaderStyle, cur: Section, body: seq<string>)
    requires forall i :: 0 <= i < |body| ==> OpeningOf(style, body[i]).None?
    ensures Run(style, cur, body) == Flush(cur.(content := cur.content + BodyText(body)))
    decreases |body|
  {
    if |body| == 0 {
      assert cur.content + "" == cur.content;
    } else {
      var next := Append(cur, body[0]);
      BodyCollected(style, next, body[1..]);
      var piece := if IsBlank(body[0]) then "" else body[0] + "\n";
      assert next.content == cur.content + piece;
      assert cur.content + piece + BodyText(body[1..]) == cur.content + (piece + BodyText(body[1..]));
    }
  }

  /** A single header followed by header-free lines gives one section holding those lines. */
  lemma OneSection(style: HeaderStyle, pre: seq<string>, header: string, body: seq<string>)
    requires forall i :: 0 <= i < |pre| ==> OpeningOf(style, pre[i]).None?
    requires forall i :: 0 <= i < |body| ==> OpeningOf(style, body[i]).None?
    requires OpeningOf(style, header).Some? && OpeningOf(style, header).value.title != []
    ensures Run(style, Untitled, pre + [header] + body)
         == [Open(OpeningOf(style, header).value).(content := Open(OpeningOf(style, header).value).content + BodyText(body))]
  {
    var o := OpeningOf(style, header).value;
    assert pre + [header] + body == pre + ([header] + body);
    PreambleDropped(style, pre, [header] + body);
    RunHeader(style, [], Untitled, [header] + body);
    assert ([header] + body)[1..] == body;
    BodyCollected(style, Open(o), body);
    assert Flush(Untitled) == [];
  }

  lemma {:induction false} BodyTextNotBlank(lines: seq<string>)
    ensures IsBlank(BodyText(lines)) <==> forall i :: 0 <= i < |lines| ==> IsBlank(lines[i])
    decreases |lines|
  {
    if |lines| > 0 {
      BodyTextNotBlank(lines[1..]);
      var piece := if IsBlank(lines[0]) then "" else lines[0] + "\n";
      var rest := BodyText(lines[1..]);
      assert BodyText(lines) == piece + rest;
      assert IsBlank(piece + rest) <==> IsBlank(piece) && IsBlank(rest) by {
        assert forall j :: 0 <= j < |piece| ==> (piece + rest)[j] == piece[j];
        assert forall j :: 0 <= j < |rest| ==> (piece + rest)[|piece| + j] == rest[j];
      }
      if !IsBlank(lines[0]) {
        assert !IsBlank(piece) by {
          var j :| 0 <= j < |lines[0]| && !IsSpace(lines[0][j]);
          assert piece[j] == lines[0][j];
        }
      }
      assert (forall i :: 0 <= i < |lines| ==> IsBlank(lines[i]))
         <==> IsBlank(lines[0]) && (forall i :: 0 <= i < |lines[1..]| ==> IsBlank(lines[1..][i])) by {
        if forall i :: 0 <= i < |lines[1..]| ==> IsBlank(lines[1..][i]) {
          forall i | 1 <= i < |lines| ensures IsBlank(lines[i]) {
            assert lines[i] == lines[1..][i - 1];
          }
        }
      }
    }
  }

  /** Adding a section adds a field exactly when its content is not blank. */
  lemma FieldsSnoc(sections: seq<Section>, s: Section)
    ensures IsBlank(s.content) ==> Fields(sections + [s]) == Fields(sections)
    ensures !IsBlank(s.content) ==> Fields(sections + [s]) == Fields(sections) + [Field(s.title, Clip(Trim(s.content)))]
  {
    assert (sections + [s])[..|sections|] == sections;
  }

  /** No field at all exactly when every section is blank. */
  lemma {:induction false} FieldsEmpty(sections: seq<Section>)
    ensures Fields(sections) == [] <==> forall i :: 0 <= i < |sections| ==> IsBlank(sections[i].content)
    decreases |sections|
  {
    if |sections| > 0 {
      var init, last := sections[..|sections| - 1], sections[|sections| - 1];
      FieldsEmpty(init);
      assert sections == init + [last];
      FieldsSnoc(init, last);
      if IsBlank(last.content) {
        assert (forall i :: 0 <= i < |sections| ==> IsBlank(sections[i].content))
           <==> (forall i :: 0 <= i < |init| ==> IsBlank(init[i].content)) by {
          assert forall i :: 0 <= i < |init| ==> init[i] == sections[i];
        }
      }
    }
  }

  /** When no section is blank, there is one field per section, named after it. */
  lemma {:induction false} FieldsKeepAll(sections: seq<Section>)
    requires forall i :: 0 <= i < |sections| ==> !IsBlank(sections[i].content)
    ensures |Fields(sections)| == |sections|
    ensures forall i :: 0 <= i < |sections| ==> Fields(sections)[i].name == sections[i].title
    decreases |sections|
  {
    if |sections| > 0 {
      var init, last := sections[..|sections| - 1], sections[|sections| - 1];
      assert forall i :: 0 <= i < |init| ==> init[i] == sections[i];
      FieldsKeepAll(init);
      var r, f := Fields(sections), Field(last.title, Clip(Trim(last.content)));
      assert r == Fields(init) + [f];
      forall i | 0 <= i < |sections| ensures r[i].name == sections[i].title {
        if i < |init| {
          assert r[i] == Fields(init)[i];
        } else {
          assert i == |Fields(init)| && r[i] == f;
        }
      }
    }
  }

  /** A field value is the section's trimmed content, clipped; no text of a short section is lost. */
  lemma FieldValue(sections: seq<Section>)
    requires |sections| > 0 && !IsBlank(sections[|sections| - 1].content)
    ensures var s := sections[|sections| - 1];
            var f := Fields(sections)[|Fields(sections)| - 1];
            f.name == s.title &&
            (|Trim(s.content)| <= FieldLimit ==> f.value == Trim(s.content)) &&
            (|Trim(s.content)| > FieldLimit ==> f.value[..1021] == Trim(s.content)[..1021])
  {
  }
}
