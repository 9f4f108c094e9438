/**
 * HTML escaping as the report templates do it: a chain of global single-character replacements,
 * `&` first. Escaping is shown equal to a per-character encoding, and an entity decoder is its
 * left inverse.
 */
module Html {
  import opened Text

  /** `s.replace(/c/g, rep)` for a single character `c`. */
  function ReplaceChar(s: string, c: char, rep: string): (r: string)
    ensures c !in rep ==> c !in r
    ensures c !in s ==> r == s
    decreases |s|
  {
    if |s| == 0 then ""
    else (if s[0] == c then rep else [s[0]]) + ReplaceChar(s[1..], c, rep)
  }

  lemma {:induction false} ReplaceCharAppend(a: string, b: string, c: char, rep: string)
    ensures ReplaceChar(a + b, c, rep) == ReplaceChar(a, c, rep) + ReplaceChar(b, c, rep)
    decreases |a|
  {
    if |a| == 0 {
      assert a + b == b;
    } else {
      assert (a + b)[1..] == a[1..] + b;
      ReplaceCharAppend(a[1..], b, c, rep);
    }
  }

  /** The five replacements of the report renderer, `&` first. */
  function EscapeHtml(s: string): string {
    ReplaceChar(ReplaceChar(ReplaceChar(ReplaceChar(ReplaceChar(s, '&', "&amp;"), '<', "&lt;"), '>', "&gt;"), '"', "&quot;"), '\'', "&#39;")
  }

  /** The four replacements of the image service: apostrophes are left alone. */
  function EscapeHtmlKeepingQuotes(s: string): string {
    ReplaceChar(ReplaceChar(ReplaceChar(ReplaceChar(s, '&', "&amp;"), '<', "&lt;"), '>', "&gt;"), '"', "&quot;")
  }

  /** The entity a character becomes; `apostrophe` says whether `'` is escaped too. */
  function EncodeChar(c: char, apostrophe: bool): string {
    if c == '&' then "&amp;"
    else if c == '<' then "&lt;"
    else if c == '>' then "&gt;"
    else if c == '"' then "&quot;"
    else if c == '\'' && apostrophe then "&#39;"
    else [c]
  }

  /** Escaping one character at a time. */
  function Encode(s: string, apostrophe: bool): string
    decreases |s|
  {
    if |s| == 0 then "" else EncodeChar(s[0], apostrophe) + Encode(s[1..], apostrophe)
  }

  lemma {:induction false} EscapeHtmlDistributes(a: string, b: string)
    ensures EscapeHtml(a + b) == EscapeHtml(a) + EscapeHtml(b)
  {
    ReplaceCharAppend(a, b, '&', "&amp;");
    var a1, b1 := ReplaceChar(a, '&', "&amp;"), ReplaceChar(b, '&', "&amp;");
    ReplaceCharAppend(a1, b1, '<', "&lt;");
    var a2, b2 := ReplaceChar(a1, '<', "&lt;"), ReplaceChar(b1, '<', "&lt;");
    ReplaceCharAppend(a2, b2, '>', "&gt;");
    var a3, b3 := ReplaceChar(a2, '>', "&gt;"), ReplaceChar(b2, '>', "&gt;");
    ReplaceCharAppend(a3, b3, '"', "&quot;");
    var a4, b4 := ReplaceChar(a3, '"', "&quot;"), ReplaceChar(b3, '"', "&quot;");
    ReplaceCharAppend(a4, b4, '\'', "&#39;");
  }

  lemma {:induction false} KeepingQuotesDistributes(a: string, b: string)
    ensures EscapeHtmlKeepingQuotes(a + b) == EscapeHtmlKeepingQuotes(a) + EscapeHtmlKeepingQuotes(b)
  {
    ReplaceCharAppend(a, b, '&', "&amp;");
    var a1, b1 := ReplaceChar(a, '&', "&amp;"), ReplaceChar(b, '&', "&amp;");
    ReplaceCharAppend(a1, b1, '<', "&lt;");
    var a2, b2 := ReplaceChar(a1, '<', "&lt;"), ReplaceChar(b1, '<', "&lt;");
    ReplaceCharAppend(a2, b2, '>', "&gt;");
    var a3, b3 := ReplaceChar(a2, '>', "&gt;"), ReplaceChar(b2, '>', "&gt;");
    ReplaceCharAppend(a3, b3, '"', "&quot;");
  }

  lemma ReplaceOne(c: char, x: char, rep: string)
    ensures ReplaceChar([c], x, rep) == if c == x then rep else [c]
  {
    assert [c][1..] == [];
    assert (if c == x then rep else [c]) + "" == (if c == x then rep else [c]);
  }

  /** Text without raw markup passes the later replacements untouched. */
  lemma Untouched(e: string)
    requires '<' !in e && '>' !in e && '"' !in e && '\'' !in e
    ensures ReplaceChar(e, '<', "&lt;") == e && ReplaceChar(e, '>', "&gt;") == e
    ensures ReplaceChar(e, '"', "&quot;") == e && ReplaceChar(e, '\'', "&#39;") == e
  {
  }

  lemma EscapeOne(c: char)
    ensures EscapeHtml([c]) == EncodeChar(c, true)
    ensures EscapeHtmlKeepingQuotes([c]) == EncodeChar(c, false)
  {
    if c == '&' {
      EscapeAmp();
    } else if c == '<' {
      EscapeLt();
    } else if c == '>' {
      EscapeGt();
    } else if c == '"' {
      EscapeQuot();
    } else if c == '\'' {
      EscapeApos();
    } else {
      assert '&' !in [c];
      Untouched([c]);
    }
  }

  lemma EscapeAmp()
    ensures EscapeHtml("&") == "&amp;" && EscapeHtmlKeepingQuotes("&") == "&amp;"
  {
    ReplaceOne('&', '&', "&amp;");
    Untouched("&amp;");
  }

  lemma EscapeLt()
    ensures EscapeHtml("<") == "&lt;" && EscapeHtmlKeepingQuotes("<") == "&lt;"
  {
    ReplaceOne('<', '&', "&amp;");
    ReplaceOne('<', '<', "&lt;");
    Untouched("&lt;");
  }

  lemma EscapeGt()
    ensures EscapeHtml(">") == "&gt;" && EscapeHtmlKeepingQuotes(">") == "&gt;"
  {
    ReplaceOne('>', '&', "&amp;");
    ReplaceOne('>', '<', "&lt;");
    ReplaceOne('>', '>', "&gt;");
    Untouched("&gt;");
  }

  lemma EscapeQuot()
    ensures EscapeHtml("\"") == "&quot;" && EscapeHtmlKeepingQuotes("\"") == "&quot;"
  {
    ReplaceOne('"', '&', "&amp;");
    ReplaceOne('"', '<', "&lt;");
    ReplaceOne('"', '>', "&gt;");
    ReplaceOne('"', '"', "&quot;");
    Untouched("&quot;");
  }

  lemma EscapeApos()
    ensures EscapeHtml("'") == "&#39;" && EscapeHtmlKeepingQuotes("'") == "'"
  {
    ReplaceOne('\'', '&', "&amp;");
    ReplaceOne('\'', '<', "&lt;");
    ReplaceOne('\'', '>', "&gt;");
    ReplaceOne('\'', '"', "&quot;");
    ReplaceOne('\'', '\'', "&#39;");
  }

  /**
   * The chain of replacements is a per-character encoding: because `&` goes first, no later
   * replacement touches an entity an earlier one produced.
   */
  lemma {:induction false} EscapeHtmlIsEncode(s: string)
    ensures EscapeHtml(s) == Encode(s, true)
    decreases |s|
  {
    if |s| > 0 {
      assert s == [s[0]] + s[1..];
      EscapeHtmlDistributes([s[0]], s[1..]);
      EscapeOne(s[0]);
      EscapeHtmlIsEncode(s[1..]);
    }
  }

  lemma {:induction false} KeepingQuotesIsEncode(s: string)
    ensures EscapeHtmlKeepingQuotes(s) == Encode(s, false)
    decreases |s|
  {
    if |s| > 0 {
      assert s == [s[0]] + s[1..];
      KeepingQuotesDistributes([s[0]], s[1..]);
      EscapeOne(s[0]);
      KeepingQuotesIsEncode(s[1..]);
    }
  }

  /** `s` has one of the five entities at index `i`. */
  predicate EntityAt(s: string, i: nat)
    requires i <= |s|
  {
    StartsWith(s[i..], "&amp;") || StartsWith(s[i..], "&lt;") || StartsWith(s[i..], "&gt;")
    || StartsWith(s[i..], "&quot;") || StartsWith(s[i..], "&#39;")
  }

  /** Nothing markup-like survives: no raw `<`, `>` or `"`, and `'` only when not escaping it. */
  lemma {:induction false} EncodeIsInert(s: string, apostrophe: bool)
    ensures '<' !in Encode(s, apostrophe) && '>' !in Encode(s, apostrophe) && '"' !in Encode(s, apostrophe)
    ensures apostrophe ==> '\'' !in Encode(s, apostrophe)
    ensures !apostrophe ==> ('\'' in Encode(s, apostrophe) <==> '\'' in s)
    decreases |s|
  {
    if |s| > 0 {
      EncodeIsInert(s[1..], apostrophe);
      EncodeCharInert(s[0], apostrophe);
      var head, tail := EncodeChar(s[0], apostrophe), Encode(s[1..], apostrophe);
      assert Encode(s, apostrophe) == head + tail;
      InConcat(head, tail);
      assert s == [s[0]] + s[1..];
      InConcat([s[0]], s[1..]);
    }
  }

  /** One encoded character holds no raw markup, and a raw `'` only when it was one and is kept. */
  lemma EncodeCharInert(c: char, apostrophe: bool)
    ensures '<' !in EncodeChar(c, apostrophe) && '>' !in EncodeChar(c, apostrophe) && '"' !in EncodeChar(c, apostrophe)
    ensures '\'' in EncodeChar(c, apostrophe) <==> c == '\'' && !apostrophe
  {
  }

  lemma InConcat(a: string, b: string)
    ensures forall x :: x in a + b <==> x in a || x in b
  {
  }

  /** Every `&` of the output begins an entity. */
  lemma {:induction false} EncodeAmpersands(s: string, apostrophe: bool)
    ensures forall i :: 0 <= i < |Encode(s, apostrophe)| && Encode(s, apostrophe)[i] == '&' ==> EntityAt(Encode(s, apostrophe), i)
    decreases |s|
  {
    if |s| > 0 {
      EncodeAmpersands(s[1..], apostrophe);
      var head, tail := EncodeChar(s[0], apostrophe), Encode(s[1..], apostrophe);
      var r := head + tail;
      forall i | 0 <= i < |r| && r[i] == '&' ensures EntityAt(r, i) {
        if i < |head| {
          assert i == 0 && r[i..] == head + tail;
          assert head[..|head|] == head;
        } else {
          assert r[i..] == tail[i - |head|..];
        }
      }
    }
  }

  /** The decoder: the five entities, left to right, each back to its character. */
  function Unescape(s: string): string
    decreases |s|
  {
    if |s| == 0 then ""
    else if StartsWith(s, "&amp;") then "&" + Unescape(s[5..])
    else if StartsWith(s, "&lt;") then "<" + Unescape(s[4..])
    else if StartsWith(s, "&gt;") then ">" + Unescape(s[4..])
    else if StartsWith(s, "&quot;") then "\"" + Unescape(s[6..])
    else if StartsWith(s, "&#39;") then "'" + Unescape(s[5..])
    else [s[0]] + Unescape(s[1..])
  }

  lemma UnescapePlain(s: string)
    requires |s| > 0 && s[0] != '&'
    ensures Unescape(s) == [s[0]] + Unescape(s[1..])
  {
    assert !StartsWith(s, "&amp;") && !StartsWith(s, "&lt;") && !StartsWith(s, "&gt;");
    assert !StartsWith(s, "&quot;") && !StartsWith(s, "&#39;");
  }

  lemma UnescapeAmp(rest: string)
    ensures Unescape("&amp;" + rest) == "&" + Unescape(rest)
  {
    var s := "&amp;" + rest;
    assert s[..5] == "&amp;" && s[5..] == rest;
  }

  lemma UnescapeLt(rest: string)
    ensures Unescape("&lt;" + rest) == "<" + Unescape(rest)
  {
    var s := "&lt;" + rest;
    assert s[..4] == "&lt;" && s[4..] == rest;
    assert s[1] == 'l';
  }

  lemma UnescapeGt(rest: string)
    ensures Unescape("&gt;" + rest) == ">" + Unescape(rest)
  {
    var s := "&gt;" + rest;
    assert s[..4] == "&gt;" && s[4..] == rest;
    assert s[1] == 'g';
  }

  lemma UnescapeQuot(rest: string)
    ensures Unescape("&quot;" + rest) == "\"" + Unescape(rest)
  {
    var s := "&quot;" + rest;
    assert s[..6] == "&quot;" && s[6..] == rest;
    assert s[1] == 'q';
  }

  lemma UnescapeApos(rest: string)
    ensures Unescape("&#39;" + rest) == "'" + Unescape(rest)
  {
    var s := "&#39;" + rest;
    assert s[..5] == "&#39;" && s[5..] == rest;
    assert s[1] == '#';
  }

  lemma UnescapeStep(c: char, apostrophe: bool, rest: string)
    ensures Unescape(EncodeChar(c, apostrophe) + rest) == [c] + Unescape(rest)
  {
    if c == '&' {
      UnescapeAmp(rest);
    } else if c == '<' {
      UnescapeLt(rest);
    } else if c == '>' {
      UnescapeGt(rest);
    } else if c == '"' {
      UnescapeQuot(rest);
    } else if c == '\'' && apostrophe {
      UnescapeApos(rest);
    } else {
      assert ([c] + rest)[1..] == rest;
      UnescapePlain([c] + rest);
    }
  }

  /** Decoding undoes escaping, with or without the apostrophe rule. */
  lemma {:induction false} UnescapeEncode(s: string, apostrophe: bool)
    ensures Unescape(Encode(s, apostrophe)) == s
    decreases |s|
  {
    if |s| > 0 {
      UnescapeEncode(s[1..], apostrophe);
      UnescapeStep(s[0], apostrophe, Encode(s[1..], apostrophe));
    }
  }

  /** The report renderer's escaping round-trips and leaves no markup character raw. */
  lemma EscapeHtmlRoundTrip(s: string)
    ensures Unescape(EscapeHtml(s)) == s
    ensures '<' !in EscapeHtml(s) && '>' !in EscapeHtml(s) && '"' !in EscapeHtml(s) && '\'' !in EscapeHtml(s)
    ensures forall i :: 0 <= i < |EscapeHtml(s)| && EscapeHtml(s)[i] == '&' ==> EntityAt(EscapeHtml(s), i)
  {
    EscapeHtmlIsEncode(s);
    UnescapeEncode(s, true);
    EncodeIsInert(s, true);
    EncodeAmpersands(s, true);
  }

  /** The image service's escaping round-trips; apostrophes pass through unchanged. */
  lemma KeepingQuotesRoundTrip(s: string)
    ensures Unescape(EscapeHtmlKeepingQuotes(s)) == s
    ensures '<' !in EscapeHtmlKeepingQuotes(s) && '>' !in EscapeHtmlKeepingQuotes(s) && '"' !in EscapeHtmlKeepingQuotes(s)
    ensures '\'' in EscapeHtmlKeepingQuotes(s) <==> '\'' in s
    ensures forall i :: 0 <= i < |EscapeHtmlKeepingQuotes(s)| && EscapeHtmlKeepingQuotes(s)[i] == '&' ==> EntityAt(EscapeHtmlKeepingQuotes(s), i)
  {
    KeepingQuotesIsEncode(s);
    UnescapeEncode(s, false);
    EncodeIsInert(s, false);
    EncodeAmpersands(s, false);
  }
}
