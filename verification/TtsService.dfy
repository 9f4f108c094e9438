/**
 * The text-to-speech chunker: long text is cut into pieces of about `maxLen` characters, at the
 * last full stop, else the last space, else hard at `maxLen`; every piece is trimmed.
 */
module TtsService {
  import opened Text

  /** The default chunk length. */
  const DefaultMaxLen: nat := 200

  /** Where a text longer than `maxLen` is cut: the cut keeps characters `0..splitIndex`. */
  function SplitIndex(s: string, maxLen: nat): (r: nat)
    requires maxLen < |s|
    ensures r <= maxLen
    ensures s[r] == '.' || s[r] == ' ' || r == maxLen
    ensures LastIndexOf(s, '.', maxLen) >= 0 ==> r == LastIndexOf(s, '.', maxLen)
    ensures LastIndexOf(s, '.', maxLen) < 0 && LastIndexOf(s, ' ', maxLen) >= 0 ==> r == LastIndexOf(s, ' ', maxLen)
    ensures LastIndexOf(s, '.', maxLen) < 0 && LastIndexOf(s, ' ', maxLen) < 0 ==> r == maxLen
    ensures '.' !in s[r + 1..maxLen + 1]
  {
    var dot := LastIndexOf(s, '.', maxLen);
    var space := LastIndexOf(s, ' ', maxLen);
    if dot >= 0 then dot else if space >= 0 then space else maxLen
  }

  /** The chunks `splitText` produces, one cut at a time. */
  function Chunks(text: string, maxLen: nat): (r: seq<string>)
    ensures |text| == 0 <==> r == []
    decreases |text|
  {
    if |text| == 0 then []
    else if |text| <= maxLen then [text]
    else
      var k := SplitIndex(text, maxLen);
      [Trim(text[..k + 1])] + Chunks(Trim(text[k + 1..]), maxLen)
  }

  /** The cut of one loop round of `splitText`: full stop, else space, else `maxLen`. */
  method CutPoint(remaining: string, maxLen: nat) returns (splitIndex: nat)
    requires maxLen < |remaining|
    ensures splitIndex == SplitIndex(remaining, maxLen)
  {
    var i := LastIndexOf(remaining, '.', maxLen);
    if i == -1 {
      i := LastIndexOf(remaining, ' ', maxLen);
    }
    if i == -1 {
      i := maxLen;
    }
    splitIndex := i;
  }

  /** `splitText`. */
  method SplitText(text: string, maxLen: nat) returns (chunks: seq<string>)
    ensures chunks == Chunks(text, maxLen)
  {
    chunks := [];
    var remaining := text;
    while |remaining| > 0
      invariant chunks + Chunks(remaining, maxLen) == Chunks(text, maxLen)
      decreases |remaining|
    {
      if |remaining| <= maxLen {
        ShortText(remaining, maxLen);
        chunks := chunks + [remaining];
        break;
      }
      var splitIndex := CutPoint(remaining, maxLen);
      var chunk, rest := Trim(remaining[..splitIndex + 1]), Trim(remaining[splitIndex + 1..]);
      ChunksStep(chunks, remaining, maxLen);
      CutShrinks(remaining, splitIndex);
      chunks := chunks + [chunk];
      remaining := rest;
    }
  }

  lemma CutShrinks(s: string, k: nat)
    requires k < |s|
    ensures |Trim(s[k + 1..])| < |s|
  {
  }

  lemma ChunksUnfold(s: string, maxLen: nat)
    requires maxLen < |s|
    ensures Chunks(s, maxLen) == [Trim(s[..SplitIndex(s, maxLen) + 1])] + Chunks(Trim(s[SplitIndex(s, maxLen) + 1..]), maxLen)
  {
  }

  lemma ChunksStep(done: seq<string>, s: string, maxLen: nat)
    requires maxLen < |s|
    ensures done + Chunks(s, maxLen)
         == (done + [Trim(s[..SplitIndex(s, maxLen) + 1])]) + Chunks(Trim(s[SplitIndex(s, maxLen) + 1..]), maxLen)
  {
    var k := SplitIndex(s, maxLen);
    ChunksUnfold(s, maxLen);
    ConcatAssoc(done, [Trim(s[..k + 1])], Chunks(Trim(s[k + 1..]), maxLen));
  }

  /** No chunk is longer than `maxLen + 1` characters. */
  lemma {:induction false} ChunkSizes(text: string, maxLen: nat)
    ensures forall c :: c in Chunks(text, maxLen) ==> |c| <= maxLen + 1
    decreases |text|
  {
    if |text| > maxLen {
      var k := SplitIndex(text, maxLen);
      var rest := Trim(text[k + 1..]);
      ChunkSizes(rest, maxLen);
      var r := Chunks(text, maxLen);
      assert r == [Trim(text[..k + 1])] + Chunks(rest, maxLen);
    }
  }

  /** Empty text is no chunk at all; short text is one chunk, unchanged. */
  lemma ShortText(text: string, maxLen: nat)
    ensures text == "" ==> Chunks(text, maxLen) == []
    ensures 0 < |text| <= maxLen ==> Chunks(text, maxLen) == [text]
  {
  }

  // ---------------------------------------------------------------------------
  // Nothing but whitespace is lost
  // ---------------------------------------------------------------------------

  /** `b` is `a` with some whitespace characters deleted. */
  predicate DropsOnlySpace(a: string, b: string)
    decreases |a|
  {
    if |a| == 0 then |b| == 0
    else (|b| > 0 && a[0] == b[0] && DropsOnlySpace(a[1..], b[1..])) || (IsSpace(a[0]) && DropsOnlySpace(a[1..], b))
  }

  lemma {:induction false} DropsNothing(a: string)
    ensures DropsOnlySpace(a, a)
    decreases |a|
  {
    if |a| > 0 {
      DropsNothing(a[1..]);
    }
  }

  lemma {:induction false} DropsBlankPrefix(p: string, a: string, b: string)
    requires IsBlank(p) && DropsOnlySpace(a, b)
    ensures DropsOnlySpace(p + a, b)
    decreases |p|
  {
    if |p| > 0 {
      assert (p + a)[1..] == p[1..] + a;
      DropsBlankPrefix(p[1..], a, b);
    } else {
      assert p + a == a;
    }
  }

  lemma {:induction false} DropsBlankSuffix(a: string, q: string)
    requires IsBlank(q)
    ensures DropsOnlySpace(a + q, a)
    decreases |a|
  {
    if |a| > 0 {
      assert (a + q)[1..] == a[1..] + q;
      DropsBlankSuffix(a[1..], q);
    } else {
      assert a + q == q;
      DropsBlankPrefix(q, [], []);
      assert q + [] == q;
    }
  }

  lemma {:induction false} DropsConcat(a1: string, b1: string, a2: string, b2: string)
    requires DropsOnlySpace(a1, b1) && DropsOnlySpace(a2, b2)
    ensures DropsOnlySpace(a1 + a2, b1 + b2)
    decreases |a1|
  {
    if |a1| == 0 {
      assert a1 + a2 == a2 && b1 + b2 == b2;
    } else {
      assert (a1 + a2)[1..] == a1[1..] + a2;
      if |b1| > 0 && a1[0] == b1[0] && DropsOnlySpace(a1[1..], b1[1..]) {
        DropsConcat(a1[1..], b1[1..], a2, b2);
        assert (b1 + b2)[1..] == b1[1..] + b2;
      } else {
        DropsConcat(a1[1..], b1, a2, b2);
      }
    }
  }

  /** Trimming deletes only whitespace. */
  lemma TrimDropsSpace(s: string)
    ensures DropsOnlySpace(s, Trim(s))
  {
    var p, q := TrimSplit(s);
    DropsAround(p, Trim(s), q);
  }

  /** The trimmed text sits between a blank prefix and a blank suffix of the original. */
  lemma TrimSplit(s: string) returns (p: string, q: string)
    ensures IsBlank(p) && IsBlank(q) && s == p + (Trim(s) + q)
  {
    var t := TrimStart(s);
    var r := TrimEnd(t);
    TrimIsBothEnds(s);
    p, q := s[..|s| - |t|], t[|r|..];
    SplitAt(s, |s| - |t|);
    SplitAt(t, |r|);
  }

  lemma TrimIsBothEnds(s: string)
    ensures Trim(s) == TrimEnd(TrimStart(s))
  {
  }

  lemma SplitAt(s: string, k: nat)
    requires k <= |s|
    ensures s == s[..k] + s[k..]
  {
  }

  /** Whitespace on both sides of `r` is all that is dropped. */
  lemma DropsAround(p: string, r: string, q: string)
    requires IsBlank(p) && IsBlank(q)
    ensures DropsOnlySpace(p + (r + q), r)
  {
    DropsBlankSuffix(r, q);
    DropsBlankPrefix(p, r + q, r);
  }

  /** Reading the chunks one after another gives the text back, short of some whitespace. */
  lemma {:induction false} ChunksKeepText(text: string, maxLen: nat)
    ensures DropsOnlySpace(text, Concat(Chunks(text, maxLen)))
    decreases |text|
  {
    if |text| == 0 {
    } else if |text| <= maxLen {
      ConcatCons(text, []);
      assert text + Concat([]) == text;
      DropsNothing(text);
    } else {
      var k := SplitIndex(text, maxLen);
      var head, tail := text[..k + 1], text[k + 1..];
      assert head + tail == text;
      var later := Concat(Chunks(Trim(tail), maxLen));
      ChunksUnfold(text, maxLen);
      ConcatCons(Trim(head), Chunks(Trim(tail), maxLen));
      ChunksKeepText(Trim(tail), maxLen);
      TrimDropsSpace(head);
      TrimDropsSpace(tail);
      DropsTransitive(tail, Trim(tail), later);
      DropsConcat(head, Trim(head), tail, later);
    }
  }

  lemma {:induction false} DropsTransitive(a: string, b: string, c: string)
    requires DropsOnlySpace(a, b) && DropsOnlySpace(b, c)
    ensures DropsOnlySpace(a, c)
    decreases |a|
  {
    if |a| > 0 {
      if |b| > 0 && a[0] == b[0] && DropsOnlySpace(a[1..], b[1..]) {
        if |c| > 0 && b[0] == c[0] && DropsOnlySpace(b[1..], c[1..]) {
          DropsTransitive(a[1..], b[1..], c[1..]);
        } else {
          DropsTransitive(a[1..], b[1..], c);
        }
      } else {
        DropsTransitive(a[1..], b, c);
      }
    }
  }
}
