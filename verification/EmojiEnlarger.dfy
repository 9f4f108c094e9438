/**
 * The emoji enlarger's two text rules: a message that is exactly one custom emoji
 * `<:name:id>` or `<a:name:id>` becomes a Discord CDN image URL (GIF when animated, PNG
 * otherwise, at size 256), and a Unicode emoji becomes the Twemoji file name of its code
 * points: lower-case hexadecimal, joined by '-', with the variation selector U+FE0F dropped.
 */
module EmojiEnlarger {
  import opened Wrappers
  import opened Text
  import opened Seqs

  // ---------------------------------------------------------------------------
  // Custom emoji
  // ---------------------------------------------------------------------------

  datatype CustomEmoji = CustomEmoji(animated: bool, name: string, id: string)

  /** The characters of the regular-expression class `\w`. */
  predicate IsWordChar(c: char) {
    'a' <= c <= 'z' || 'A' <= c <= 'Z' || '0' <= c <= '9' || c == '_'
  }

  predicate IsWord(s: string) {
    |s| > 0 && forall i :: 0 <= i < |s| ==> IsWordChar(s[i])
  }

  predicate IsNumber(s: string) {
    |s| > 0 && forall i :: 0 <= i < |s| ==> '0' <= s[i] <= '9'
  }

  /** A name and an id the pattern `<(a?):(\w+):(\d+)>` accepts. */
  predicate WellFormed(e: CustomEmoji) {
    IsWord(e.name) && IsNumber(e.id)
  }

  /** How Discord writes the emoji in a message. */
  function Tag(e: CustomEmoji): string {
    "<" + Join([if e.animated then "a" else "", e.name, e.id], ":") + ">"
  }

  /** `content.match(/^<(a?):(\w+):(\d+)>$/)`. */
  function ParseCustomEmoji(content: string): (r: Option<CustomEmoji>)
    ensures r.Some? ==> WellFormed(r.value)
  {
    if |content| < 2 || content[0] != '<' || content[|content| - 1] != '>' then None
    else
      var parts := Split(content[1..|content| - 1], ':');
      if |parts| == 3 && (parts[0] == "" || parts[0] == "a") && IsWord(parts[1]) && IsNumber(parts[2])
      then Some(CustomEmoji(parts[0] == "a", parts[1], parts[2]))
      else None
  }

  /** The file type of the enlarged image. */
  function Extension(animated: bool): (r: string)
    ensures r == "gif" <==> animated
    ensures r == "png" <==> !animated
  {
    if animated then "gif" else "png"
  }

  const EmojiCdn: string := "https://cdn.discordapp.com/emojis/"

  function EmojiUrl(e: CustomEmoji): string {
    EmojiCdn + e.id + "." + Extension(e.animated) + "?size=256"
  }

  /** Every well-formed emoji is recognised in its own tag. */
  lemma TagParses(e: CustomEmoji)
    requires WellFormed(e)
    ensures ParseCustomEmoji(Tag(e)) == Some(e)
  {
    var first := if e.animated then "a" else "";
    var parts := [first, e.name, e.id];
    var t := Tag(e);
    assert t[1..|t| - 1] == Join(parts, ":");
    assert ':' !in e.name && ':' !in e.id;
    assert ":" == [':'];
    SplitJoin(parts, ':');
  }

  /** A message parses as a custom emoji only when it is exactly that emoji's tag. */
  lemma ParsedIsTag(content: string)
    requires ParseCustomEmoji(content).Some?
    ensures content == Tag(ParseCustomEmoji(content).value)
  {
    var e := ParseCustomEmoji(content).value;
    var inner := content[1..|content| - 1];
    var parts := Split(inner, ':');
    assert ":" == [':'];
    JoinSplit(inner, ':');
    assert parts == [if e.animated then "a" else "", e.name, e.id];
    assert content == "<" + inner + ">";
  }

  /** The tag of an animated emoji links a GIF, any other a PNG, both at size 256. */
  lemma CustomEmojiUrl(e: CustomEmoji)
    requires WellFormed(e)
    ensures ParseCustomEmoji(Tag(e)).Some?
    ensures EmojiUrl(ParseCustomEmoji(Tag(e)).value) == EmojiCdn + e.id + (if e.animated then ".gif" else ".png") + "?size=256"
  {
    TagParses(e);
  }

  // ---------------------------------------------------------------------------
  // Unicode emoji
  // ---------------------------------------------------------------------------

  const VariationSelector: char := '\U{FE0F}'

  /** `char.codePointAt(0).toString(16)`. */
  function CodePointHex(c: char): (r: string)
    ensures BaseToNat(r, 16) == c as nat
    ensures |r| >= 1 && forall i :: 0 <= i < |r| ==> r[i] in Digits[..16]
    ensures |r| == 1 || r[0] != '0'
  {
    BaseRoundTrip(c as nat, 16);
    NatToBase(c as nat, 16)
  }

  /** The hex text 'fe0f' belongs to the variation selector and to no other character. */
  lemma VariationSelectorHex(c: char)
    ensures CodePointHex(c) == "fe0f" <==> c == VariationSelector
  {
    if c == VariationSelector {
      assert NatToBase(0xFE0F, 16) == NatToBase(0xFE0, 16) + [Digits[15]];
      assert NatToBase(0xFE0, 16) == NatToBase(0xFE, 16) + [Digits[0]];
      assert NatToBase(0xFE, 16) == NatToBase(0xF, 16) + [Digits[14]];
    }
    if CodePointHex(c) == "fe0f" {
      assert BaseToNat("fe0f", 16) == 0xFE0F by {
        assert "fe0f"[..3] == "fe0";
        assert "fe0"[..2] == "fe";
        assert "fe"[..1] == "f";
        assert "f"[..0] == "";
      }
    }
  }

  /** The code points of `emoji` in order, minus the variation selectors. */
  function Kept(emoji: string): (r: string)
    ensures VariationSelector !in r
    ensures |r| <= |emoji|
    ensures r == Filter(emoji, (c: char) => c != VariationSelector)
  {
    if |emoji| == 0 then ""
    else if emoji[0] == VariationSelector then Kept(emoji[1..])
    else [emoji[0]] + Kept(emoji[1..])
  }

  /** The hex components after the filter, in order. */
  function Components(emoji: string): (r: seq<string>)
    ensures |r| == |Kept(emoji)|
    ensures forall i :: 0 <= i < |r| ==> r[i] == CodePointHex(Kept(emoji)[i]) && r[i] != "fe0f"
  {
    if |emoji| == 0 then []
    else if CodePointHex(emoji[0]) == "fe0f" then
      VariationSelectorHex(emoji[0]);
      assert Kept(emoji) == Kept(emoji[1..]);
      Components(emoji[1..])
    else
      VariationSelectorHex(emoji[0]);
      var rest := Components(emoji[1..]);
      assert Kept(emoji) == [emoji[0]] + Kept(emoji[1..]);
      [CodePointHex(emoji[0])] + rest
  }

  /** `getEmojiCodePoints`: the components joined by '-', or null when none is left. */
  function EmojiCodePoints(emoji: string): (r: Option<string>)
    ensures r.None? <==> Kept(emoji) == ""
  {
    var joined := Join(Components(emoji), "-");
    if joined == "" then None else Some(joined)
  }

  lemma HexHasNoDash(c: char)
    ensures '-' !in CodePointHex(c)
  {
  }

  /**
   * The file name reads back: split at '-', it has one component per kept code point, in order,
   * each the hexadecimal of that code point and none of them 'fe0f'.
   */
  lemma CodePointsReadBack(emoji: string)
    requires EmojiCodePoints(emoji).Some?
    ensures Split(EmojiCodePoints(emoji).value, '-') == Components(emoji)
    ensures forall i :: 0 <= i < |Components(emoji)| ==>
              BaseToNat(Components(emoji)[i], 16) == Kept(emoji)[i] as nat && Components(emoji)[i] != "fe0f"
  {
    var parts := Components(emoji);
    forall i | 0 <= i < |parts|
      ensures '-' !in parts[i]
    {
      HexHasNoDash(Kept(emoji)[i]);
    }
    assert |parts| >= 1;
    assert "-" == ['-'];
    SplitJoin(parts, '-');
  }

  lemma GrinningHex()
    ensures CodePointHex('\U{1F600}') == "1f600"
  {
    assert NatToBase(0x1F600, 16) == NatToBase(0x1F60, 16) + [Digits[0]];
    assert NatToBase(0x1F60, 16) == NatToBase(0x1F6, 16) + [Digits[0]];
    assert NatToBase(0x1F6, 16) == NatToBase(0x1F, 16) + [Digits[6]];
    assert NatToBase(0x1F, 16) == NatToBase(0x1, 16) + [Digits[15]];
  }

  /** A single emoji without a selector is its own code point; a lone selector gives null. */
  lemma CodePointsExamples()
    ensures EmojiCodePoints("\U{1F600}") == Some("1f600")
    ensures EmojiCodePoints([VariationSelector]) == None
  {
    GrinningHex();
    var e := "\U{1F600}";
    assert e[1..] == "";
    assert Components(e) == ["1f600"];
    assert Kept([VariationSelector]) == "";
  }
}
