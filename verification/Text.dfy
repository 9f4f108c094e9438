/**
 * The JavaScript string primitives the bot relies on: `trim`, `split`, `startsWith`,
 * `includes`, `lastIndexOf`, `toLowerCase` (ASCII letters only), `join`, and the decimal /
 * hexadecimal rendering of non-negative integers.
 */
module Text {
  import opened Wrappers

  /** JavaScript's WhiteSpace and LineTerminator code points: what `trim` strips and `\s` matches. */
  predicate IsSpace(c: char) {
    || c == '\t' || c == '\n' || c == '\U{000B}' || c == '\U{000C}' || c == '\r' || c == ' '
    || c == '\U{00A0}' || c == '\U{1680}' || ('\U{2000}' <= c <= '\U{200A}')
    || c == '\U{2028}' || c == '\U{2029}' || c == '\U{202F}' || c == '\U{205F}'
    || c == '\U{3000}' || c == '\U{FEFF}'
  }

  /** Every character is whitespace: the string is falsy after `trim()`. */
  predicate IsBlank(s: string) {
    forall i :: 0 <= i < |s| ==> IsSpace(s[i])
  }

  function TrimStart(s: string): (r: string)
    ensures |r| <= |s| && r == s[|s| - |r|..]
    ensures r == [] || !IsSpace(r[0])
    ensures IsBlank(s[..|s| - |r|])
  {
    if |s| > 0 && IsSpace(s[0]) then
      var r := TrimStart(s[1..]);
      var k := |s| - |r|;
      assert IsBlank(s[..k]) by {
        forall i | 0 <= i < k
          ensures IsSpace(s[..k][i])
        {
          if i > 0 {
            assert s[..k][i] == s[1..][..k - 1][i - 1];
          }
        }
      }
      r
    else s
  }

  function TrimEnd(s: string): (r: string)
    ensures |r| <= |s| && r == s[..|r|]
    ensures r == [] || !IsSpace(r[|r| - 1])
    ensures IsBlank(s[|r|..])
  {
    if |s| > 0 && IsSpace(s[|s| - 1]) then
      var r := TrimEnd(s[..|s| - 1]);
      assert s[|r|..] == s[..|s| - 1][|r|..] + [s[|s| - 1]];
      r
    else s
  }

  /** `String.prototype.trim`. */
  function Trim(s: string): (r: string)
    ensures |r| <= |s|
    ensures r == [] || (!IsSpace(r[0]) && !IsSpace(r[|r| - 1]))
    ensures r == [] <==> IsBlank(s)
  {
    var t := TrimStart(s);
    var r := TrimEnd(t);
    assert r == [] ==> IsBlank(s) by {
      if r == [] {
        assert t[|r|..] == t;
        assert IsBlank(t);
        assert t == [];
        assert s[..|s| - |t|] == s;
      }
    }
    r
  }

  /** The characters the regular-expression `.` does not match. */
  predicate IsLineTerminator(c: char) {
    c == '\n' || c == '\r' || c == '\U{2028}' || c == '\U{2029}'
  }

  /** `s.startsWith(p)`. */
  predicate StartsWith(s: string, p: string) {
    |p| <= |s| && s[..|p|] == p
  }

  /** `s.includes(sub)`. */
  predicate Contains(s: string, sub: string)
    decreases |s|
  {
    StartsWith(s, sub) || (|s| > 0 && Contains(s[1..], sub))
  }

  /** A string contains whatever occurs in it at any offset. */
  lemma {:induction false} InfixContained(pre: string, mid: string, post: string)
    ensures Contains(pre + mid + post, mid)
    decreases |pre|
  {
    if |pre| == 0 {
      assert pre + mid + post == mid + post;
      assert (mid + post)[..|mid|] == mid;
    } else {
      assert (pre + mid + post)[1..] == pre[1..] + mid + post;
      InfixContained(pre[1..], mid, post);
    }
  }

  /** Every character of a contained string occurs in the containing one. */
  lemma {:induction false} ContainedChars(s: string, sub: string, c: char)
    ensures Contains(s, sub) && c in sub ==> c in s
    decreases |s|
  {
    if StartsWith(s, sub) && c in sub {
      var k :| 0 <= k < |sub| && sub[k] == c;
      assert s[k] == s[..|sub|][k];
    }
    if |s| > 0 {
      ContainedChars(s[1..], sub, c);
      if Contains(s[1..], sub) && c in sub {
        var k :| 0 <= k < |s[1..]| && s[1..][k] == c;
        assert s[k + 1] == c;
      }
    }
  }

  /** `s.split(sep)` for a one-character separator: never empty, no part holds `sep`. */
  function Split(s: string, sep: char): (r: seq<string>)
    ensures |r| >= 1
    ensures forall i :: 0 <= i < |r| ==> sep !in r[i]
    decreases |s|
  {
    if |s| == 0 then [""]
    else
      var rest := Split(s[1..], sep);
      if s[0] == sep then [""] + rest else [[s[0]] + rest[0]] + rest[1..]
  }

  /** `parts.join(sep)`. */
  function Join(parts: seq<string>, sep: string): string {
    if |parts| == 0 then ""
    else if |parts| == 1 then parts[0]
    else parts[0] + sep + Join(parts[1..], sep)
  }

  /** `parts.join('')`. */
  function Concat(parts: seq<string>): string {
    if |parts| == 0 then "" else parts[0] + Concat(parts[1..])
  }

  lemma ConcatCons(x: string, rest: seq<string>)
    ensures Concat([x] + rest) == x + Concat(rest)
  {
    assert ([x] + rest)[1..] == rest;
  }

  lemma {:induction false} SplitNoSep(a: string, sep: char)
    requires sep !in a
    ensures Split(a, sep) == [a]
    decreases |a|
  {
    if |a| > 0 {
      SplitNoSep(a[1..], sep);
      assert [a[0]] + a[1..] == a;
    }
  }

  lemma {:induction false} SplitAtSep(a: string, sep: char, rest: string)
    requires sep !in a
    ensures Split(a + [sep] + rest, sep) == [a] + Split(rest, sep)
    decreases |a|
  {
    var s := a + [sep] + rest;
    if |a| == 0 {
      assert s[1..] == rest;
    } else {
      assert s[1..] == a[1..] + [sep] + rest;
      SplitAtSep(a[1..], sep, rest);
      assert [a[0]] + a[1..] == a;
    }
  }

  lemma JoinHead(c: char, parts: seq<string>, sep: string)
    requires |parts| >= 1
    ensures Join([[c] + parts[0]] + parts[1..], sep) == [c] + Join(parts, sep)
  {
    var q := [[c] + parts[0]] + parts[1..];
    assert q[1..] == parts[1..];
  }

  /** Joining the parts of a split with the separator gives the string back. */
  lemma {:induction false} JoinSplit(s: string, sep: char)
    ensures Join(Split(s, sep), [sep]) == s
    decreases |s|
  {
    if |s| > 0 {
      var rest := Split(s[1..], sep);
      JoinSplit(s[1..], sep);
      if s[0] == sep {
        assert ([""] + rest)[1..] == rest;
      } else {
        JoinHead(s[0], rest, [sep]);
      }
      assert s == [s[0]] + s[1..];
    }
  }

  /** Splitting a join on a separator that no part contains gives the parts back. */
  lemma {:induction false} SplitJoin(parts: seq<string>, sep: char)
    requires |parts| >= 1
    requires forall i :: 0 <= i < |parts| ==> sep !in parts[i]
    ensures Split(Join(parts, [sep]), sep) == parts
    decreases |parts|
  {
    if |parts| == 1 {
      SplitNoSep(parts[0], sep);
    } else {
      SplitJoin(parts[1..], sep);
      SplitAtSep(parts[0], sep, Join(parts[1..], [sep]));
      assert [parts[0]] + parts[1..] == parts;
    }
  }

  /** `s.lastIndexOf(c, from)`: the last index at or before `from` holding `c`, else -1. */
  function LastIndexOf(s: string, c: char, from: nat): (r: int)
    ensures -1 <= r < |s| && r <= from
    ensures r >= 0 ==> s[r] == c
    ensures forall j :: r < j < |s| && j <= from ==> s[j] != c
  {
    if |s| == 0 then -1
    else LastIndexBelow(s, c, if from < |s| then from + 1 else |s|)
  }

  function LastIndexBelow(s: string, c: char, k: nat): (r: int)
    requires k <= |s|
    ensures -1 <= r < k
    ensures r >= 0 ==> s[r] == c
    ensures forall j :: r < j < k ==> s[j] != c
  {
    if k == 0 then -1
    else if s[k - 1] == c then k - 1
    else LastIndexBelow(s, c, k - 1)
  }

  /** `toLowerCase` on the ASCII letters; every other character is left as it is. */
  function LowerChar(c: char): char {
    if 'A' <= c <= 'Z' then (c as int + 32) as char else c
  }

  function Lower(s: string): (r: string)
    ensures |r| == |s|
    ensures forall i :: 0 <= i < |s| ==> r[i] == LowerChar(s[i])
  {
    seq(|s|, i requires 0 <= i < |s| => LowerChar(s[i]))
  }

  // ---------------------------------------------------------------------------
  // Numbers as text
  // ---------------------------------------------------------------------------

  const Digits: string := "0123456789abcdef"

  predicate IsDigitOf(c: char, base: nat)
    requires 2 <= base <= 16
  {
    exists d :: 0 <= d < base && Digits[d] == c
  }

  function DigitValue(c: char): nat {
    if '0' <= c <= '9' then c as nat - '0' as nat
    else if 'a' <= c <= 'f' then c as nat - 'a' as nat + 10
    else 0
  }

  lemma DigitRoundTrip(d: nat)
    requires d < 16
    ensures DigitValue(Digits[d]) == d
  {}

  /** `n.toString(base)` for a non-negative integer: lower-case digits, no sign, no separator. */
  function NatToBase(n: nat, base: nat): (r: string)
    requires 2 <= base <= 16
    ensures |r| >= 1
    ensures forall i :: 0 <= i < |r| ==> r[i] in Digits[..base]
    ensures n > 0 ==> r[0] != '0'
  {
    if n < base then
      assert Digits[n] == Digits[..base][n];
      [Digits[n]]
    else
      var d := n % base;
      DivShrinks(n, base);
      var p := NatToBase(n / base, base);
      DigitsSnoc(p, d, base);
      p + [Digits[d]]
  }

  lemma DivShrinks(n: nat, base: nat)
    requires 2 <= base <= n
    ensures n / base < n && n % base < base
  {
  }

  lemma DigitsSnoc(p: string, d: nat, base: nat)
    requires d < base <= 16
    requires forall i :: 0 <= i < |p| ==> p[i] in Digits[..base]
    ensures forall i :: 0 <= i < |p| + 1 ==> (p + [Digits[d]])[i] in Digits[..base]
  {
    var r := p + [Digits[d]];
    forall i | 0 <= i < |r|
      ensures r[i] in Digits[..base]
    {
      if i < |p| {
        assert r[i] == p[i];
      } else {
        assert r[i] == Digits[..base][d];
      }
    }
  }

  /** Reads digits back (the inverse of NatToBase). */
  function BaseToNat(s: string, base: nat): nat
    requires 2 <= base <= 16
  {
    if |s| == 0 then 0 else BaseToNat(s[..|s| - 1], base) * base + DigitValue(s[|s| - 1])
  }

  lemma BaseToNatSnoc(s: string, c: char, base: nat)
    requires 2 <= base <= 16
    ensures BaseToNat(s + [c], base) == BaseToNat(s, base) * base + DigitValue(c)
  {
    assert (s + [c])[..|s|] == s;
  }

  lemma DivMod(n: nat, base: nat)
    requires base > 0
    ensures n == (n / base) * base + n % base
  {}

  lemma OneDigitRoundTrip(n: nat, base: nat)
    requires 2 <= base <= 16 && n < base
    ensures BaseToNat(NatToBase(n, base), base) == n
  {
    var c := Digits[n];
    assert NatToBase(n, base) == [c];
    assert BaseToNat([c], base) == DigitValue(c) by {
      assert [c][..0] == [];
    }
    DigitRoundTrip(n);
  }

  lemma LastDigitRoundTrip(n: nat, base: nat)
    requires 2 <= base <= 16 && n >= base
    requires BaseToNat(NatToBase(n / base, base), base) == n / base
    ensures BaseToNat(NatToBase(n, base), base) == n
  {
    var q, d := n / base, n % base;
    var head := NatToBase(q, base);
    assert NatToBase(n, base) == head + [Digits[d]];
    calc {
      BaseToNat(head + [Digits[d]], base);
    == { BaseToNatSnoc(head, Digits[d], base); }
      BaseToNat(head, base) * base + DigitValue(Digits[d]);
    == { DigitRoundTrip(d); }
      q * base + d;
    == { DivMod(n, base); }
      n;
    }
  }

  /** Reading back the digits `n.toString(base)` writes gives `n`. */
  lemma {:induction false} BaseRoundTrip(n: nat, base: nat)
    requires 2 <= base <= 16
    ensures BaseToNat(NatToBase(n, base), base) == n
    decreases n
  {
    if n < base {
      OneDigitRoundTrip(n, base);
    } else {
      BaseRoundTrip(n / base, base);
      LastDigitRoundTrip(n, base);
    }
  }

  /** `String(n)` for an integer: decimal digits, with a leading '-' when negative. */
  function IntToString(n: int): (r: string)
    ensures |r| >= 1
  {
    if n < 0 then "-" + NatToBase(-n, 10) else NatToBase(n, 10)
  }

  /** `String(n).padStart(2, '0')` for a non-negative integer. */
  function Pad2(n: nat): (r: string)
    ensures |r| >= 2
  {
    var d := NatToBase(n, 10);
    if |d| < 2 then "0" + d else d
  }

  lemma Pad2RoundTrip(n: nat)
    ensures BaseToNat(Pad2(n), 10) == n
  {
    BaseRoundTrip(n, 10);
    var d := NatToBase(n, 10);
    if |d| < 2 {
      assert |d| == 1;
      var p := "0" + d;
      assert p[..1] == "0";
      assert BaseToNat(p[..1], 10) == 0 by {
        assert p[..1][..0] == [];
      }
      assert d[..0] == [];
    }
  }

  lemma ConcatAssoc<T>(a: seq<T>, b: seq<T>, c: seq<T>)
    ensures (a + b) + c == a + (b + c)
  {
  }
}
