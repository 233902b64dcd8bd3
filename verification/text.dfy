/**
 * The JavaScript string operations the services rely on (`includes`,
 * `lastIndexOf`, `startsWith`, `slice`, `trim`, `split`, `toLowerCase`,
 * number formatting), each given a specification independent of its
 * implementation.
 */
module Text {

  /** `pat` occurs in `s` starting at offset `i`. */
  predicate OccursAt(s: string, pat: string, i: int) {
    0 <= i && i + |pat| <= |s| && s[i..i + |pat|] == pat
  }

  /** The largest offset `j <= i` at which `pat` occurs, or -1. */
  function LastIndexAtOrBelow(s: string, pat: string, i: int): (r: int)
    requires i <= |s| - |pat|
    decreases i + 1
    ensures -1 <= r && (i >= -1 ==> r <= i)
    ensures r >= 0 ==> OccursAt(s, pat, r)
    ensures forall j :: r < j <= i ==> !OccursAt(s, pat, j)
  {
    if i < 0 then -1
    else if s[i..i + |pat|] == pat then i
    else LastIndexAtOrBelow(s, pat, i - 1)
  }

  /** `s.lastIndexOf(pat)`: the last offset of `pat` in `s`, or -1. */
  function LastIndexOf(s: string, pat: string): (r: int)
    ensures -1 <= r <= |s|
    ensures r >= 0 ==> OccursAt(s, pat, r)
    ensures forall j :: r < j ==> !OccursAt(s, pat, j)
  {
    LastIndexAtOrBelow(s, pat, |s| - |pat|)
  }

  /** `s.includes(pat)`. */
  predicate Contains(s: string, pat: string)
    ensures Contains(s, pat) <==> exists i :: OccursAt(s, pat, i)
  {
    LastIndexOf(s, pat) >= 0
  }

  /** Some keyword of `keywords` occurs somewhere in `text` (`keywords.some(k => text.includes(k))`). */
  predicate MatchesAny(text: string, keywords: seq<string>)
    decreases |keywords|
  {
    if |keywords| == 0 then false
    else if |keywords| == 1 then Contains(text, keywords[0])
    else MatchesAny(text, keywords[..1]) || MatchesAny(text, keywords[1..])
  }

  /** The keyword search finds exactly the keywords the text contains. */
  lemma {:induction false} MatchesAnyMeans(text: string, keywords: seq<string>)
    decreases |keywords|
    ensures MatchesAny(text, keywords) <==> exists i :: 0 <= i < |keywords| && Contains(text, keywords[i])
  {
    if |keywords| > 1 {
      MatchesAnyMeans(text, keywords[..1]);
      MatchesAnyMeans(text, keywords[1..]);
      assert keywords[..1][0] == keywords[0];
      assert forall i :: 0 < i < |keywords| ==> keywords[i] == keywords[1..][i - 1];
    }
  }

  /** Searching two keyword lists one after the other searches their concatenation. */
  lemma MatchesAnyAppend(text: string, a: seq<string>, b: seq<string>)
    ensures MatchesAny(text, a + b) <==> MatchesAny(text, a) || MatchesAny(text, b)
  {
    MatchesAnyMeans(text, a + b);
    MatchesAnyMeans(text, a);
    MatchesAnyMeans(text, b);
    if MatchesAny(text, a + b) {
      var i :| 0 <= i < |a + b| && Contains(text, (a + b)[i]);
      if i >= |a| {
        assert (a + b)[i] == b[i - |a|];
      } else {
        assert (a + b)[i] == a[i];
      }
    }
    if MatchesAny(text, a) {
      var i :| 0 <= i < |a| && Contains(text, a[i]);
      assert (a + b)[i] == a[i];
    }
    if MatchesAny(text, b) {
      var i :| 0 <= i < |b| && Contains(text, b[i]);
      assert (a + b)[|a| + i] == b[i];
    }
  }

  /** `big` holds `small` whenever it is assembled around it. */
  lemma ContainsInfix(a: string, small: string, b: string)
    ensures Contains(a + small + b, small)
  {
    var s := a + small + b;
    assert s[|a|..|a| + |small|] == small;
    assert OccursAt(s, small, |a|);
  }

  /** A string holds whatever it starts with. */
  lemma ContainsFront(x: string, y: string)
    ensures Contains(x + y, x)
  {
    assert (x + y)[..|x|] == x;
    assert OccursAt(x + y, x, 0);
  }

  /** A string is at least as long as anything it contains. */
  lemma ContainsFits(s: string, pat: string)
    requires Contains(s, pat)
    ensures |pat| <= |s|
  {
    var i :| OccursAt(s, pat, i);
  }

  /** Containment is transitive. */
  lemma ContainsTrans(a: string, b: string, c: string)
    requires Contains(a, b) && Contains(b, c)
    ensures Contains(a, c)
  {
    var i :| OccursAt(a, b, i);
    var j :| OccursAt(b, c, j);
    forall k | 0 <= k < |c|
      ensures a[i + j + k] == c[k]
    {
      assert a[i..i + |b|][j + k] == b[j + k];
      assert b[j..j + |c|][k] == c[k];
    }
    assert a[i + j..i + j + |c|] == c;
    assert OccursAt(a, c, i + j);
  }

  /** `s.startsWith(p)`. */
  predicate StartsWith(s: string, p: string) {
    |p| <= |s| && s[..|p|] == p
  }

  /** What starts a string starts it with anything appended. */
  lemma StartsWithAppend(s: string, p: string, x: string)
    requires StartsWith(s, p)
    ensures StartsWith(s + x, p)
  {
    assert (s + x)[..|p|] == s[..|p|];
  }

  /** A prefix of a prefix is a prefix. */
  lemma StartsWithTrans(s: string, p: string, q: string)
    requires StartsWith(s, p) && StartsWith(p, q)
    ensures StartsWith(s, q)
  {
    assert s[..|q|] == s[..|p|][..|q|];
  }

  /** `s` ends with `p`. */
  predicate EndsWith(s: string, p: string) {
    |p| <= |s| && s[|s| - |p|..] == p
  }

  /** The index JavaScript's `slice` uses for a (possibly negative) bound. */
  function SliceBound(len: nat, k: int): (r: nat)
    ensures r <= len
    ensures 0 <= k <= len ==> r == k
  {
    if k < 0 then (if len + k < 0 then 0 else len + k)
    else if k > len then len
    else k
  }

  /** `s.slice(a, b)`: negative bounds count from the end, and bounds are clamped. */
  function JsSlice(s: string, a: int, b: int): (r: string)
    ensures 0 <= a <= b <= |s| ==> r == s[a..b]
    ensures |r| <= |s|
  {
    var lo := SliceBound(|s|, a);
    var hi := SliceBound(|s|, b);
    if lo >= hi then [] else s[lo..hi]
  }

  /** ECMAScript WhiteSpace and LineTerminator: what `trim` removes. */
  predicate IsJsSpace(c: char) {
    c == ' ' || c == '\t' || c == '\n' || c == '\r' || c == '\U{000B}' || c == '\U{000C}'
    || c == '\U{00A0}' || c == '\U{FEFF}' || c == '\U{1680}'
    || ('\U{2000}' <= c <= '\U{200A}')
    || c == '\U{2028}' || c == '\U{2029}' || c == '\U{202F}' || c == '\U{205F}' || c == '\U{3000}'
  }

  /** ECMAScript LineTerminator: where `^` and `$` match in a multiline regex. */
  predicate IsLineTerminator(c: char) {
    c == '\n' || c == '\r' || c == '\U{2028}' || c == '\U{2029}'
  }

  /** The number of leading white-space characters of `s`. */
  function LeadingSpace(s: string): (n: nat)
    ensures n <= |s|
    ensures forall k :: 0 <= k < n ==> IsJsSpace(s[k])
    ensures n < |s| ==> !IsJsSpace(s[n])
  {
    if |s| == 0 || !IsJsSpace(s[0]) then 0 else 1 + LeadingSpace(s[1..])
  }

  /** The number of trailing white-space characters of `s`. */
  function TrailingSpace(s: string): (n: nat)
    ensures n <= |s|
    ensures forall k :: |s| - n <= k < |s| ==> IsJsSpace(s[k])
    ensures n < |s| ==> !IsJsSpace(s[|s| - n - 1])
  {
    if |s| == 0 || !IsJsSpace(s[|s| - 1]) then 0 else 1 + TrailingSpace(s[..|s| - 1])
  }

  /**
   * `s.trim()`: the unique infix of `s` that neither starts nor ends with white
   * space and outside of which `s` holds nothing but white space.
   */
  function Trim(s: string): (r: string)
    ensures |r| <= |s|
    ensures r == [] || (!IsJsSpace(r[0]) && !IsJsSpace(r[|r| - 1]))
    ensures exists a :: TrimmedAt(s, r, a)
  {
    var a := LeadingSpace(s);
    var rest := s[a..];
    var t := TrailingSpace(rest);
    var r := rest[..|rest| - t];
    assert s[a..a + |r|] == r;
    assert forall k :: a + |r| <= k < |s| ==> s[k] == rest[k - a];
    assert TrimmedAt(s, r, a);
    r
  }

  /** `r` is the infix of `s` at offset `a`, with only white space around it. */
  predicate TrimmedAt(s: string, r: string, a: int) {
    && 0 <= a && a + |r| <= |s| && s[a..a + |r|] == r
    && (forall k :: 0 <= k < a ==> IsJsSpace(s[k]))
    && (forall k :: a + |r| <= k < |s| ==> IsJsSpace(s[k]))
  }

  /** Trimming leaves nothing to trim. */
  lemma TrimIdempotent(s: string)
    ensures Trim(Trim(s)) == Trim(s)
  {
    var r := Trim(s);
    assert LeadingSpace(r) == 0;
    assert TrailingSpace(r[LeadingSpace(r)..]) == 0;
    assert r[0..] == r;
  }

  /** `c.toLowerCase()` for ASCII, Latin-1 and the letters of Vietnamese. */
  function LowerChar(c: char): char {
    if 'A' <= c <= 'Z' then (c as int + 32) as char
    else if '\U{00C0}' <= c <= '\U{00DE}' && c != '\U{00D7}' then (c as int + 32) as char
    else if c == '\U{0102}' || c == '\U{0110}' || c == '\U{01A0}' || c == '\U{01AF}' then (c as int + 1) as char
    else if '\U{1EA0}' <= c <= '\U{1EF8}' && (c as int) % 2 == 0 then (c as int + 1) as char
    else c
  }

  /** `s.toLowerCase()`, character by character. */
  function Lower(s: string): (r: string)
    ensures |r| == |s|
    ensures forall i :: 0 <= i < |s| ==> r[i] == LowerChar(s[i])
  {
    seq(|s|, i requires 0 <= i < |s| => LowerChar(s[i]))
  }

  /** Lower-casing a text keeps every already lower-case pattern it contains. */
  lemma LowerKeepsLowerPattern(s: string, pat: string)
    requires Contains(s, pat)
    requires Lower(pat) == pat
    ensures Contains(Lower(s), pat)
  {
    var i :| OccursAt(s, pat, i);
    var ls := Lower(s);
    forall k | 0 <= k < |pat|
      ensures ls[i + k] == pat[k]
    {
      assert s[i + k] == s[i..i + |pat|][k];
      assert Lower(pat)[k] == LowerChar(pat[k]);
    }
    assert ls[i..i + |pat|] == pat;
    assert OccursAt(ls, pat, i);
  }

  /** The first offset of `c` in `s`, or -1. */
  function IndexOfChar(s: string, c: char): (r: int)
    ensures -1 <= r < |s|
    ensures r >= 0 ==> s[r] == c && c !in s[..r]
    ensures r < 0 ==> c !in s
  {
    if |s| == 0 then -1
    else if s[0] == c then 0
    else
      var k := IndexOfChar(s[1..], c);
      if k < 0 then -1 else k + 1
  }

  /** `s.lastIndexOf(c)` for one character: its last offset in `s`, or -1. */
  function LastIndexOfChar(s: string, c: char): (r: int)
    ensures -1 <= r < |s|
    ensures r >= 0 ==> s[r] == c && c !in s[r + 1..]
    ensures r < 0 ==> c !in s
  {
    if |s| == 0 then -1
    else if s[|s| - 1] == c then |s| - 1
    else
      var k := LastIndexOfChar(s[..|s| - 1], c);
      assert k >= 0 ==> s[k + 1..] == s[..|s| - 1][k + 1..] + [s[|s| - 1]];
      assert s == s[..|s| - 1] + [s[|s| - 1]];
      k
  }

  /** `parts.join(sep)`. */
  function Join(parts: seq<string>, sep: string): string {
    if |parts| == 0 then []
    else if |parts| == 1 then parts[0]
    else parts[0] + sep + Join(parts[1..], sep)
  }

  /** `s.split(c)` for a one-character separator: the pieces between separators. */
  function Split(s: string, c: char): (parts: seq<string>)
    decreases |s|
    ensures |parts| >= 1
  {
    var k := IndexOfChar(s, c);
    if k < 0 then [s]
    else [s[..k]] + Split(s[k + 1..], c)
  }

  /** The pieces hold no separator, and joining them with it gives the string back. */
  lemma SplitPieces(s: string, c: char)
    ensures forall i :: 0 <= i < |Split(s, c)| ==> c !in Split(s, c)[i]
    ensures Join(Split(s, c), [c]) == s
  {
    SplitNoSeparator(s, c);
    SplitJoinsBack(s, c);
  }

  lemma {:induction false} SplitNoSeparator(s: string, c: char)
    decreases |s|
    ensures forall i :: 0 <= i < |Split(s, c)| ==> c !in Split(s, c)[i]
  {
    var k := IndexOfChar(s, c);
    if k >= 0 {
      var rest := Split(s[k + 1..], c);
      SplitNoSeparator(s[k + 1..], c);
      SplitStep(s, c, k, rest);
      var parts := Split(s, c);
      forall i | 0 <= i < |parts|
        ensures c !in parts[i]
      {
        if i > 0 {
          assert parts[i] == rest[i - 1];
        }
      }
    }
  }

  lemma {:induction false} SplitJoinsBack(s: string, c: char)
    decreases |s|
    ensures Join(Split(s, c), [c]) == s
  {
    var k := IndexOfChar(s, c);
    if k >= 0 {
      var tail := s[k + 1..];
      var rest := Split(tail, c);
      SplitJoinsBack(tail, c);
      SplitStep(s, c, k, rest);
      JoinCons(s[..k], rest, [c]);
      CutAt(s, k);
    }
  }

  /** Where the first separator sits, the split is the piece before it followed by the split of the rest. */
  lemma SplitStep(s: string, c: char, k: int, rest: seq<string>)
    requires k == IndexOfChar(s, c) && k >= 0 && rest == Split(s[k + 1..], c)
    ensures Split(s, c) == [s[..k]] + rest
  {
  }

  /** Joining a list with a first element puts the separator after it. */
  lemma JoinCons(x: string, rest: seq<string>, sep: string)
    requires |rest| >= 1
    ensures Join([x] + rest, sep) == x + sep + Join(rest, sep)
  {
    assert ([x] + rest)[1..] == rest;
  }

  /** A string is what comes before an offset, the character there, and what follows. */
  lemma CutAt(s: string, k: nat)
    requires k < |s|
    ensures s == s[..k] + [s[k]] + s[k + 1..]
  {
  }

  /** A joined string holds each of its parts. */
  lemma {:induction false} JoinContainsPart(parts: seq<string>, sep: string, i: nat)
    requires i < |parts|
    ensures Contains(Join(parts, sep), parts[i])
  {
    if i == 0 {
      JoinStartsWithFirst(parts, sep);
      var s := Join(parts, sep);
      assert OccursAt(s, parts[0], 0);
    } else {
      JoinContainsPart(parts[1..], sep, i - 1);
      var rest := Join(parts[1..], sep);
      assert parts[1..][i - 1] == parts[i];
      ContainsBack(parts[0] + sep, rest);
      ContainsTrans(Join(parts, sep), rest, parts[i]);
    }
  }

  /** A string holds its own tail. */
  lemma ContainsBack(x: string, y: string)
    ensures Contains(x + y, y)
  {
    assert (x + y)[|x|..|x| + |y|] == y;
    assert OccursAt(x + y, y, |x|);
  }

  /** A joined string starts with its first part. */
  lemma JoinStartsWithFirst(parts: seq<string>, sep: string)
    requires |parts| > 0
    ensures StartsWith(Join(parts, sep), parts[0])
  {
    if |parts| > 1 {
      var s := Join(parts, sep);
      assert s == parts[0] + (sep + Join(parts[1..], sep));
      assert s[..|parts[0]|] == parts[0];
    }
  }

  /** Splitting undoes joining whenever no piece holds the separator. */
  lemma {:induction false} SplitJoin(parts: seq<string>, c: char)
    requires |parts| >= 1
    requires forall i :: 0 <= i < |parts| ==> c !in parts[i]
    ensures Split(Join(parts, [c]), c) == parts
  {
    if |parts| > 1 {
      var p := parts[0];
      var tail := Join(parts[1..], [c]);
      var s := p + [c] + tail;
      assert Join(parts, [c]) == s;
      IndexOfCharAfterPrefix(p, c, tail);
      assert s[..|p|] == p;
      assert s[|p| + 1..] == tail;
      SplitJoin(parts[1..], c);
      assert Split(s, c) == [p] + Split(tail, c);
    }
  }

  /** The separator right after a separator-free prefix is found first. */
  lemma {:induction false} IndexOfCharAfterPrefix(p: string, c: char, tail: string)
    requires c !in p
    ensures IndexOfChar(p + [c] + tail, c) == |p|
  {
    if |p| > 0 {
      assert (p + [c] + tail)[1..] == p[1..] + [c] + tail;
      IndexOfCharAfterPrefix(p[1..], c, tail);
    }
  }

  /** The decimal digit character for `d`. */
  function DigitChar(d: nat): char
    requires d < 10
  {
    "0123456789"[d]
  }

  /** The value of a decimal digit character. */
  function DigitValue(c: char): nat
    requires IsDigit(c)
  {
    c as int - '0' as int
  }

  predicate IsDigit(c: char) {
    '0' <= c <= '9'
  }

  /** The value of a string of decimal digits. */
  function ParseDigits(s: string): nat
    requires forall i :: 0 <= i < |s| ==> IsDigit(s[i])
  {
    if |s| == 0 then 0 else 10 * ParseDigits(s[..|s| - 1]) + DigitValue(s[|s| - 1])
  }

  /** `String(n)` for a natural number: its shortest decimal form. */
  function NatToString(n: nat): (r: string)
    ensures |r| >= 1
    ensures forall i :: 0 <= i < |r| ==> IsDigit(r[i])
    ensures r[0] == '0' ==> n == 0
    ensures ParseDigits(r) == n
  {
    if n < 10 then [DigitChar(n)]
    else
      var r := NatToString(n / 10) + [DigitChar(n % 10)];
      assert r[..|r| - 1] == NatToString(n / 10);
      r
  }

  /** Decimal forms of distinct numbers differ. */
  lemma NatToStringInjective(m: nat, n: nat)
    requires NatToString(m) == NatToString(n)
    ensures m == n
  {
  }

  /** `Math.round(x)`: the nearest integer, a tie going up. */
  function JsRound(x: real): (r: int)
    ensures x - 0.5 < r as real <= x + 0.5
  {
    (x + 0.5).Floor
  }

  /** `s` is a decimal numeral whose value is the integer nearest to `a`, a tie going up. */
  predicate RoundedDigits(s: string, a: real) {
    && |s| >= 1
    && (forall i :: 0 <= i < |s| ==> IsDigit(s[i]))
    && ParseDigits(s) as real - 0.5 <= a < ParseDigits(s) as real + 0.5
  }

  /**
   * `x.toFixed(0)` for `|x| < 10^21`: the magnitude rounded to the nearest
   * integer with ties away from zero, preceded by a minus sign whenever `x`
   * is negative (so that -0.2 gives "-0").
   */
  function ToFixed0(x: real): (r: string)
    ensures x >= 0.0 ==> RoundedDigits(r, x)
    ensures x < 0.0 ==> |r| >= 2 && r[0] == '-' && RoundedDigits(r[1..], -x)
  {
    var a := if x < 0.0 then -x else x;
    var n: nat := JsRound(a);
    var digits := NatToString(n);
    if x < 0.0 then
      assert ("-" + digits)[1..] == digits;
      "-" + digits
    else digits
  }
}
