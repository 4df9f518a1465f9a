/** The JavaScript string operations the core relies on, over `string` (a sequence
    of Unicode scalar values). */
module Strings {
  import opened Wrappers
  import Seqs

  /** JavaScript truthiness of an optional string: present and non-empty. */
  predicate IsSet(s: Option<string>) {
    s.Some? && s.value != ""
  }

  /** ECMAScript LineTerminator: the characters `.` in a regular expression does not match. */
  predicate IsLineTerminator(c: char) {
    c == '\n' || c == '\r' || c == '\U{2028}' || c == '\U{2029}'
  }

  /** ECMAScript WhiteSpace or LineTerminator: what `String.prototype.trim` strips. */
  predicate IsWhitespace(c: char) {
    || IsLineTerminator(c)
    || c == ' ' || c == '\t' || c == '\U{000B}' || c == '\U{000C}'
    || c == '\U{00A0}' || c == '\U{1680}' || ('\U{2000}' <= c <= '\U{200A}')
    || c == '\U{202F}' || c == '\U{205F}' || c == '\U{3000}' || c == '\U{FEFF}'
  }

  predicate IsDigit(c: char) {
    '0' <= c <= '9'
  }

  /** `s.startsWith(prefix)` */
  predicate StartsWith(s: string, prefix: string) {
    |prefix| <= |s| && s[..|prefix|] == prefix
  }

  /** `s.includes(part)` */
  predicate Contains(s: string, part: string)
    decreases |s|
  {
    StartsWith(s, part) || (|s| > 0 && Contains(s[1..], part))
  }

  lemma {:induction false} ContainsAt(s: string, part: string, i: nat)
    requires i <= |s| && StartsWith(s[i..], part)
    ensures Contains(s, part)
    decreases i
  {
    if i > 0 {
      assert s[1..][i - 1..] == s[i..];
      ContainsAt(s[1..], part, i - 1);
    }
  }

  /** Text found in `s` is still found once more text follows. */
  lemma {:induction false} ContainsLeft(s: string, t: string, part: string)
    requires Contains(s, part)
    ensures Contains(s + t, part)
    decreases |s|
  {
    if StartsWith(s, part) {
      assert (s + t)[..|part|] == s[..|part|];
    } else {
      assert (s + t)[1..] == s[1..] + t;
      ContainsLeft(s[1..], t, part);
    }
  }

  /** Text found in `t` is still found once more text precedes it. */
  lemma {:induction false} ContainsRight(s: string, t: string, part: string)
    requires Contains(t, part)
    ensures Contains(s + t, part)
    decreases |s|
  {
    if s == [] {
      assert s + t == t;
    } else {
      assert (s + t)[1..] == s[1..] + t;
      ContainsRight(s[1..], t, part);
    }
  }

  lemma ContainsWithin(a: string, x: string, b: string, part: string)
    requires Contains(x, part)
    ensures Contains(a + x + b, part)
  {
    ContainsRight(a, x, part);
    ContainsLeft(a + x, b, part);
  }

  /** Each part of a join occurs in the joined text. */
  lemma {:induction false} JoinContains(parts: seq<string>, sep: string, i: nat)
    requires i < |parts|
    ensures Contains(Join(parts, sep), parts[i])
    decreases |parts|
  {
    if |parts| == 1 {
      assert StartsWith(parts[0], parts[0]);
    } else if i == 0 {
      assert StartsWith(parts[0], parts[0]);
      ContainsLeft(parts[0], sep, parts[0]);
      ContainsLeft(parts[0] + sep, Join(parts[1..], sep), parts[0]);
    } else {
      JoinContains(parts[1..], sep, i - 1);
      ContainsRight(parts[0] + sep, Join(parts[1..], sep), parts[i]);
    }
  }

  lemma StartsWithLeft(s: string, t: string, prefix: string)
    requires StartsWith(s, prefix)
    ensures StartsWith(s + t, prefix)
  {
    assert (s + t)[..|prefix|] == s[..|prefix|];
  }

  /** ASCII case folding; the only folding `/…/i` applies to an ASCII pattern. */
  function LowerChar(c: char): char {
    if 'A' <= c <= 'Z' then (c as int + 32) as char else c
  }

  /** `s.toLowerCase()` on the ASCII letters. */
  function ToLower(s: string): (r: string)
    ensures |r| == |s|
    ensures forall i :: 0 <= i < |s| ==> r[i] == LowerChar(s[i])
  {
    seq(|s|, i requires 0 <= i < |s| => LowerChar(s[i]))
  }

  /** Number of whitespace characters at the start of `s`. */
  function LeadingWhitespace(s: string): (k: nat)
    ensures k <= |s|
    ensures forall j :: 0 <= j < k ==> IsWhitespace(s[j])
    ensures k == |s| || !IsWhitespace(s[k])
  {
    if |s| == 0 || !IsWhitespace(s[0]) then 0 else 1 + LeadingWhitespace(s[1..])
  }

  /** Index where the whitespace run that ends `s` begins. */
  function TrailingWhitespace(s: string): (k: nat)
    ensures k <= |s|
    ensures forall j :: k <= j < |s| ==> IsWhitespace(s[j])
    ensures k == 0 || !IsWhitespace(s[k - 1])
  {
    if |s| == 0 || !IsWhitespace(s[|s| - 1]) then |s| else TrailingWhitespace(s[..|s| - 1])
  }

  /** `s.trim()`: the slice of `s` left after removing leading and trailing white space. */
  function Trim(s: string): (r: string)
    ensures r == [] || (!IsWhitespace(r[0]) && !IsWhitespace(r[|r| - 1]))
    ensures |r| <= |s|
    ensures |s| > 0 && !IsWhitespace(s[0]) && !IsWhitespace(s[|s| - 1]) ==> r == s
  {
    var a := LeadingWhitespace(s);
    var t := s[a..];
    t[..TrailingWhitespace(t)]
  }

  /** `parts.join(sep)` */
  function Join(parts: seq<string>, sep: string): string
    decreases |parts|
  {
    if |parts| == 0 then ""
    else if |parts| == 1 then parts[0]
    else parts[0] + sep + Join(parts[1..], sep)
  }

  function DigitChar(d: nat): (c: char)
    requires d < 10
    ensures IsDigit(c)
  {
    ('0' as int + d) as char
  }

  /** The decimal numeral JavaScript prints for a non-negative integer. */
  function NatToString(n: nat): (r: string)
    ensures |r| >= 1
    ensures forall i :: 0 <= i < |r| ==> IsDigit(r[i])
    decreases n
  {
    if n < 10 then [DigitChar(n)] else NatToString(n / 10) + [DigitChar(n % 10)]
  }

  /** The decimal numeral JavaScript prints for an integer. */
  function IntToString(i: int): string {
    if i < 0 then "-" + NatToString(-i) else NatToString(i)
  }

  /** A numeral starts with `-` exactly when the integer is negative. */
  lemma IntToStringSign(i: int)
    ensures |IntToString(i)| > 0 && (IntToString(i)[0] == '-' <==> i < 0)
  {
    if i >= 0 {
      assert IsDigit(NatToString(i)[0]);
    }
  }

  /** Distinct integers print as distinct numerals. */
  lemma IntToStringInjective(a: int, b: int)
    requires IntToString(a) == IntToString(b)
    ensures a == b
  {
    IntToStringSign(a);
    IntToStringSign(b);
    if a < 0 && b < 0 {
      assert NatToString(-a) == IntToString(a)[1..];
      NatToStringInjective(-a, -b);
    } else if a >= 0 && b >= 0 {
      NatToStringInjective(a, b);
    }
  }

  /** The value of a string of decimal digits, read most significant first. */
  function DigitsValue(s: string): nat
    requires forall i :: 0 <= i < |s| ==> IsDigit(s[i])
    decreases |s|
  {
    if s == [] then 0
    else
      assert IsDigit(s[|s| - 1]);
      DigitsValue(s[..|s| - 1]) * 10 + (s[|s| - 1] as nat - '0' as nat)
  }

  /** Reading back the numeral of `n` gives `n`: distinct numbers print differently. */
  lemma {:induction false} NatToStringRoundTrip(n: nat)
    ensures DigitsValue(NatToString(n)) == n
    decreases n
  {
    if n >= 10 {
      var s := NatToString(n);
      assert s[..|s| - 1] == NatToString(n / 10);
      NatToStringRoundTrip(n / 10);
    }
  }

  lemma NatToStringInjective(m: nat, n: nat)
    requires NatToString(m) == NatToString(n)
    ensures m == n
  {
    NatToStringRoundTrip(m);
    NatToStringRoundTrip(n);
  }

  /** Length of the line that starts `s`: the index of the first line terminator, or `|s|`. */
  function LineEnd(s: string): (e: nat)
    ensures e <= |s|
    ensures forall j :: 0 <= j < e ==> !IsLineTerminator(s[j])
    ensures e == |s| || IsLineTerminator(s[e])
  {
    if |s| == 0 || IsLineTerminator(s[0]) then 0 else 1 + LineEnd(s[1..])
  }

  predicate NoLineTerminator(s: string) {
    forall j :: 0 <= j < |s| ==> !IsLineTerminator(s[j])
  }

  /** The lines of `s`, split at every line terminator. */
  function Lines(s: string): (ls: seq<string>)
    ensures |ls| >= 1
    ensures forall k :: 0 <= k < |ls| ==> NoLineTerminator(ls[k])
    decreases |s|
  {
    var e := LineEnd(s);
    if e == |s| then [s] else [s[..e]] + Lines(s[e + 1..])
  }

  /** Joining two non-empty lists is joining their joins. */
  lemma {:induction false} JoinAppend(xs: seq<string>, ys: seq<string>, sep: string)
    requires |xs| > 0 && |ys| > 0
    ensures Join(xs + ys, sep) == Join(xs, sep) + sep + Join(ys, sep)
    decreases |xs|
  {
    if |xs| == 1 {
      assert (xs + ys)[1..] == ys;
    } else {
      assert (xs + ys)[1..] == xs[1..] + ys;
      JoinAppend(xs[1..], ys, sep);
    }
  }

  /** Text made of the given lines separated by `\n`. */
  function JoinLines(ls: seq<string>): string {
    Join(ls, "\n")
  }

  lemma {:induction false} LinesOfJoin(ls: seq<string>)
    requires |ls| >= 1
    requires forall k :: 0 <= k < |ls| ==> NoLineTerminator(ls[k])
    ensures Lines(JoinLines(ls)) == ls
    decreases |ls|
  {
    var s := JoinLines(ls);
    if |ls| == 1 {
      assert LineEnd(s) == |s| by { LineEndOfPlain(s); }
    } else {
      var rest := JoinLines(ls[1..]);
      assert s == ls[0] + ("\n" + rest);
      LineEndOfPlain(ls[0]);
      LineEndAppend(ls[0], "\n" + rest);
      assert s[..|ls[0]|] == ls[0];
      assert s[|ls[0]| + 1..] == rest;
      assert LineEnd(s) == |ls[0]| < |s|;
      assert Lines(s) == [ls[0]] + Lines(rest);
      LinesOfJoin(ls[1..]);
      assert ls == [ls[0]] + ls[1..];
    }
  }

  lemma {:induction false} LineEndOfPlain(s: string)
    requires NoLineTerminator(s)
    ensures LineEnd(s) == |s|
  {
  }

  lemma {:induction false} LineEndAppend(a: string, b: string)
    requires NoLineTerminator(a)
    requires |b| > 0 && IsLineTerminator(b[0])
    ensures LineEnd(a + b) == |a|
    decreases |a|
  {
    if |a| > 0 {
      assert (a + b)[1..] == a[1..] + b;
      LineEndAppend(a[1..], b);
    } else {
      assert a + b == b;
    }
  }

  /** The first line terminator of `s` is the one at `e` (or there is none and `e == |s|`). */
  lemma LineEndUnique(s: string, e: nat)
    requires e <= |s|
    requires forall j :: 0 <= j < e ==> !IsLineTerminator(s[j])
    requires e == |s| || IsLineTerminator(s[e])
    ensures LineEnd(s) == e
  {
  }

  /** Cutting `s` at a line terminator, or at its end, leaves its first line unchanged. */
  lemma LineEndCut(s: string, k: nat)
    requires k <= |s| && (k == |s| || IsLineTerminator(s[k]))
    ensures LineEnd(s[..k]) == LineEnd(s)
  {
    LineEndUnique(s[..k], LineEnd(s));
  }

  lemma NoLineTerminatorConcat(a: string, b: string)
    requires NoLineTerminator(a) && NoLineTerminator(b)
    ensures NoLineTerminator(a + b)
  {
  }

  /** Whether `s` starts with a text free of line terminators is decided before the first
      line terminator of `s`. */
  lemma StartsWithCut(s: string, m: nat, q: string)
    requires m <= |s| && (m == |s| || IsLineTerminator(s[m]))
    requires NoLineTerminator(q)
    ensures StartsWith(s[..m], q) <==> StartsWith(s, q)
  {
    if |q| <= m {
      assert s[..m][..|q|] == s[..|q|];
    } else if |q| <= |s| {
      assert s[..|q|][m] != q[m];
    }
  }

  /** `s.split(' ')[0]`: the text before the first space. */
  function FirstWord(s: string): (w: string)
    ensures StartsWith(s, w)
    ensures forall j :: 0 <= j < |w| ==> w[j] != ' '
    ensures |w| == |s| || s[|w|] == ' '
    decreases |s|
  {
    if |s| == 0 || s[0] == ' ' then "" else [s[0]] + FirstWord(s[1..])
  }

  /** True when `s` begins with `pat` up to ASCII case. */
  predicate StartsWithIgnoringCase(s: string, pat: string) {
    |pat| <= |s| && ToLower(s[..|pat|]) == ToLower(pat)
  }

  predicate ContainsIgnoringCase(s: string, pat: string)
    decreases |s|
  {
    StartsWithIgnoringCase(s, pat) || (|s| > 0 && ContainsIgnoringCase(s[1..], pat))
  }

  /** `s.replace(/pat/gi, rep)` for a literal ASCII pattern: every match, scanning left to
      right without overlap, is replaced by `rep`. */
  function ReplaceAllIgnoringCase(s: string, pat: string, rep: string): (r: string)
    requires |pat| > 0
    ensures !ContainsIgnoringCase(s, pat) ==> r == s
    decreases |s|
  {
    if |s| < |pat| then s
    else if StartsWithIgnoringCase(s, pat) then rep + ReplaceAllIgnoringCase(s[|pat|..], pat, rep)
    else [s[0]] + ReplaceAllIgnoringCase(s[1..], pat, rep)
  }

  /** One step of the scan: a match at the start is replaced, otherwise the first character
      is kept. */
  lemma ReplaceStep(s: string, pat: string, rep: string)
    requires |pat| > 0 && |pat| <= |s|
    ensures StartsWithIgnoringCase(s, pat) ==>
      ReplaceAllIgnoringCase(s, pat, rep) == rep + ReplaceAllIgnoringCase(s[|pat|..], pat, rep)
    ensures !StartsWithIgnoringCase(s, pat) ==>
      ReplaceAllIgnoringCase(s, pat, rep) == [s[0]] + ReplaceAllIgnoringCase(s[1..], pat, rep)
  {
  }

  /** The scan copies, unchanged, every character before the first position where a match
      starts, and goes on from there. */
  lemma {:induction false} ReplaceSkipsToMatch(s: string, pat: string, rep: string, i: nat)
    requires |pat| > 0 && i <= |s|
    requires forall j :: 0 <= j < i ==> !StartsWithIgnoringCase(s[j..], pat)
    ensures ReplaceAllIgnoringCase(s, pat, rep) == s[..i] + ReplaceAllIgnoringCase(s[i..], pat, rep)
    decreases i
  {
    if i == 0 {
      assert s[..0] == [] && s[0..] == s;
    } else if |s| < |pat| {
      assert s[..i] + s[i..] == s;
    } else {
      assert s[0..] == s;
      ReplaceStep(s, pat, rep);
      Seqs.DropFirst(s, i);
      ReplaceSkipsToMatch(s[1..], pat, rep, i - 1);
      var tail := ReplaceAllIgnoringCase(s[i..], pat, rep);
      Seqs.Assoc([s[0]], s[1..][..i - 1], tail);
    }
  }

  /** The first match is replaced, and the scan resumes right after it: matches do not
      overlap. */
  lemma ReplaceFirstMatch(s: string, pat: string, rep: string, i: nat)
    requires |pat| > 0 && i <= |s|
    requires forall j :: 0 <= j < i ==> !StartsWithIgnoringCase(s[j..], pat)
    requires StartsWithIgnoringCase(s[i..], pat)
    ensures ReplaceAllIgnoringCase(s, pat, rep)
         == s[..i] + rep + ReplaceAllIgnoringCase(s[i + |pat|..], pat, rep)
  {
    var rest := ReplaceAllIgnoringCase(s[i + |pat|..], pat, rep);
    assert ReplaceAllIgnoringCase(s, pat, rep) == s[..i] + ReplaceAllIgnoringCase(s[i..], pat, rep) by {
      ReplaceSkipsToMatch(s, pat, rep, i);
    }
    assert ReplaceAllIgnoringCase(s[i..], pat, rep) == rep + rest by {
      var t := s[i..];
      assert ReplaceAllIgnoringCase(t, pat, rep) == rep + ReplaceAllIgnoringCase(t[|pat|..], pat, rep);
      assert t[|pat|..] == s[i + |pat|..];
    }
    Seqs.Assoc(s[..i], rep, rest);
  }
}
