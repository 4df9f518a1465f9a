/** The parser both story routes apply to the model's completion text: the first
    `Title: (.+)` match gives the title, and the global matches of `Page \d+: (.+)` and
    `Image \d+: (.+)` give the pages and the image prompts. The regular expressions are
    modelled as the scan JavaScript performs: try each position from the left, and after
    a match resume where it ended. `.` matches any character but a line terminator. */
module StoryParser {
  import opened Wrappers
  import opened Strings
  import Seqs

  /** A line-grammar pattern: `<word>: (.+)`, or `<word> \d+: (.+)` when numbered. */
  datatype Pattern = Pattern(word: string, numbered: bool)

  const TITLE: Pattern := Pattern("Title", false)
  const PAGE: Pattern := Pattern("Page", true)
  const IMAGE: Pattern := Pattern("Image", true)
  const DEFAULT_TITLE: string := "My Story"

  /** The patterns' words are non-empty and hold no line terminator. */
  predicate ValidPattern(p: Pattern) {
    |p.word| > 0 && NoLineTerminator(p.word)
  }

  /** A match at the start of a text: the head (`Page 3: `) ends at `head`, the captured
      group runs from there to `length`. */
  datatype Match = Match(head: nat, length: nat)

  /** Number of decimal digits at the start of `s` (`\d+` is greedy). */
  function DigitRun(s: string): (n: nat)
    ensures n <= |s|
    ensures forall j :: 0 <= j < n ==> IsDigit(s[j])
    ensures n == |s| || !IsDigit(s[n])
  {
    if |s| == 0 || !IsDigit(s[0]) then 0 else 1 + DigitRun(s[1..])
  }

  lemma DigitRunUnique(s: string, n: nat)
    requires n <= |s|
    requires forall j :: 0 <= j < n ==> IsDigit(s[j])
    requires n == |s| || !IsDigit(s[n])
    ensures DigitRun(s) == n
  {
  }

  lemma DigitRunCut(s: string, k: nat)
    requires k <= |s| && (k == |s| || !IsDigit(s[k]))
    ensures DigitRun(s[..k]) == DigitRun(s)
  {
    DigitRunUnique(s[..k], DigitRun(s));
  }

  /** Length of the pattern's head, `<word>: ` or `<word> <digits>: `, at the start of `s`. */
  function HeadLength(s: string, p: Pattern): (h: Option<nat>)
    ensures h.Some? ==> |p.word| + 2 <= h.value <= |s| && StartsWith(s, p.word)
  {
    if !p.numbered then
      if StartsWith(s, p.word + ": ") then Some(|p.word| + 2) else None
    else if !StartsWith(s, p.word + " ") then None
    else
      var k := |p.word| + 1 + DigitRun(s[|p.word| + 1..]);
      if k > |p.word| + 1 && StartsWith(s[k..], ": ") then Some(k + 2) else None
  }

  /** The match that starts exactly at the beginning of `s`: the head, then `(.+)`, one
      or more characters running to the end of the line. */
  function MatchHere(s: string, p: Pattern): (r: Option<Match>)
    ensures r.Some? ==> 0 < r.value.head < r.value.length <= |s|
    ensures r.Some? ==> r.value.length == |s| || IsLineTerminator(s[r.value.length])
  {
    match HeadLength(s, p)
    case None => None
    case Some(h) =>
      var e := LineEnd(s[h..]);
      if e > 0 then Some(Match(h, h + e)) else None
  }

  /** `s.match(/…/g) || []`: the text of every match, left to right. */
  function AllMatches(s: string, p: Pattern): seq<string>
    decreases |s|
  {
    if |s| == 0 then []
    else
      match MatchHere(s, p)
      case Some(m) => [s[..m.length]] + AllMatches(s[m.length..], p)
      case None => AllMatches(s[1..], p)
  }

  /** `s.match(/…/)?.[1]`: the group captured by the first match. */
  function FirstMatch(s: string, p: Pattern): Option<string>
    decreases |s|
  {
    if |s| == 0 then None
    else
      match MatchHere(s, p)
      case Some(m) => Some(s[m.head..m.length])
      case None => FirstMatch(s[1..], p)
  }

  /** `s.replace(/<head>/, '')`: the leftmost head is removed. */
  function ReplaceFirstHead(s: string, p: Pattern): string
    decreases |s|
  {
    match HeadLength(s, p)
    case Some(h) => s[h..]
    case None => if |s| == 0 then s else [s[0]] + ReplaceFirstHead(s[1..], p)
  }

  /** `matches.map(m => m.replace(/<head>/, '').trim())` */
  function Entries(s: string, p: Pattern): (r: seq<string>)
    ensures |r| == |AllMatches(s, p)|
  {
    var ms := AllMatches(s, p);
    seq(|ms|, i requires 0 <= i < |ms| => Trim(ReplaceFirstHead(ms[i], p)))
  }

  datatype Story = Story(title: string, pages: seq<string>, imagePrompts: seq<string>)

  /** The parse of the completion text. */
  function ParseStory(content: string): (r: Story)
    ensures |r.pages| == |AllMatches(content, PAGE)|
    ensures |r.imagePrompts| == |AllMatches(content, IMAGE)|
    ensures content == "" ==> r == Story(DEFAULT_TITLE, [], [])
  {
    var title := match FirstMatch(content, TITLE)
      case Some(c) => Trim(c)
      case None => DEFAULT_TITLE;
    Story(title, Entries(content, PAGE), Entries(content, IMAGE))
  }

  // ---------------------------------------------------------------------------
  // Matches never cross a line terminator.

  lemma HeadNoLineTerminator(p: Pattern)
    requires ValidPattern(p)
    ensures NoLineTerminator(p.word + ": ") && NoLineTerminator(p.word + " ")
  {
    NoLineTerminatorConcat(p.word, ": ");
    NoLineTerminatorConcat(p.word, " ");
  }

  /** Whether a head starts `s` is decided before the first line terminator of `s`. */
  lemma HeadLengthCut(s: string, m: nat, p: Pattern)
    requires ValidPattern(p)
    requires m <= |s| && (m == |s| || IsLineTerminator(s[m]))
    ensures HeadLength(s[..m], p) == HeadLength(s, p)
  {
    HeadNoLineTerminator(p);
    if !p.numbered {
      StartsWithCut(s, m, p.word + ": ");
    } else {
      NumberedHeadCut(s, m, p);
    }
  }

  lemma NumberedHeadCut(s: string, m: nat, p: Pattern)
    requires p.numbered && NoLineTerminator(p.word + " ")
    requires m <= |s| && (m == |s| || IsLineTerminator(s[m]))
    ensures HeadLength(s[..m], p) == HeadLength(s, p)
  {
    var t := s[..m];
    var w1 := |p.word| + 1;
    StartsWithCut(s, m, p.word + " ");
    if StartsWith(s, p.word + " ") {
      assert |t| >= w1;
      NumberedTailCut(s, m, w1);
      NumberedHeadSame(t, s, p);
    }
  }

  /** Two texts that agree on the `<word> ` part, the digit run after it and the `: `
      after that have the same numbered head. */
  lemma NumberedHeadSame(x: string, y: string, p: Pattern)
    requires p.numbered
    requires StartsWith(x, p.word + " ") && StartsWith(y, p.word + " ")
    requires DigitRun(x[|p.word| + 1..]) == DigitRun(y[|p.word| + 1..])
    requires var k := |p.word| + 1 + DigitRun(y[|p.word| + 1..]);
      k <= |x| && k <= |y| && (StartsWith(x[k..], ": ") <==> StartsWith(y[k..], ": "))
    ensures HeadLength(x, p) == HeadLength(y, p)
  {
  }

  /** After the `<word> ` part, the digit run and the `: ` that follow it are the same in
      the first line as in the whole text. */
  lemma NumberedTailCut(s: string, m: nat, w1: nat)
    requires w1 <= m <= |s| && (m == |s| || IsLineTerminator(s[m]))
    ensures var d := DigitRun(s[w1..]);
      && DigitRun(s[..m][w1..]) == d
      && w1 + d <= m
      && (StartsWith(s[..m][w1 + d..], ": ") <==> StartsWith(s[w1 + d..], ": "))
  {
    var t := s[..m];
    var d := DigitRun(s[w1..]);
    Seqs.SliceOfPrefix(s, m, w1);
    assert m - w1 == |s[w1..]| || !IsDigit(s[w1..][m - w1]);
    DigitRunCut(s[w1..], m - w1);
    var k := w1 + d;
    Seqs.SliceOfPrefix(s, m, k);
    StartsWithCut(s[k..], m - k, ": ");
  }

  /** The match at the start of `s` depends only on the first line of `s`. */
  lemma MatchCut(s: string, m: nat, p: Pattern)
    requires ValidPattern(p)
    requires m <= |s| && (m == |s| || IsLineTerminator(s[m]))
    ensures MatchHere(s[..m], p) == MatchHere(s, p)
  {
    HeadLengthCut(s, m, p);
    if HeadLength(s, p).Some? {
      var h := HeadLength(s, p).value;
      Seqs.SliceOfPrefix(s, m, h);
      LineEndCut(s[h..], m - h);
    }
  }

  /** No match starts at a character other than the first of the pattern's word. */
  lemma NoMatchAt(s: string, p: Pattern)
    requires ValidPattern(p)
    requires |s| > 0 && s[0] != p.word[0]
    ensures MatchHere(s, p).None?
  {
  }

  /** The matches of a text split at a line terminator are the matches of each side:
      lines are parsed independently of one another. */
  lemma {:induction false} MatchesSplit(a: string, c: char, b: string, p: Pattern)
    requires ValidPattern(p) && IsLineTerminator(c)
    ensures AllMatches(a + [c] + b, p) == AllMatches(a, p) + AllMatches(b, p)
    decreases |a|
  {
    var s := a + [c] + b;
    if |a| == 0 {
      assert s == [c] + b;
      NoMatchAt(s, p);
      assert s[1..] == b;
    } else {
      Seqs.SplitAround(a, c, b, |a|);
      MatchCut(s, |a|, p);
      var here := MatchHere(a, p);
      AllMatchesStep(s, p);
      AllMatchesStep(a, p);
      if here.Some? {
        var n := here.value.length;
        Seqs.SplitAround(a, c, b, n);
        MatchesSplit(a[n..], c, b, p);
        Seqs.Assoc([a[..n]], AllMatches(a[n..], p), AllMatches(b, p));
      } else {
        Seqs.SplitAround(a, c, b, 1);
        MatchesSplit(a[1..], c, b, p);
      }
    }
  }

  /** One step of the left-to-right scan. */
  lemma AllMatchesStep(s: string, p: Pattern)
    requires |s| > 0
    ensures MatchHere(s, p).Some? ==> var n := MatchHere(s, p).value.length;
      AllMatches(s, p) == [s[..n]] + AllMatches(s[n..], p)
    ensures MatchHere(s, p).None? ==> AllMatches(s, p) == AllMatches(s[1..], p)
  {
  }

  /** The matches of each line, in order. */
  function LineMatches(ls: seq<string>, p: Pattern): seq<string>
    decreases |ls|
  {
    if ls == [] then [] else AllMatches(ls[0], p) + LineMatches(ls[1..], p)
  }

  lemma {:induction false} LineMatchesAppend(xs: seq<string>, ys: seq<string>, p: Pattern)
    ensures LineMatches(xs + ys, p) == LineMatches(xs, p) + LineMatches(ys, p)
    decreases |xs|
  {
    if xs != [] {
      assert (xs + ys)[1..] == xs[1..] + ys;
      LineMatchesAppend(xs[1..], ys, p);
    } else {
      assert xs + ys == ys;
    }
  }

  /** Parsing text made of lines is parsing each line on its own: a line that does not fit
      the grammar contributes nothing and disturbs nothing else. */
  lemma {:induction false} MatchesByLine(ls: seq<string>, p: Pattern)
    requires ValidPattern(p)
    ensures AllMatches(JoinLines(ls), p) == LineMatches(ls, p)
    decreases |ls|
  {
    if |ls| == 1 {
      assert LineMatches(ls, p) == AllMatches(ls[0], p) + [];
    } else if |ls| > 1 {
      var rest := JoinLines(ls[1..]);
      assert JoinLines(ls) == ls[0] + ['\n'] + rest;
      MatchesSplit(ls[0], '\n', rest, p);
      MatchesByLine(ls[1..], p);
    }
  }

  /** The captured group of a match is what removing the head from the match text leaves. */
  lemma CaptureOfMatch(s: string, p: Pattern)
    requires ValidPattern(p) && MatchHere(s, p).Some?
    ensures var m := MatchHere(s, p).value;
      ReplaceFirstHead(s[..m.length], p) == s[m.head..m.length]
  {
    var m := MatchHere(s, p).value;
    HeadLengthCut(s, m.length, p);
  }

  /** The non-global match is the first of the global matches. */
  lemma {:induction false} FirstMatchIsFirst(s: string, p: Pattern)
    requires ValidPattern(p)
    ensures FirstMatch(s, p).None? <==> AllMatches(s, p) == []
    ensures FirstMatch(s, p).Some? ==> FirstMatch(s, p).value == ReplaceFirstHead(AllMatches(s, p)[0], p)
    decreases |s|
  {
    if |s| > 0 {
      match MatchHere(s, p)
      case Some(m) => CaptureOfMatch(s, p);
      case None => FirstMatchIsFirst(s[1..], p);
    }
  }

  // ---------------------------------------------------------------------------
  // Text laid out the way the story prompt asks is read back.

  /** The line `<word>: text`, or `<word> n: text` for a numbered pattern. */
  function EntryLine(p: Pattern, n: nat, text: string): string {
    (if p.numbered then p.word + " " + NatToString(n) else p.word) + ": " + text
  }

  /** `Page 1: …`, `Page 2: …`, …: one numbered line per text, counting from `first`. */
  function NumberedLines(p: Pattern, texts: seq<string>, first: nat): (ls: seq<string>)
    ensures |ls| == |texts|
  {
    seq(|texts|, i requires 0 <= i < |texts| => EntryLine(p, first + i, texts[i]))
  }

  /** A response in the layout the story prompt requests. */
  function FormatResponse(title: string, pages: seq<string>, images: seq<string>): (ls: seq<string>)
    ensures |ls| >= 3
  {
    [EntryLine(TITLE, 0, title), ""] + NumberedLines(PAGE, pages, 1) + [""] + NumberedLines(IMAGE, images, 1)
  }

  /** A text usable after a head: non-empty and on one line. */
  predicate IsEntryText(t: string) {
    |t| > 0 && NoLineTerminator(t)
  }

  lemma DigitRunOfNumeral(n: nat, rest: string)
    requires |rest| > 0 && !IsDigit(rest[0])
    ensures DigitRun(NatToString(n) + rest) == |NatToString(n)|
  {
    DigitRunUnique(NatToString(n) + rest, |NatToString(n)|);
  }

  /** A well-formed entry line is one match spanning the whole line, whose head removal
      leaves the text. */
  lemma EntryLineMatches(p: Pattern, n: nat, text: string)
    requires ValidPattern(p) && IsEntryText(text)
    ensures AllMatches(EntryLine(p, n, text), p) == [EntryLine(p, n, text)]
    ensures ReplaceFirstHead(EntryLine(p, n, text), p) == text
    ensures FirstMatch(EntryLine(p, n, text), p) == Some(text)
  {
    var line := EntryLine(p, n, text);
    var h := |line| - |text|;
    EntryLineHead(p, n, text);
    LineEndOfPlain(text);
    assert MatchHere(line, p) == Some(Match(h, |line|));
    assert line[..|line|] == line;
    assert line[|line|..] == [];
  }

  /** The head of an entry line is everything before its text. */
  lemma EntryLineHead(p: Pattern, n: nat, text: string)
    requires ValidPattern(p) && IsEntryText(text)
    ensures var line := EntryLine(p, n, text);
      line[|line| - |text|..] == text && HeadLength(line, p) == Some(|line| - |text|)
  {
    var line := EntryLine(p, n, text);
    var rest := ": " + text;
    if p.numbered {
      var num := NatToString(n);
      var front := p.word + " ";
      assert line == front + (num + rest) by {
        Seqs.Assoc(front, num, rest);
        Seqs.Assoc(front + num, ": ", text);
      }
      DigitRunOfNumeral(n, rest);
      NumberedEntryHead(p, front, num, rest, line);
      Seqs.AppendParts(front + num + ": ", text);
    } else {
      Seqs.Assoc(p.word, ": ", text);
      PlainEntryHead(p, rest, line);
      Seqs.AppendParts(p.word + ": ", text);
    }
  }

  lemma NumberedEntryHead(p: Pattern, front: string, num: string, rest: string, line: string)
    requires p.numbered && front == p.word + " " && line == front + (num + rest)
    requires |num| > 0 && DigitRun(num + rest) == |num| && |rest| >= 2 && rest[..2] == ": "
    ensures HeadLength(line, p) == Some(|line| - |rest| + 2)
  {
    Seqs.AppendParts(front, num + rest);
    Seqs.Assoc(front, num, rest);
    Seqs.AppendParts(front + num, rest);
    NumberedHeadOf(line, p, |num|);
  }

  lemma PlainEntryHead(p: Pattern, rest: string, line: string)
    requires !p.numbered && line == p.word + rest && |rest| >= 2 && rest[..2] == ": "
    ensures HeadLength(line, p) == Some(|line| - |rest| + 2)
  {
    assert line[..|p.word| + 2] == p.word + ": ";
  }

  /** The numbered head read off its three parts. */
  lemma NumberedHeadOf(line: string, p: Pattern, d: nat)
    requires p.numbered && StartsWith(line, p.word + " ")
    requires DigitRun(line[|p.word| + 1..]) == d > 0
    requires StartsWith(line[|p.word| + 1 + d..], ": ")
    ensures HeadLength(line, p) == Some(|p.word| + 1 + d + 2)
  {
  }

  /** Characters that no match of `p` can start at. */
  predicate NoWordStart(s: string, p: Pattern)
    requires ValidPattern(p)
  {
    forall i :: 0 <= i < |s| ==> s[i] != p.word[0]
  }

  lemma {:induction false} SkipPrefix(a: string, b: string, p: Pattern)
    requires ValidPattern(p) && NoWordStart(a, p)
    ensures AllMatches(a + b, p) == AllMatches(b, p)
    decreases |a|
  {
    if |a| > 0 {
      NoMatchAt(a + b, p);
      assert (a + b)[1..] == a[1..] + b;
      SkipPrefix(a[1..], b, p);
    } else {
      assert a + b == b;
    }
  }

  /** No match of `p` can start inside the head of a `q` line. */
  predicate Distinguishable(q: Pattern, p: Pattern) {
    && ValidPattern(p) && ValidPattern(q)
    && NoWordStart(q.word, p) && p.word[0] != ':' && p.word[0] != ' ' && !IsDigit(p.word[0])
  }

  lemma PatternFacts()
    ensures ValidPattern(TITLE) && ValidPattern(PAGE) && ValidPattern(IMAGE)
    ensures Distinguishable(TITLE, PAGE) && Distinguishable(TITLE, IMAGE)
    ensures Distinguishable(IMAGE, PAGE) && Distinguishable(PAGE, IMAGE)
  {
  }

  /** A text with no character a match of `p` could start at has no match. */
  lemma NoMatches(s: string, p: Pattern)
    requires ValidPattern(p) && NoWordStart(s, p)
    ensures AllMatches(s, p) == []
  {
    SkipPrefix(s, "", p);
    assert s + "" == s;
  }

  /** The head of a line of another pattern holds no start of a `p` match. */
  lemma EntryLineOther(q: Pattern, n: nat, text: string, p: Pattern)
    requires Distinguishable(q, p)
    ensures AllMatches(EntryLine(q, n, text), p) == AllMatches(text, p)
  {
    var prefix := (if q.numbered then q.word + " " + NatToString(n) else q.word) + ": ";
    assert EntryLine(q, n, text) == prefix + text;
    assert NoWordStart(prefix, p);
    SkipPrefix(prefix, text, p);
  }

  lemma {:induction false} NumberedLinesOwn(p: Pattern, texts: seq<string>, first: nat)
    requires ValidPattern(p)
    requires forall i :: 0 <= i < |texts| ==> IsEntryText(texts[i])
    ensures LineMatches(NumberedLines(p, texts, first), p) == NumberedLines(p, texts, first)
    decreases |texts|
  {
    if texts != [] {
      var ls := NumberedLines(p, texts, first);
      EntryLineMatches(p, first, texts[0]);
      assert ls[1..] == NumberedLines(p, texts[1..], first + 1);
      NumberedLinesOwn(p, texts[1..], first + 1);
    }
  }

  lemma {:induction false} NumberedLinesOther(q: Pattern, texts: seq<string>, first: nat, p: Pattern)
    requires Distinguishable(q, p)
    requires forall i :: 0 <= i < |texts| ==> AllMatches(texts[i], p) == []
    ensures LineMatches(NumberedLines(q, texts, first), p) == []
    decreases |texts|
  {
    if texts != [] {
      var ls := NumberedLines(q, texts, first);
      EntryLineOther(q, first, texts[0], p);
      assert ls[1..] == NumberedLines(q, texts[1..], first + 1);
      NumberedLinesOther(q, texts[1..], first + 1, p);
    }
  }

  function TrimAll(texts: seq<string>): (r: seq<string>)
    ensures |r| == |texts|
  {
    seq(|texts|, i requires 0 <= i < |texts| => Trim(texts[i]))
  }

  lemma LineMatchesPair(t: string, p: Pattern)
    ensures LineMatches([t, ""], p) == AllMatches(t, p)
    ensures LineMatches([""], p) == []
  {
    assert [t, ""][1..] == [""];
    assert [""][1..] == [];
  }

  /** The lines of a formatted response, in four blocks. */
  lemma FormatBlocks(t: string, ps: seq<string>, ims: seq<string>, p: Pattern)
    ensures LineMatches([t, ""] + ps + [""] + ims, p)
      == AllMatches(t, p) + LineMatches(ps, p) + LineMatches(ims, p)
  {
    LineMatchesAppend([t, ""] + ps + [""], ims, p);
    LineMatchesAppend([t, ""] + ps, [""], p);
    LineMatchesAppend([t, ""], ps, p);
    LineMatchesPair(t, p);
  }

  /** Of the lines of a formatted response, only the `Page n: ` lines match `Page \d+: (.+)`. */
  lemma FormatPageMatches(title: string, pages: seq<string>, images: seq<string>)
    requires IsEntryText(title) && AllMatches(title, PAGE) == []
    requires forall i :: 0 <= i < |pages| ==> IsEntryText(pages[i])
    requires forall i :: 0 <= i < |images| ==> AllMatches(images[i], PAGE) == []
    ensures LineMatches(FormatResponse(title, pages, images), PAGE) == NumberedLines(PAGE, pages, 1)
  {
    PatternFacts();
    FormatBlocks(EntryLine(TITLE, 0, title), NumberedLines(PAGE, pages, 1), NumberedLines(IMAGE, images, 1), PAGE);
    EntryLineOther(TITLE, 0, title, PAGE);
    NumberedLinesOwn(PAGE, pages, 1);
    NumberedLinesOther(IMAGE, images, 1, PAGE);
  }

  /** Of the lines of a formatted response, only the `Image n: ` lines match `Image \d+: (.+)`. */
  lemma FormatImageMatches(title: string, pages: seq<string>, images: seq<string>)
    requires IsEntryText(title) && AllMatches(title, IMAGE) == []
    requires forall i :: 0 <= i < |pages| ==> AllMatches(pages[i], IMAGE) == []
    requires forall i :: 0 <= i < |images| ==> IsEntryText(images[i])
    ensures LineMatches(FormatResponse(title, pages, images), IMAGE) == NumberedLines(IMAGE, images, 1)
  {
    PatternFacts();
    FormatBlocks(EntryLine(TITLE, 0, title), NumberedLines(PAGE, pages, 1), NumberedLines(IMAGE, images, 1), IMAGE);
    EntryLineOther(TITLE, 0, title, IMAGE);
    NumberedLinesOwn(IMAGE, images, 1);
    NumberedLinesOther(PAGE, pages, 1, IMAGE);
  }

  /** The entries read from the numbered lines of `p` are the trimmed texts. */
  lemma EntriesOfNumberedLines(s: string, p: Pattern, texts: seq<string>)
    requires ValidPattern(p) && p.numbered
    requires forall i :: 0 <= i < |texts| ==> IsEntryText(texts[i])
    requires AllMatches(s, p) == NumberedLines(p, texts, 1)
    ensures Entries(s, p) == TrimAll(texts)
  {
    var es := Entries(s, p);
    var ms := AllMatches(s, p);
    assert |es| == |texts|;
    forall i | 0 <= i < |texts|
      ensures es[i] == Trim(texts[i])
    {
      var line := EntryLine(p, 1 + i, texts[i]);
      assert ms[i] == line;
      assert es[i] == Trim(ReplaceFirstHead(line, p));
      EntryLineMatches(p, 1 + i, texts[i]);
    }
  }

  lemma FormattedPages(title: string, pages: seq<string>, images: seq<string>)
    requires IsEntryText(title) && AllMatches(title, PAGE) == []
    requires forall i :: 0 <= i < |pages| ==> IsEntryText(pages[i])
    requires forall i :: 0 <= i < |images| ==> AllMatches(images[i], PAGE) == []
    ensures Entries(JoinLines(FormatResponse(title, pages, images)), PAGE) == TrimAll(pages)
  {
    var ls := FormatResponse(title, pages, images);
    PatternFacts();
    FormatPageMatches(title, pages, images);
    MatchesByLine(ls, PAGE);
    EntriesOfNumberedLines(JoinLines(ls), PAGE, pages);
  }

  lemma FormattedImages(title: string, pages: seq<string>, images: seq<string>)
    requires IsEntryText(title) && AllMatches(title, IMAGE) == []
    requires forall i :: 0 <= i < |pages| ==> AllMatches(pages[i], IMAGE) == []
    requires forall i :: 0 <= i < |images| ==> IsEntryText(images[i])
    ensures Entries(JoinLines(FormatResponse(title, pages, images)), IMAGE) == TrimAll(images)
  {
    var ls := FormatResponse(title, pages, images);
    PatternFacts();
    FormatImageMatches(title, pages, images);
    MatchesByLine(ls, IMAGE);
    EntriesOfNumberedLines(JoinLines(ls), IMAGE, images);
  }

  lemma FormattedTitle(title: string, pages: seq<string>, images: seq<string>)
    requires IsEntryText(title)
    ensures FirstMatch(JoinLines(FormatResponse(title, pages, images)), TITLE) == Some(title)
  {
    var ls := FormatResponse(title, pages, images);
    var s := JoinLines(ls);
    var t := EntryLine(TITLE, 0, title);
    PatternFacts();
    EntryLineMatches(TITLE, 0, title);
    MatchesByLine(ls, TITLE);
    assert ls[0] == t;
    assert LineMatches(ls, TITLE) == AllMatches(t, TITLE) + LineMatches(ls[1..], TITLE);
    FirstMatchIsFirst(s, TITLE);
  }

  /** A completion laid out as the story prompt requests is read back: the title, every
      page and every image description, trimmed and in order. Page texts must not hold an
      `Image n: ` head, image texts no `Page n: ` head, and the title neither. */
  lemma ParseFormattedResponse(title: string, pages: seq<string>, images: seq<string>)
    requires IsEntryText(title) && AllMatches(title, PAGE) == [] && AllMatches(title, IMAGE) == []
    requires forall i :: 0 <= i < |pages| ==> IsEntryText(pages[i]) && AllMatches(pages[i], IMAGE) == []
    requires forall i :: 0 <= i < |images| ==> IsEntryText(images[i]) && AllMatches(images[i], PAGE) == []
    ensures ParseStory(JoinLines(FormatResponse(title, pages, images))) == Story(Trim(title), TrimAll(pages), TrimAll(images))
  {
    FormattedPages(title, pages, images);
    FormattedImages(title, pages, images);
    FormattedTitle(title, pages, images);
  }
}
