/** Greedy caption cues and their times (apps/demo-video/scripts/workflow-captions.ts). */
module Captions {
  import opened Text

  const LIMIT := 72

  datatype Chapter = Chapter(start: real, end: real, caption: string)

  datatype Cue = Cue(start: real, end: real, text: string)

  /** Words joined by single spaces. */
  function Line(words: seq<string>): string {
    if words == [] then "" else if |words| == 1 then words[0] else Line(words[..|words| - 1]) + " " + words[|words| - 1]
  }

  function Flatten(groups: seq<seq<string>>): seq<string> {
    if groups == [] then [] else groups[0] + Flatten(groups[1..])
  }

  /** A cue holds at least one word, and more than one only within the limit. */
  predicate Fits(group: seq<string>) {
    |group| == 1 || (|group| > 1 && |Line(group)| <= LIMIT)
  }

  /** A way of cutting the words into cues. */
  ghost predicate Split(words: seq<string>, groups: seq<seq<string>>) {
    Flatten(groups) == words && forall g | g in groups :: Fits(g)
  }

  /** The groups the loop makes of words when the cue being filled already holds current. */
  function Fill(current: seq<string>, words: seq<string>): seq<seq<string>>
    decreases |words|
  {
    if words == [] then [current]
    else if |Line(current)| + |words[0]| + 1 <= LIMIT then Fill(current + [words[0]], words[1..])
    else [current] + Fill([words[0]], words[1..])
  }

  function Greedy(words: seq<string>): seq<seq<string>> {
    if words == [] then [] else Fill([words[0]], words[1..])
  }

  function Lines(groups: seq<seq<string>>): (lines: seq<string>)
    ensures |lines| == |groups|
  {
    seq(|groups|, i requires 0 <= i < |groups| => Line(groups[i]))
  }

  /** The loop over the words of one chapter. */
  method Wrap(words: seq<string>) returns (parts: seq<string>)
    ensures parts == Lines(Greedy(words))
  {
    parts := [];
    ghost var done: seq<seq<string>>, filling: seq<string> := [], [];
    for i := 0 to |words|
      invariant i == 0 ==> parts == [] && done == [] && filling == []
      invariant i > 0 ==> filling != [] && parts == Lines(done + [filling])
      invariant i > 0 ==> Greedy(words) == done + Fill(filling, words[i..])
    {
      var word := words[i];
      assert words[i..] == [word] + words[i + 1..];
      var last := |parts| - 1;
      if last >= 0 && |parts[last]| + |word| + 1 <= LIMIT {
        assert (filling + [word])[..|filling|] == filling;
        parts := parts[last := parts[last] + " " + word];
        filling := filling + [word];
      } else {
        parts := parts + [word];
        if i > 0 { done := done + [filling]; }
        filling := [word];
      }
      assert parts == Lines(done + [filling]);
    }
    if words != [] {
      assert words[|words|..] == [];
    }
  }

  // The greedy cut is a cut.

  lemma {:induction false} FillSplits(current: seq<string>, words: seq<string>)
    requires Fits(current)
    ensures Split(current + words, Fill(current, words))
    decreases |words|
  {
    if words == [] {
      assert Fill(current, words)[1..] == [];
    } else if |Line(current)| + |words[0]| + 1 <= LIMIT {
      var more := current + [words[0]];
      assert more[..|current|] == current;
      FillSplits(more, words[1..]);
      assert more + words[1..] == current + words;
    } else {
      FillSplits([words[0]], words[1..]);
      var rest := Fill([words[0]], words[1..]);
      assert Fill(current, words)[1..] == rest;
      assert [words[0]] + words[1..] == words;
    }
  }

  // No cut has fewer cues.

  /** Longer runs of words make longer lines. */
  lemma {:induction false} LineGrows(words: seq<string>, from: nat, to: nat)
    requires from < to <= |words|
    ensures |Line(words[from..to])| <= |Line(words)|
    decreases |words|
  {
    if from > 0 {
      LineTail(words, from);
      LineGrows(words[from..], 0, to - from);
      assert words[from..][0..to - from] == words[from..to];
    } else if to < |words| {
      LineGrows(words[..|words| - 1], 0, to);
      assert words[..|words| - 1][0..to] == words[0..to];
    } else {
      assert words[0..to] == words;
    }
  }

  lemma {:induction false} LineTail(words: seq<string>, from: nat)
    requires from < |words|
    ensures |Line(words[from..])| <= |Line(words)|
    decreases |words|
  {
    if from < |words| - 1 {
      LineTail(words[..|words| - 1], from);
      assert words[from..][..|words| - from - 1] == words[..|words| - 1][from..];
    }
  }

  /** The number of words in the first cue, and what is left after it. */
  function First(words: seq<string>): (n: nat)
    requires words != []
    ensures 1 <= n <= |words|
  {
    FirstFrom(words, 1)
  }

  function FirstFrom(words: seq<string>, n: nat): (m: nat)
    requires 1 <= n <= |words|
    ensures n <= m <= |words|
    decreases |words| - n
  {
    if n < |words| && |Line(words[..n])| + |words[n]| + 1 <= LIMIT then FirstFrom(words, n + 1) else n
  }

  lemma {:induction false} FillTakesFirst(words: seq<string>, n: nat)
    requires 1 <= n <= |words|
    ensures var m := FirstFrom(words, n);
            Fill(words[..n], words[n..]) == [words[..m]] + Greedy(words[m..])
    decreases |words| - n
  {
    if n < |words| {
      assert words[n..][1..] == words[n + 1..];
      assert words[..n] + [words[n]] == words[..n + 1];
      if |Line(words[..n])| + |words[n]| + 1 <= LIMIT {
        FillTakesFirst(words, n + 1);
      }
    }
  }

  lemma GreedyTakesFirst(words: seq<string>)
    requires words != []
    ensures Greedy(words) == [words[..First(words)]] + Greedy(words[First(words)..])
  {
    assert words[..1] == [words[0]];
    FillTakesFirst(words, 1);
  }

  /** The first cue is as long as any that fits. */
  lemma {:induction false} FirstIsLongest(words: seq<string>, n: nat, k: nat)
    requires 1 <= n <= k <= |words| && Fits(words[..k])
    ensures k <= FirstFrom(words, n)
    decreases |words| - n
  {
    if n < k {
      assert words[..n + 1][..n] == words[..n];
      LineGrows(words[..k], 0, n + 1);
      assert words[..k][0..n + 1] == words[..n + 1];
      FirstIsLongest(words, n + 1, k);
    }
  }

  lemma {:induction false} FirstFits(words: seq<string>, n: nat)
    requires 1 <= n <= |words| && Fits(words[..n])
    ensures Fits(words[..FirstFrom(words, n)])
    decreases |words| - n
  {
    if n < |words| && |Line(words[..n])| + |words[n]| + 1 <= LIMIT {
      assert words[..n + 1][..n] == words[..n];
      FirstFits(words, n + 1);
    }
  }

  /** A first cue started later reaches at least as far. */
  lemma FirstOfTail(words: seq<string>, drop: nat)
    requires words != [] && 0 < drop < First(words)
    ensures First(words) - drop <= First(words[drop..])
  {
    var f, tail := First(words), words[drop..];
    FirstFits(words, 1);
    assert tail[..f - drop] == words[..f][drop..];
    if f - drop > 1 { LineTail(words[..f], drop); }
    FirstIsLongest(tail, 1, f - drop);
  }

  /** Leaving out words at the start never costs a cue. */
  lemma {:induction false} GreedyOfTail(words: seq<string>, drop: nat)
    requires drop <= |words|
    ensures |Greedy(words[drop..])| <= |Greedy(words)|
    decreases |words|
  {
    if drop == 0 {
      assert words[drop..] == words;
    } else if drop < |words| {
      var f, tail := First(words), words[drop..];
      GreedyTakesFirst(words);
      if f <= drop {
        assert words[f..][drop - f..] == tail;
        GreedyOfTail(words[f..], drop - f);
      } else {
        var g := First(tail);
        GreedyTakesFirst(tail);
        FirstOfTail(words, drop);
        assert words[f..][drop + g - f..] == tail[g..];
        GreedyOfTail(words[f..], drop + g - f);
      }
    }
  }

  lemma {:induction false} NoSplitIsShorter(words: seq<string>, groups: seq<seq<string>>)
    requires Split(words, groups)
    ensures |Greedy(words)| <= |groups|
    decreases |groups|
  {
    if groups != [] {
      var n := |groups[0]|;
      assert Fits(groups[0]) && words[..n] == groups[0] && words[n..] == Flatten(groups[1..]);
      NoSplitIsShorter(words[n..], groups[1..]);
      GreedyTakesFirst(words);
      FirstIsLongest(words, 1, n);
      var f := First(words);
      assert words[n..][f - n..] == words[f..];
      GreedyOfTail(words[n..], f - n);
    }
  }

  /** The loop loses no word, keeps the limit, and no other cut has fewer cues. */
  lemma GreedyIsBest(words: seq<string>)
    ensures Split(words, Greedy(words))
    ensures forall groups | Split(words, groups) :: |Greedy(words)| <= |groups|
  {
    if words != [] {
      FillSplits([words[0]], words[1..]);
      assert [words[0]] + words[1..] == words;
    }
    forall groups | Split(words, groups) ensures |Greedy(words)| <= |groups| {
      NoSplitIsShorter(words, groups);
    }
  }

  /** The cues of a chapter read one after the other are its caption. */
  lemma {:induction false} LinesKeepTheText(groups: seq<seq<string>>)
    requires groups != [] && forall g | g in groups :: g != []
    ensures Flatten(groups) != [] && Line(Lines(groups)) == Line(Flatten(groups))
    decreases |groups|
  {
    var k := |groups| - 1;
    var init, last := groups[..k], groups[k];
    FlattenSnoc(groups);
    assert last in groups;
    if k == 0 {
      assert Flatten(groups) == last;
      assert Lines(groups) == [Line(last)];
    } else {
      assert forall g | g in init :: g in groups;
      LinesKeepTheText(init);
      assert Lines(groups)[..k] == Lines(init);
      LineConcat(Flatten(init), last);
    }
  }

  lemma {:induction false} FlattenSnoc(groups: seq<seq<string>>)
    requires groups != []
    ensures Flatten(groups) == Flatten(groups[..|groups| - 1]) + groups[|groups| - 1]
    decreases |groups|
  {
    if |groups| > 1 {
      FlattenSnoc(groups[1..]);
      assert groups[1..][..|groups| - 2] == groups[..|groups| - 1][1..];
    } else {
      assert groups[1..] == [];
    }
  }

  lemma {:induction false} LineConcat(a: seq<string>, b: seq<string>)
    requires a != [] && b != []
    ensures Line(a + b) == Line(a) + " " + Line(b)
    decreases |b|
  {
    var k := |b| - 1;
    if k > 0 {
      LineConcat(a, b[..k]);
      assert (a + b)[..|a| + k] == a + b[..k];
    } else {
      assert (a + b)[..|a|] == a;
    }
  }

  // Times.

  function Mark(chapter: Chapter, index: nat, count: nat): real
    requires index <= count && count > 0
  {
    chapter.start + (chapter.end - chapter.start) * index as real / count as real
  }

  function CuesOf(chapter: Chapter): seq<Cue> {
    var lines := Lines(Greedy(SplitSpaces(chapter.caption)));
    seq(|lines|, i requires 0 <= i < |lines| => Cue(Mark(chapter, i, |lines|), Mark(chapter, i + 1, |lines|), lines[i]))
  }

  function CuesOfAll(chapters: seq<Chapter>): seq<Cue> {
    if chapters == [] then [] else CuesOfAll(chapters[..|chapters| - 1]) + CuesOf(chapters[|chapters| - 1])
  }

  /** The cues of workflowCaptions, chapter after chapter. */
  method WorkflowCues(chapters: seq<Chapter>) returns (cues: seq<Cue>)
    ensures cues == CuesOfAll(chapters)
  {
    cues := [];
    for n := 0 to |chapters|
      invariant cues == CuesOfAll(chapters[..n])
    {
      var chapter := chapters[n];
      var parts := Wrap(SplitSpaces(chapter.caption));
      cues := cues + seq(|parts|, i requires 0 <= i < |parts| => Cue(Mark(chapter, i, |parts|), Mark(chapter, i + 1, |parts|), parts[i]));
      assert chapters[..n + 1][..n] == chapters[..n];
    }
    assert chapters[..|chapters|] == chapters;
  }

  /** A cue is one line: the only spaces in it are the blanks between its words. */
  lemma {:induction false} LineIsOneLine(words: seq<string>)
    requires Solid(words)
    ensures forall c | c in Line(words) :: IsSpace(c) ==> c == ' '
  {
    if |words| > 1 {
      LineIsOneLine(words[..|words| - 1]);
      assert words[|words| - 1] in words;
    } else if |words| == 1 {
      assert words[0] in words;
    }
  }

  lemma {:induction false} FlattenHas(groups: seq<seq<string>>, g: seq<string>, w: string)
    requires g in groups && w in g
    ensures w in Flatten(groups)
    decreases |groups|
  {
    if g != groups[0] { FlattenHas(groups[1..], g, w); }
  }

  /** The rounded millisecond a time is shown as. */
  function Stamp(seconds: real): int {
    Round(seconds * 1000.0)
  }

  /** The cues cover the chapter without gap or overlap. */
  ghost predicate Tiled(chapter: Chapter, cues: seq<Cue>) {
    && cues != [] && cues[0].start == chapter.start && cues[|cues| - 1].end == chapter.end
    && (forall i | 0 < i < |cues| :: cues[i].start == cues[i - 1].end)
  }

  ghost predicate RunForward(cues: seq<Cue>) {
    forall i | 0 <= i < |cues| :: cues[i].start <= cues[i].end
  }

  /** What is shown, in whole milliseconds. */
  ghost predicate ShownForward(cues: seq<Cue>) {
    forall i | 0 <= i < |cues| :: Stamp(cues[i].start) <= Stamp(cues[i].end)
  }

  /** Math.round */
  function Round(x: real): int {
    (x + 0.5).Floor
  }

  lemma StampGrows(x: real, y: real)
    requires x <= y
    ensures Stamp(x) <= Stamp(y)
  {
    assert x * 1000.0 + 0.5 <= y * 1000.0 + 0.5;
  }

  lemma MarksGrow(chapter: Chapter, count: nat, i: nat, j: nat)
    requires chapter.start <= chapter.end && i <= j <= count && count > 0
    ensures Mark(chapter, i, count) <= Mark(chapter, j, count)
  {
    var d, n := chapter.end - chapter.start, count as real;
    ScaleGrows(d, i as real, j as real);
    DivideGrows(d * i as real, d * j as real, n);
  }

  lemma MarksMeet(chapter: Chapter, count: nat)
    requires count > 0
    ensures Mark(chapter, 0, count) == chapter.start && Mark(chapter, count, count) == chapter.end
  {
    var d, n := chapter.end - chapter.start, count as real;
    ScaleBack(d, n);
    ScaleNothing(d, n);
  }

  lemma CueTimes(chapter: Chapter, i: nat)
    requires i < |CuesOf(chapter)|
    ensures var cues := CuesOf(chapter);
            cues[i].start == Mark(chapter, i, |cues|) && cues[i].end == Mark(chapter, i + 1, |cues|)
  {}

  /** The time from one to the other is the count-th part of all. */
  ghost predicate IsShare(from: real, to: real, count: nat, all: real) {
    (to - from) * count as real == all
  }

  /** Every cue has the same share of the chapter's time. */
  ghost predicate EqualShares(chapter: Chapter, cues: seq<Cue>) {
    forall i | 0 <= i < |cues| :: IsShare(cues[i].start, cues[i].end, |cues|, chapter.end - chapter.start)
  }

  lemma Share(d: real, x: real, n: real)
    requires n > 0.0
    ensures (d * (x + 1.0) / n - d * x / n) * n == d
  {
    assert d * (x + 1.0) == d * x + d;
    assert (d * x + d) / n == d * x / n + d / n;
  }

  lemma ShareOfMarks(chapter: Chapter, i: nat, count: nat)
    requires i < count
    ensures IsShare(Mark(chapter, i, count), Mark(chapter, i + 1, count), count, chapter.end - chapter.start)
  {
    Share(chapter.end - chapter.start, i as real, count as real);
  }

  lemma SharesAreEqual(chapter: Chapter)
    ensures EqualShares(chapter, CuesOf(chapter))
  {
    var cues := CuesOf(chapter);
    forall i | 0 <= i < |cues| ensures IsShare(cues[i].start, cues[i].end, |cues|, chapter.end - chapter.start) {
      CueTimes(chapter, i);
      ShareOfMarks(chapter, i, |cues|);
    }
  }

  lemma MarksFall(chapter: Chapter, count: nat)
    requires chapter.end < chapter.start && count > 0
    ensures Mark(chapter, 1, count) < Mark(chapter, 0, count)
  {
    var d, n := chapter.end - chapter.start, count as real;
    ScaleNothing(d, n);
    DivideFalls(d, n);
  }

  /** The cues of every chapter meet, and run forward exactly when the chapter does. */
  lemma {:induction false} CuesTile(chapter: Chapter)
    requires CuesOf(chapter) != []
    ensures Tiled(chapter, CuesOf(chapter))
    ensures RunForward(CuesOf(chapter)) <==> chapter.start <= chapter.end
    ensures chapter.start <= chapter.end ==> ShownForward(CuesOf(chapter))
    ensures EqualShares(chapter, CuesOf(chapter))
  {
    SharesAreEqual(chapter);
    var cues := CuesOf(chapter);
    var n := |cues|;
    forall i | 0 < i < n ensures cues[i].start == cues[i - 1].end {
      CueTimes(chapter, i);
      CueTimes(chapter, i - 1);
    }
    CueTimes(chapter, 0);
    CueTimes(chapter, n - 1);
    MarksMeet(chapter, n);
    if chapter.start <= chapter.end { CuesRunForward(chapter); } else { MarksFall(chapter, n); }
  }

  lemma CuesRunForward(chapter: Chapter)
    requires chapter.start <= chapter.end
    ensures RunForward(CuesOf(chapter)) && ShownForward(CuesOf(chapter))
  {
    var cues := CuesOf(chapter);
    forall i | 0 <= i < |cues| ensures cues[i].start <= cues[i].end && Stamp(cues[i].start) <= Stamp(cues[i].end) {
      CueTimes(chapter, i);
      MarksGrow(chapter, |cues|, i, i + 1);
      StampGrows(cues[i].start, cues[i].end);
    }
  }

  /** Within the limit unless it is a single word, and one line. */
  predicate GoodText(group: seq<string>, text: string) {
    text == Line(group) && (|group| > 1 ==> |text| <= LIMIT) && forall c | c in text :: IsSpace(c) ==> c == ' '
  }

  lemma SplitGivesGoodTexts(words: seq<string>, groups: seq<seq<string>>, i: nat)
    requires Solid(words)
    requires Split(words, groups) && i < |groups|
    ensures GoodText(groups[i], Lines(groups)[i])
  {
    assert groups[i] in groups;
    forall w | w in groups[i] ensures w in words { FlattenHas(groups, groups[i], w); }
    LineIsOneLine(groups[i]);
  }

  /** Every word of a caption once and in order, one line a cue, as few cues as can be, over exactly the chapter's time. */
  lemma CuesOfCaption(chapter: Chapter)
    ensures var words, cues := SplitSpaces(chapter.caption), CuesOf(chapter);
            && Split(words, Greedy(words)) && |cues| == |Greedy(words)| > 0
            && Line(Lines(Greedy(words))) == Line(words)
            && (forall i | 0 <= i < |cues| :: GoodText(Greedy(words)[i], cues[i].text))
            && (forall other | Split(words, other) :: |cues| <= |other|)
            && Tiled(chapter, cues) && EqualShares(chapter, cues) && (RunForward(cues) <==> chapter.start <= chapter.end)
            && (chapter.start <= chapter.end ==> ShownForward(cues))
  {
    var words := SplitSpaces(chapter.caption);
    SplitIsSolid(chapter.caption);
    GreedyIsBest(words);
    GreedyKeepsTheText(words);
    forall i | 0 <= i < |Greedy(words)| ensures GoodText(Greedy(words)[i], Lines(Greedy(words))[i]) {
      SplitGivesGoodTexts(words, Greedy(words), i);
    }
    CuesTile(chapter);
  }

  lemma GreedyKeepsTheText(words: seq<string>)
    requires words != []
    ensures Greedy(words) != [] && Line(Lines(Greedy(words))) == Line(words)
  {
    GreedyIsBest(words);
    GreedyTakesFirst(words);
    forall g | g in Greedy(words) ensures g != [] { assert Fits(g); }
    LinesKeepTheText(Greedy(words));
  }

  lemma ScaleBack(d: real, n: real)
    requires 0.0 < n
    ensures d * n / n == d
  {}

  lemma ScaleNothing(d: real, n: real)
    requires 0.0 < n
    ensures d * 0.0 / n == 0.0
  {}

  lemma ScaleGrows(d: real, x: real, y: real)
    requires 0.0 <= d && x <= y
    ensures d * x <= d * y
  {}

  lemma DivideGrows(x: real, y: real, n: real)
    requires x <= y && 0.0 < n
    ensures x / n <= y / n
  {
    assert (y - x) / n >= 0.0;
  }

  lemma DivideFalls(d: real, n: real)
    requires d < 0.0 < n
    ensures d * 1.0 / n < 0.0
  {}

  // Timestamps.

  /** String(n) */
  function Shown(n: int): string {
    if n < 0 then "-" + Decimal(-n) else Decimal(n)
  }

  /** padStart(width, '0') of it */
  function Padded(n: int, width: nat): (s: string) {
    var text := Shown(n);
    seq(if |text| < width then width - |text| else 0, _ => '0') + text
  }

  /** The operator %, whose result has the sign of n. */
  function Remainder(n: int, m: nat): int
    requires m > 0
  {
    if n < 0 then -(-n % m) else n % m
  }

  function Timestamp(seconds: real): string {
    var ms := Round(seconds * 1000.0);
    Padded(ms / 3600000, 2) + ":" + Padded(Remainder(ms / 60000, 60), 2) + ":" + Padded(Remainder(ms / 1000, 60), 2)
    + "." + Padded(Remainder(ms, 1000), 3)
  }

  lemma {:induction false} NumberOfZeros(k: nat, digits: string)
    requires forall c | c in digits :: IsDigit(c)
    ensures forall c | c in seq(k, _ => '0') + digits :: IsDigit(c)
    ensures Number(seq(k, _ => '0') + digits) == Number(digits)
    decreases |digits| + k
  {
    var s := seq(k, _ => '0') + digits;
    if digits != "" {
      assert s[..|s| - 1] == seq(k, _ => '0') + digits[..|digits| - 1];
      NumberOfZeros(k, digits[..|digits| - 1]);
    } else if k > 0 {
      assert s[..|s| - 1] == seq(k - 1, _ => '0') + digits;
      NumberOfZeros(k - 1, digits);
    }
  }

  lemma NumberOfPadded(n: nat, width: nat)
    ensures forall c | c in Padded(n, width) :: IsDigit(c)
    ensures Number(Padded(n, width)) == n && |Padded(n, width)| >= width
    ensures n < 100 && width == 2 ==> |Padded(n, width)| == 2
    ensures n < 1000 && width == 3 ==> |Padded(n, width)| == 3
  {
    NumberOfDecimal(n);
    NumberOfZeros(if |Decimal(n)| < width then width - |Decimal(n)| else 0, Decimal(n));
  }

  /** A WebVTT timestamp: hours of two or more digits, minutes, seconds, thousandths. */
  ghost predicate Clock(hours: string, minutes: string, seconds: string, thousandths: string, ms: nat) {
    && |hours| >= 2 && |minutes| == 2 && |seconds| == 2 && |thousandths| == 3
    && (forall c | c in hours + minutes + seconds + thousandths :: IsDigit(c))
    && Number(minutes) < 60 && Number(seconds) < 60
    && ms == ((Number(hours) * 60 + Number(minutes)) * 60 + Number(seconds)) * 1000 + Number(thousandths)
  }

  ghost predicate WellFormed(s: string, ms: nat) {
    exists hours: string, minutes: string, seconds: string, thousandths: string ::
      Clock(hours, minutes, seconds, thousandths, ms) && s == hours + ":" + minutes + ":" + seconds + "." + thousandths
  }

  lemma Sexagesimal(ms: nat)
    ensures ms == ((ms / 3600000 * 60 + ms / 60000 % 60) * 60 + ms / 1000 % 60) * 1000 + ms % 1000
  {
    assert ms / 60000 == ms / 1000 / 60;
    assert ms / 3600000 == ms / 60000 / 60;
  }

  lemma TimestampTells(seconds: real)
    requires Round(seconds * 1000.0) >= 0
    ensures WellFormed(Timestamp(seconds), Round(seconds * 1000.0))
  {
    var ms := Round(seconds * 1000.0);
    var h, m, s, t := Padded(ms / 3600000, 2), Padded(ms / 60000 % 60, 2), Padded(ms / 1000 % 60, 2), Padded(ms % 1000, 3);
    NumberOfPadded(ms / 3600000, 2);
    NumberOfPadded(ms / 60000 % 60, 2);
    NumberOfPadded(ms / 1000 % 60, 2);
    NumberOfPadded(ms % 1000, 3);
    Sexagesimal(ms);
    assert Clock(h, m, s, t, ms);
    assert Timestamp(seconds) == h + ":" + m + ":" + s + "." + t;
  }

  /** A negative time shows a minus, since its hours are rounded down. */
  lemma NegativeShowsMinus(seconds: real)
    requires Round(seconds * 1000.0) < 0
    ensures '-' in Timestamp(seconds)
  {
    var hours := Round(seconds * 1000.0) / 3600000;
    assert hours < 0 && Shown(hours)[0] == '-';
    var padding := if |Shown(hours)| < 2 then 2 - |Shown(hours)| else 0;
    assert Timestamp(seconds)[padding] == Padded(hours, 2)[padding] == '-';
  }

  /** One second before the start, for instance. */
  lemma BeforeTheStart()
    ensures forall ms: nat :: !WellFormed(Timestamp(-1.0), ms)
  {
    TimestampTellsTheTime(-1.0);
    assert Round(-1000.0) < 0;
  }

  lemma WellFormedShowsNoMinus(s: string, ms: nat)
    requires WellFormed(s, ms)
    ensures '-' !in s
  {
    var hours: string, minutes: string, seconds: string, thousandths: string :|
      Clock(hours, minutes, seconds, thousandths, ms) && s == hours + ":" + minutes + ":" + seconds + "." + thousandths;
    assert forall c | c in s :: c in hours + minutes + seconds + thousandths || c == ':' || c == '.';
  }

  /** A timestamp is well formed and tells the rounded time exactly when that is not negative. */
  lemma TimestampTellsTheTime(seconds: real)
    ensures Round(seconds * 1000.0) >= 0 ==> WellFormed(Timestamp(seconds), Round(seconds * 1000.0))
    ensures (exists ms: nat :: WellFormed(Timestamp(seconds), ms)) <==> Round(seconds * 1000.0) >= 0
  {
    if Round(seconds * 1000.0) >= 0 {
      TimestampTells(seconds);
    } else {
      NegativeShowsMinus(seconds);
      forall ms: nat ensures !WellFormed(Timestamp(seconds), ms) {
        if WellFormed(Timestamp(seconds), ms) { WellFormedShowsNoMinus(Timestamp(seconds), ms); }
      }
    }
  }
}
