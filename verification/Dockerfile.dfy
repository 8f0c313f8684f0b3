/** The base images of a Dockerfile (apps/api/src/build-context.ts, lines 92 to 124). */
module Dockerfile {
  import opened Wrappers
  import opened Text

  datatype BaseImage = BaseImage(image: string, line: nat, dynamic: bool)

  /** What a FROM line says; no alias is "". */
  datatype From = From(image: string, alias: string)

  function LineEnd(s: string): (n: nat)
    ensures n <= |s| && (forall k | 0 <= k < n :: s[k] != '\n') && (n < |s| ==> s[n] == '\n')
  {
    if s == "" || s[0] == '\n' then 0 else 1 + LineEnd(s[1..])
  }

  /** split(/\r?\n/) */
  function Lines(s: string): (lines: seq<string>)
    ensures lines != []
    decreases |s|
  {
    var n := LineEnd(s);
    if n == |s| then [s]
    else [if n > 0 && s[n - 1] == '\r' then s[..n - 1] else s[..n]] + Lines(s[n + 1..])
  }

  /** Lines written with either kind of line break. */
  function Unlines(lines: seq<string>, breaks: seq<string>): string
    requires |lines| == |breaks| + 1
  {
    if breaks == [] then lines[0] else lines[0] + breaks[0] + Unlines(lines[1..], breaks[1..])
  }

  predicate IsLine(line: string) {
    (forall k | 0 <= k < |line| :: line[k] != '\n') && (line == "" || line[|line| - 1] != '\r')
  }

  lemma LineEndAt(s: string, n: nat)
    requires n <= |s| && (forall k | 0 <= k < n :: s[k] != '\n') && (n < |s| ==> s[n] == '\n')
    ensures LineEnd(s) == n
  {}

  /** The characters around the first line break. */
  lemma BreakAt(line: string, lineBreak: string, rest: string)
    requires IsLine(line) && (lineBreak == "\n" || lineBreak == "\r\n")
    ensures var s, n := line + lineBreak + rest, |line| + |lineBreak| - 1;
            && (forall k | 0 <= k < n :: s[k] != '\n') && s[n] == '\n' && s[n + 1..] == rest && s[..|line|] == line
            && (n > |line| ==> s[n - 1] == '\r') && (n == |line| > 0 ==> s[n - 1] != '\r')
  {
    var s := line + lineBreak + rest;
    assert forall k | 0 <= k < |line| :: s[k] == line[k];
    assert forall k | 0 <= k < |lineBreak| :: s[|line| + k] == lineBreak[k];
  }

  lemma FirstLine(line: string, lineBreak: string, rest: string)
    requires IsLine(line) && (lineBreak == "\n" || lineBreak == "\r\n")
    ensures Lines(line + lineBreak + rest) == [line] + Lines(rest)
  {
    BreakAt(line, lineBreak, rest);
    CutAtBreak(line + lineBreak + rest, |line| + |lineBreak| - 1, |line|);
  }

  lemma CutAtBreak(s: string, n: nat, end: nat)
    requires n < |s| && (forall k | 0 <= k < n :: s[k] != '\n') && s[n] == '\n'
    requires end == if n > 0 && s[n - 1] == '\r' then n - 1 else n
    ensures Lines(s) == [s[..end]] + Lines(s[n + 1..])
  {
    LineEndAt(s, n);
  }

  lemma {:induction false} LinesOfWritten(lines: seq<string>, breaks: seq<string>)
    requires |lines| == |breaks| + 1 && forall k | 0 <= k < |lines| :: IsLine(lines[k])
    requires forall k | 0 <= k < |breaks| :: breaks[k] == "\n" || breaks[k] == "\r\n"
    ensures Lines(Unlines(lines, breaks)) == lines
    decreases |lines|
  {
    if breaks == [] {
      LineEndAt(lines[0], |lines[0]|);
      assert lines == [lines[0]];
    } else {
      FirstLine(lines[0], breaks[0], Unlines(lines[1..], breaks[1..]));
      LinesOfWritten(lines[1..], breaks[1..]);
    }
  }

  predicate IsFrom(s: string) {
    |s| == 4 && LowerChar(s[0]) == 'f' && LowerChar(s[1]) == 'r' && LowerChar(s[2]) == 'o' && LowerChar(s[3]) == 'm'
  }

  predicate IsAs(s: string) {
    |s| == 2 && LowerChar(s[0]) == 'a' && LowerChar(s[1]) == 's'
  }

  /** The group of /^FROM\s+(.+)$/i on a trimmed line. */
  function FromRest(line: string): Option<string> {
    if |line| < 4 || !IsFrom(line[..4]) then None
    else
      var k := SpaceEnd(line[4..]);
      var rest := line[4 + k..];
      if k == 0 || rest == "" || exists c | c in rest :: IsLineTerminator(c) then None else Some(rest)
  }

  function NotEmpty(words: seq<string>): (tokens: seq<string>)
    ensures forall k | 0 <= k < |tokens| :: tokens[k] != ""
  {
    if words == [] then [] else (if words[0] != "" then [words[0]] else []) + NotEmpty(words[1..])
  }

  function Tokens(rest: string): (tokens: seq<string>)
    ensures forall k | 0 <= k < |tokens| :: tokens[k] != ""
  {
    NotEmpty(SplitSpaces(rest))
  }

  /** The tokens of a line that is a FROM instruction. */
  function FromTokens(rawLine: string): Option<seq<string>> {
    var line := Trim(rawLine);
    if line == "" || StartsWith(line, "#") then None
    else
      match FromRest(line)
      case None => None
      case Some(rest) => Some(Tokens(rest))
  }

  predicate IsFlag(token: string) {
    StartsWith(token, "--")
  }

  /** Where the image stands: after the flags. */
  ghost predicate ImageAt(tokens: seq<string>, i: nat) {
    i <= |tokens| && (forall k | 0 <= k < i :: IsFlag(tokens[k])) && (i < |tokens| ==> !IsFlag(tokens[i]))
  }

  function Flags(tokens: seq<string>): (i: nat)
    ensures ImageAt(tokens, i)
  {
    if tokens == [] || !IsFlag(tokens[0]) then 0 else 1 + Flags(tokens[1..])
  }

  /** findIndex from `from` on; the number of tokens where it gives -1. */
  function FindAs(tokens: seq<string>, from: nat): (i: nat)
    requires from <= |tokens|
    ensures from <= i <= |tokens| && (forall k | from <= k < i :: !IsAs(tokens[k])) && (i < |tokens| ==> IsAs(tokens[i]))
    decreases |tokens| - from
  {
    if from == |tokens| || IsAs(tokens[from]) then from else FindAs(tokens, from + 1)
  }

  function AliasAfter(tokens: seq<string>, imageIndex: nat): string
    requires imageIndex < |tokens|
  {
    var i := FindAs(tokens, imageIndex + 1);
    if i + 1 < |tokens| then tokens[i + 1] else ""
  }

  /** What one line declares. */
  function Stage(rawLine: string): Option<From> {
    match FromTokens(rawLine)
    case None => None
    case Some(tokens) =>
      var i := Flags(tokens);
      if i == |tokens| then None else Some(From(tokens[i], AliasAfter(tokens, i)))
  }

  // Written lines are read back.

  predicate Word(w: string) {
    w != "" && forall c | c in w :: !IsSpace(c)
  }

  ghost predicate Words(words: seq<string>) {
    forall k | 0 <= k < |words| :: Word(words[k])
  }

  function Spaced(words: seq<string>): string {
    if words == [] then "" else if |words| == 1 then words[0] else words[0] + " " + Spaced(words[1..])
  }

  lemma WordEndAt(s: string, n: nat)
    requires n <= |s| && (forall k | 0 <= k < n :: !IsSpace(s[k])) && (n < |s| ==> IsSpace(s[n]))
    ensures WordEnd(s) == n
  {}

  lemma {:induction false} SpacedEnds(words: seq<string>)
    requires Words(words) && words != []
    ensures var s := Spaced(words);
            s != "" && s[0] == words[0][0] && !IsSpace(s[0]) && !IsSpace(s[|s| - 1]) && forall c | c in s :: !IsLineTerminator(c)
    decreases |words|
  {
    var w := words[0];
    assert Word(w) && w[0] in w && w[|w| - 1] in w;
    if |words| > 1 { SpacedEnds(words[1..]); }
  }

  lemma SplitAtSpace(w: string, t: string)
    requires Word(w) && t != "" && !IsSpace(t[0])
    ensures SplitSpaces(w + " " + t) == [w] + SplitSpaces(t)
  {
    var s := w + " " + t;
    assert forall k | 0 <= k < |w| :: s[k] == w[k] && w[k] in w;
    WordEndAt(s, |w|);
    assert s[..|w|] == w && s[|w|..] == " " + t;
    OneSpace(t);
    assert s[|w| + 1..] == t;
  }

  lemma OneSpace(t: string)
    requires t != "" && !IsSpace(t[0])
    ensures SpaceEnd(" " + t) == 1
  {
    assert (" " + t)[1..] == t;
  }

  lemma SplitWord(w: string)
    requires Word(w)
    ensures SplitSpaces(w) == [w]
  {
    assert forall k | 0 <= k < |w| :: w[k] in w;
    WordEndAt(w, |w|);
  }

  lemma {:induction false} NotEmptyKeeps(words: seq<string>)
    requires Words(words)
    ensures NotEmpty(words) == words
    decreases |words|
  {
    if words != [] {
      assert Word(words[0]);
      NotEmptyKeeps(words[1..]);
    }
  }

  lemma {:induction false} SplitSpaced(words: seq<string>)
    requires Words(words) && words != []
    ensures SplitSpaces(Spaced(words)) == words
    decreases |words|
  {
    assert Word(words[0]);
    if |words| > 1 {
      SpacedEnds(words[1..]);
      SplitSpaced(words[1..]);
      assert Spaced(words) == words[0] + " " + Spaced(words[1..]);
      SplitAtSpace(words[0], Spaced(words[1..]));
    } else {
      SplitWord(words[0]);
      assert words == [words[0]];
    }
  }

  lemma FromRestOfWritten(keyword: string, rest: string)
    requires IsFrom(keyword) && rest != "" && !IsSpace(rest[0]) && !IsSpace(rest[|rest| - 1])
    requires forall c | c in rest :: !IsLineTerminator(c)
    ensures var line := keyword + " " + rest;
            Trim(line) == line && line[0] == keyword[0] && FromRest(line) == Some(rest)
  {
    var line := keyword + " " + rest;
    TrimOfTrimmed(line);
    assert line[..4] == keyword && line[4..] == " " + rest;
    OneSpace(rest);
    assert line[5..] == rest;
  }

  lemma TokensOfWritten(keyword: string, words: seq<string>)
    requires IsFrom(keyword) && Words(words) && words != []
    ensures FromTokens(keyword + " " + Spaced(words)) == Some(words)
  {
    SpacedEnds(words);
    SplitSpaced(words);
    NotEmptyKeeps(words);
    FromRestOfWritten(keyword, Spaced(words));
  }

  // Other lines.

  /** What trimming leaves of a word and what follows it begins with the word, and then ends or goes on with a space. */
  lemma {:induction false} TrimEndKeepsWord(word: string, rest: string)
    requires Word(word) && (rest == "" || IsSpace(rest[0]))
    ensures var t := TrimEnd(word + rest);
            word <= t && (|t| > |word| ==> IsSpace(t[|word|]))
    decreases |rest|
  {
    var s := word + rest;
    assert s[|word| - 1] == word[|word| - 1] && word[|word| - 1] in word;
    if rest != "" && IsSpace(s[|s| - 1]) {
      assert s[..|s| - 1] == word + rest[..|rest| - 1];
      TrimEndKeepsWord(word, rest[..|rest| - 1]);
    }
  }

  lemma OtherKeyword(t: string, word: string)
    requires Word(word) && !IsFrom(word) && word <= t && (|t| > |word| ==> IsSpace(t[|word|]))
    ensures FromRest(t).None?
  {
    assert |word| < 4 <= |t| ==> t[..4][|word|] == t[|word|];
    assert |word| == 4 ==> t[..4] == word;
    assert |word| > 4 ==> word[4] in word && t[4..][0] == word[4];
  }

  /** A line whose first word is not FROM, in whatever case, is no stage, comments among them. */
  lemma OtherLinesAreNoStages(blank: string, word: string, rest: string)
    requires Blank(blank) && Word(word) && !IsFrom(word) && (rest == "" || IsSpace(rest[0]))
    ensures Stage(blank + word + rest) == None
  {
    assert word[0] in word;
    assert blank + word + rest == blank + (word + rest);
    TrimStartBlank(blank, word + rest);
    TrimEndKeepsWord(word, rest);
    OtherKeyword(Trim(blank + word + rest), word);
  }

  /** Nor is an empty line. */
  lemma BlankLinesAreNoStages(blank: string)
    requires Blank(blank)
    ensures Stage(blank) == None
  {
    TrimOfBlank(blank);
  }

  lemma {:induction false} TrimOfBlank(blank: string)
    requires Blank(blank)
    ensures TrimStart(blank) == ""
  {
    if blank != "" {
      assert blank[0] in blank;
      TrimOfBlank(blank[1..]);
    }
  }

  lemma AliasOfWritten(before: seq<string>, image: string, more: seq<string>)
    requires more == [] || (|more| == 2 && IsAs(more[0]))
    ensures AliasAfter(before + [image] + more, |before|) == if more == [] then "" else more[1]
  {
    var words := before + [image] + more;
    assert words[|before| + 1..] == more;
    assert more != [] ==> words[|before| + 1] == more[0] && words[|before| + 2] == more[1];
  }

  lemma ImageOfWritten(flags: seq<string>, image: string, more: seq<string>)
    requires !IsFlag(image) && forall k | 0 <= k < |flags| :: IsFlag(flags[k])
    ensures Flags(flags + [image] + more) == |flags|
  {
    var words := flags + [image] + more;
    assert words[..|flags|] == flags && words[|flags|] == image;
    ImageIsOne(words, |flags|);
  }

  /** A FROM line as one writes it: flags, the image, and an alias if there is one. */
  lemma {:induction false} StageOfWritten(keyword: string, flags: seq<string>, image: string, more: seq<string>)
    requires IsFrom(keyword) && Words(flags + [image] + more)
    requires !IsFlag(image) && forall k | 0 <= k < |flags| :: IsFlag(flags[k])
    requires more == [] || (|more| == 2 && IsAs(more[0]))
    ensures Stage(keyword + " " + Spaced(flags + [image] + more)) == Some(From(image, if more == [] then "" else more[1]))
  {
    TokensOfWritten(keyword, flags + [image] + more);
    ImageOfWritten(flags, image, more);
    AliasOfWritten(flags, image, more);
  }

  function StagesOf(lines: seq<string>): (stages: seq<Option<From>>)
    ensures |stages| == |lines| && forall i | 0 <= i < |lines| :: stages[i] == Stage(lines[i])
  {
    seq(|lines|, i requires 0 <= i < |lines| => Stage(lines[i]))
  }

  function Stages(dockerfile: string): seq<Option<From>> {
    StagesOf(Lines(dockerfile))
  }

  /** Stage j, by its line, declares the name as an alias. */
  predicate Declares(stages: seq<Option<From>>, j: nat, name: string)
    requires j < |stages|
  {
    stages[j].Some? && stages[j].value.alias == name && name != ""
  }

  predicate DeclaredBefore(stages: seq<Option<From>>, i: nat, name: string)
    requires i <= |stages|
  {
    exists j | 0 <= j < i :: Declares(stages, j, name)
  }

  /** Line i is FROM an image that no earlier line declares as an alias. */
  predicate IsBase(stages: seq<Option<From>>, i: nat)
    requires i < |stages|
  {
    stages[i].Some? && !DeclaredBefore(stages, i, stages[i].value.image)
  }

  function BaseAt(stages: seq<Option<From>>, i: nat): BaseImage
    requires i < |stages| && stages[i].Some?
  {
    var image := stages[i].value.image;
    BaseImage(image, i + 1, '$' in image)
  }

  /** The base images of the first n lines, in order. */
  function Listed(stages: seq<Option<From>>, n: nat): seq<BaseImage>
    requires n <= |stages|
  {
    if n == 0 then [] else Listed(stages, n - 1) + if IsBase(stages, n - 1) then [BaseAt(stages, n - 1)] else []
  }

  /** An image is listed exactly when its line is FROM it and names no alias of an earlier line. */
  lemma {:induction false} ListedExactly(stages: seq<Option<From>>, n: nat, b: BaseImage)
    requires n <= |stages|
    ensures b in Listed(stages, n) <==> 0 < b.line <= n && IsBase(stages, b.line - 1) && b == BaseAt(stages, b.line - 1)
  {
    if n > 0 {
      ListedExactly(stages, n - 1, b);
      assert b in Listed(stages, n) <==> b in Listed(stages, n - 1) || (IsBase(stages, n - 1) && b == BaseAt(stages, n - 1));
    }
  }

  /** By line, none twice, and none after the first n. */
  ghost predicate InOrder(images: seq<BaseImage>, n: nat) {
    && (forall k | 0 <= k < |images| :: images[k].line <= n)
    && (forall k, l | 0 <= k < l < |images| :: images[k].line < images[l].line)
  }

  lemma {:induction false} ListedInOrder(stages: seq<Option<From>>, n: nat)
    requires n <= |stages|
    ensures InOrder(Listed(stages, n), n)
  {
    if n > 0 {
      ListedInOrder(stages, n - 1);
    }
  }

  /** The aliases the first n lines declare. */
  function Aliases(stages: seq<Option<From>>, n: nat): set<string>
    requires n <= |stages|
  {
    if n == 0 then {}
    else Aliases(stages, n - 1) + if stages[n - 1].Some? && stages[n - 1].value.alias != "" then {stages[n - 1].value.alias} else {}
  }

  lemma {:induction false} AliasesAreDeclared(stages: seq<Option<From>>, n: nat, name: string)
    requires n <= |stages|
    ensures name in Aliases(stages, n) <==> DeclaredBefore(stages, n, name)
  {
    if n > 0 {
      AliasesAreDeclared(stages, n - 1, name);
      assert DeclaredBefore(stages, n, name) <==> DeclaredBefore(stages, n - 1, name) || Declares(stages, n - 1, name);
    }
  }

  /** One turn of the loop. */
  lemma ListedGrows(stages: seq<Option<From>>, n: nat)
    requires n < |stages|
    ensures var stage, aliases, images := stages[n], Aliases(stages, n), Listed(stages, n);
            && Aliases(stages, n + 1) ==
               (if stage.Some? && stage.value.alias != "" then aliases + {stage.value.alias} else aliases)
            && Listed(stages, n + 1) ==
               if stage.Some? && stage.value.image !in aliases
               then images + [BaseImage(stage.value.image, n + 1, '$' in stage.value.image)]
               else images
  {
    if stages[n].Some? { AliasesAreDeclared(stages, n, stages[n].value.image); }
  }

  /** The part of the loop body that looks at one line. */
  method ReadStage(rawLine: string) returns (stage: Option<From>)
    ensures stage == Stage(rawLine)
  {
    var fromTokens := FromTokens(rawLine);
    if fromTokens.None? { return None; }
    var tokens := fromTokens.value;
    var imageIndex := 0;
    while imageIndex < |tokens| && IsFlag(tokens[imageIndex])
      invariant imageIndex <= |tokens| && forall k | 0 <= k < imageIndex :: IsFlag(tokens[k])
    {
      imageIndex := imageIndex + 1;
    }
    ImageIsOne(tokens, imageIndex);
    if imageIndex == |tokens| { return None; }
    return Some(From(tokens[imageIndex], AliasAfter(tokens, imageIndex)));
  }

  /** dockerfileBaseImages on the lines. */
  method BaseImagesOfLines(lines: seq<string>) returns (images: seq<BaseImage>)
    ensures images == Listed(StagesOf(lines), |lines|)
  {
    ghost var stages := StagesOf(lines);
    var stageAliases: set<string> := {};
    images := [];
    for index := 0 to |lines|
      invariant images == Listed(stages, index) && stageAliases == Aliases(stages, index)
    {
      ListedGrows(stages, index);
      var stage := ReadStage(lines[index]);
      if stage.None? { continue; }
      var From(image, alias) := stage.value;
      if image in stageAliases {
        if alias != "" { stageAliases := stageAliases + {alias}; }
        continue;
      }
      if alias != "" { stageAliases := stageAliases + {alias}; }
      images := images + [BaseImage(image, index + 1, '$' in image)];
    }
  }

  method BaseImages(dockerfile: string) returns (images: seq<BaseImage>)
    ensures images == Listed(Stages(dockerfile), |Stages(dockerfile)|)
  {
    images := BaseImagesOfLines(Lines(dockerfile));
  }

  lemma ImageIsOne(tokens: seq<string>, i: nat)
    requires ImageAt(tokens, i)
    ensures Flags(tokens) == i
  {
    var j := Flags(tokens);
  }

  // Chains of aliases.

  /** Each line of the chain is FROM an alias that the next one declares, and stands behind it. */
  ghost predicate Chain(stages: seq<Option<From>>, chain: seq<nat>) {
    chain != [] &&
    var k := |chain| - 1;
    && chain[k] < |stages| && stages[chain[k]].Some?
    && (k > 0 ==>
          && Chain(stages, chain[..k])
          && chain[k] < chain[k - 1] && Declares(stages, chain[k], stages[chain[k - 1]].value.image))
  }

  lemma ChainGrows(stages: seq<Option<From>>, chain: seq<nat>, j: nat)
    requires Chain(stages, chain)
    ensures var last := chain[|chain| - 1];
            Chain(stages, chain + [j]) <==> j < last && Declares(stages, j, stages[last].value.image)
  {
    assert (chain + [j])[..|chain|] == chain;
  }

  ghost predicate GoesOn(stages: seq<Option<From>>, chain: seq<nat>) {
    exists j: nat :: Chain(stages, chain + [j])
  }

  lemma GoesOnIfDeclared(stages: seq<Option<From>>, chain: seq<nat>)
    requires Chain(stages, chain)
    ensures var last := chain[|chain| - 1];
            GoesOn(stages, chain) <==> DeclaredBefore(stages, last, stages[last].value.image)
  {
    var last := chain[|chain| - 1];
    var image := stages[last].value.image;
    if j: nat :| Chain(stages, chain + [j]) {
      ChainGrows(stages, chain, j);
    }
    if DeclaredBefore(stages, last, image) {
      var j: nat :| j < last && Declares(stages, j, image);
      ChainGrows(stages, chain, j);
    }
  }

  /** A chain can go on exactly when it has not reached a listed image. */
  lemma ChainsEndAtBases(stages: seq<Option<From>>, chain: seq<nat>)
    requires Chain(stages, chain)
    ensures BaseAt(stages, chain[|chain| - 1]) in Listed(stages, |stages|) <==> !GoesOn(stages, chain)
  {
    GoesOnIfDeclared(stages, chain);
    ListedExactly(stages, |stages|, BaseAt(stages, chain[|chain| - 1]));
  }

  /** Every chain goes on to a listed image; the chain of a single line is one. */
  lemma {:induction false} ChainsReachBases(stages: seq<Option<From>>, chain: seq<nat>) returns (whole: seq<nat>)
    requires Chain(stages, chain)
    ensures Chain(stages, whole) && chain <= whole && BaseAt(stages, whole[|whole| - 1]) in Listed(stages, |stages|)
    decreases chain[|chain| - 1]
  {
    ChainsEndAtBases(stages, chain);
    if GoesOn(stages, chain) {
      var j: nat :| Chain(stages, chain + [j]);
      ChainGrows(stages, chain, j);
      whole := ChainsReachBases(stages, chain + [j]);
    } else {
      whole := chain;
    }
  }

  /** No chain is longer than the lines above it allow. */
  lemma {:induction false} ChainsAreShort(stages: seq<Option<From>>, chain: seq<nat>)
    requires Chain(stages, chain)
    ensures |chain| + chain[|chain| - 1] <= chain[0] + 1
    decreases |chain|
  {
    if |chain| > 1 { ChainsAreShort(stages, chain[..|chain| - 1]); }
  }
}
