/** Entry names of a build context: normalizeTarPath (apps/api/src/build-context.ts, lines 56 to 65) and where they land. */
module TarPath {
  import opened Wrappers
  import opened Text

  predicate IsSeparator(c: char) {
    c == '/' || c == '\\'
  }

  function PieceEnd(s: string): (n: nat)
    ensures n <= |s| && (forall k | 0 <= k < n :: !IsSeparator(s[k])) && (n < |s| ==> IsSeparator(s[n]))
  {
    if s == "" || IsSeparator(s[0]) then 0 else 1 + PieceEnd(s[1..])
  }

  /** split(/[\\/]+/g), then the filter that drops empty pieces and single dots. */
  function Pieces(s: string): seq<string>
    decreases |s|
  {
    var n := PieceEnd(s);
    (if n > 0 && s[..n] != "." then [s[..n]] else []) + if n == |s| then [] else Pieces(s[n + 1..])
  }

  /** join("/") */
  function Join(pieces: seq<string>): string {
    if pieces == [] then "" else if |pieces| == 1 then pieces[0] else pieces[0] + "/" + Join(pieces[1..])
  }

  predicate OccursAt(s: string, t: string, i: nat) {
    i + |t| <= |s| && s[i..i + |t|] == t
  }

  predicate Includes(s: string, t: string) {
    exists i: nat | i <= |s| :: OccursAt(s, t, i)
  }

  /** normalizeTarPath; None where it throws. */
  function Normalize(value: string): Option<string> {
    var normalized := Join(Pieces(value));
    if normalized == "" || normalized == ".." || StartsWith(normalized, "../") || Includes(normalized, "/../") || StartsWith(value, "/")
    then None
    else Some(normalized)
  }

  predicate GoodPiece(p: string) {
    p != "" && p != "." && '/' !in p && '\\' !in p
  }

  predicate Good(pieces: seq<string>) {
    forall k | 0 <= k < |pieces| :: GoodPiece(pieces[k])
  }

  /** Not empty, and ".." nowhere but at the end of something longer. */
  predicate Acceptable(pieces: seq<string>) {
    pieces != [] && pieces != [".."] && forall k | 0 <= k < |pieces| - 1 :: pieces[k] != ".."
  }

  lemma {:induction false} PiecesAreGood(s: string)
    ensures Good(Pieces(s))
    decreases |s|
  {
    var n := PieceEnd(s);
    assert forall c | c in s[..n] :: !IsSeparator(c);
    if n < |s| { PiecesAreGood(s[n + 1..]); }
  }

  lemma PieceEndAt(s: string, n: nat)
    requires n <= |s| && (forall k | 0 <= k < n :: !IsSeparator(s[k])) && (n < |s| ==> IsSeparator(s[n]))
    ensures PieceEnd(s) == n
  {}

  /** Splitting what was joined gives the pieces back. */
  lemma {:induction false} PiecesOfJoin(pieces: seq<string>)
    requires Good(pieces)
    ensures Pieces(Join(pieces)) == pieces
    decreases |pieces|
  {
    var s := Join(pieces);
    if pieces != [] {
      var p := pieces[0];
      assert GoodPiece(p);
      assert forall k | 0 <= k < |p| :: s[k] == p[k] && p[k] in p;
      PieceEndAt(s, |p|);
      assert s[..|p|] == p;
      if |pieces| > 1 {
        assert s[|p| + 1..] == Join(pieces[1..]);
        PiecesOfJoin(pieces[1..]);
      }
    }
  }

  /** Any components, with a slash or a backslash between each two. */
  function WrittenPath(components: seq<string>, separators: seq<char>): string
    requires |components| == |separators| + 1
  {
    if separators == [] then components[0]
    else components[0] + [separators[0]] + WrittenPath(components[1..], separators[1..])
  }

  /** The components that are not empty and not a dot. */
  function Kept(components: seq<string>): seq<string> {
    if components == [] then []
    else (if components[0] != "" && components[0] != "." then [components[0]] else []) + Kept(components[1..])
  }

  /** Splitting a path, however it is written, leaves its components but the empty ones and the dots. */
  lemma {:induction false} PiecesOfWritten(components: seq<string>, separators: seq<char>)
    requires |components| == |separators| + 1 && forall k | 0 <= k < |separators| :: IsSeparator(separators[k])
    requires forall k | 0 <= k < |components| :: forall c | c in components[k] :: !IsSeparator(c)
    ensures Pieces(WrittenPath(components, separators)) == Kept(components)
    decreases |components|
  {
    var p, s := components[0], WrittenPath(components, separators);
    assert forall k | 0 <= k < |p| :: s[k] == p[k] && p[k] in p;
    PieceEndAt(s, |p|);
    assert s[..|p|] == p;
    if separators == [] {
      assert components[1..] == [];
    } else {
      assert s[|p| + 1..] == WrittenPath(components[1..], separators[1..]);
      PiecesOfWritten(components[1..], separators[1..]);
    }
  }

  /** For instance a leading "./", a backslash and a doubled slash. */
  lemma DotsAndSlashes(a: string, b: string)
    requires GoodPiece(a) && GoodPiece(b)
    ensures Pieces("./" + b) == [b]
    ensures Pieces(a + "\\" + b) == [a, b]
    ensures Pieces(a + "//" + b) == [a, b]
  {
    assert forall c | c in a + b :: !IsSeparator(c);
    assert "./" + b == "." + ['/'] + b;
    assert a + "\\" + b == a + ['\\'] + b;
    assert a + "//" + b == a + ['/'] + ("" + ['/'] + b);
    PiecesOfOne(b);
    PiecesBehind(".", '/', b);
    PiecesBehind(a, '\\', b);
    PiecesBehind("", '/', b);
    PiecesBehind(a, '/', "" + ['/'] + b);
  }

  lemma PiecesOfOne(p: string)
    requires GoodPiece(p)
    ensures Pieces(p) == [p]
  {
    assert forall c | c in p :: !IsSeparator(c);
    PieceEndAt(p, |p|);
    assert p[..|p|] == p;
  }

  lemma PiecesBehind(p: string, separator: char, rest: string)
    requires IsSeparator(separator) && forall c | c in p :: !IsSeparator(c)
    ensures Pieces(p + [separator] + rest) == (if p == "" || p == "." then [] else [p]) + Pieces(rest)
  {
    var s := p + [separator] + rest;
    assert forall k | 0 <= k < |p| :: s[k] == p[k] && p[k] in p;
    PieceEndAt(s, |p|);
    assert s[..|p|] == p && s[|p| + 1..] == rest;
  }

  // The checks on the joined string, said of the pieces.

  lemma JoinParts(pieces: seq<string>)
    requires |pieces| > 1
    ensures var p, s := pieces[0], Join(pieces);
            |s| == |p| + 1 + |Join(pieces[1..])| && s[..|p|] == p && s[|p|] == '/' && s[|p| + 1..] == Join(pieces[1..])
  {}

  lemma JoinEmpty(pieces: seq<string>)
    requires Good(pieces)
    ensures Join(pieces) == "" <==> pieces == []
  {
    if pieces != [] { assert GoodPiece(pieces[0]); }
  }

  lemma JoinIsDots(pieces: seq<string>)
    requires Good(pieces)
    ensures Join(pieces) == ".." <==> pieces == [".."]
  {
    if |pieces| > 1 {
      JoinParts(pieces);
      assert '/' in Join(pieces);
    }
  }

  lemma JoinStartsWithDots(pieces: seq<string>)
    requires Good(pieces)
    ensures StartsWith(Join(pieces), "../") <==> |pieces| > 1 && pieces[0] == ".."
  {
    if |pieces| > 1 {
      JoinParts(pieces);
      assert GoodPiece(pieces[0]);
      StartsWithDots(pieces[0], Join(pieces[1..]));
    } else if |pieces| == 1 {
      assert GoodPiece(pieces[0]);
      SlashInside(pieces[0]);
    }
  }

  lemma SlashInside(s: string)
    ensures StartsWith(s, "../") ==> '/' in s
  {
    if StartsWith(s, "../") { assert s[2] == '/'; }
  }

  lemma StartsWithDots(p: string, t: string)
    requires GoodPiece(p)
    ensures StartsWith(p + "/" + t, "../") <==> p == ".."
  {
    var s := p + "/" + t;
    if StartsWith(s, "../") {
      FirstAt(s, '/', |p|);
      FirstAt(s, '/', 2);
      assert p == s[..2] == "..";
    }
  }

  ghost predicate InnerDots(pieces: seq<string>) {
    exists k :: 0 < k < |pieces| - 1 && pieces[k] == ".."
  }

  lemma DotsComeLater(p: string, t: string, i: nat)
    requires '/' !in p && OccursAt(p + "/" + t, "/../", i)
    ensures StartsWith(t, "../") || Includes(t, "/../")
  {
    var s := p + "/" + t;
    assert s[i] == s[i..i + 4][0] == '/';
    assert p == s[..|p|];
    var j := i - |p|;
    if j == 0 {
      assert t[..3] == s[i..i + 4][1..];
    } else {
      assert t[j - 1..j + 3] == s[i..i + 4];
      assert OccursAt(t, "/../", j - 1);
    }
  }

  /** "/../" occurs where a piece ends or later. */
  lemma IncludesDotsLater(p: string, t: string)
    requires '/' !in p
    ensures Includes(p + "/" + t, "/../") <==> StartsWith(t, "../") || Includes(t, "/../")
  {
    var s := p + "/" + t;
    forall i: nat | OccursAt(s, "/../", i) ensures StartsWith(t, "../") || Includes(t, "/../") {
      DotsComeLater(p, t, i);
    }
    if StartsWith(t, "../") {
      assert s[|p|..|p| + 4] == "/" + t[..3];
      assert OccursAt(s, "/../", |p|);
    }
    forall i: nat | OccursAt(t, "/../", i) ensures Includes(s, "/../") {
      assert s[|p| + 1 + i..|p| + 1 + i + 4] == t[i..i + 4];
      assert OccursAt(s, "/../", |p| + 1 + i);
    }
  }

  lemma InnerDotsLater(pieces: seq<string>)
    requires |pieces| > 1
    ensures InnerDots(pieces) <==> (|pieces| > 2 && pieces[1] == "..") || InnerDots(pieces[1..])
  {
    var rest := pieces[1..];
    if InnerDots(pieces) {
      var k :| 0 < k < |pieces| - 1 && pieces[k] == "..";
      assert k > 1 ==> rest[k - 1] == "..";
    }
    if InnerDots(rest) {
      var k :| 0 < k < |rest| - 1 && rest[k] == "..";
      assert pieces[k + 1] == "..";
    }
  }

  lemma {:induction false} JoinIncludesDots(pieces: seq<string>)
    requires Good(pieces)
    ensures Includes(Join(pieces), "/../") <==> InnerDots(pieces)
    decreases |pieces|
  {
    if |pieces| > 1 {
      assert GoodPiece(pieces[0]);
      IncludesDotsLater(pieces[0], Join(pieces[1..]));
      JoinStartsWithDots(pieces[1..]);
      JoinIncludesDots(pieces[1..]);
      InnerDotsLater(pieces);
    } else if |pieces| == 1 {
      assert GoodPiece(pieces[0]);
      forall i: nat ensures !OccursAt(pieces[0], "/../", i) {
        assert i + 4 <= |pieces[0]| ==> pieces[0][i] == pieces[0][i..i + 4][0];
      }
    }
  }

  /** Exactly which names are accepted, and as what. */
  lemma AcceptedExactly(value: string)
    ensures Normalize(value).Some? <==> Acceptable(Pieces(value)) && !StartsWith(value, "/")
    ensures Normalize(value).Some? ==> Pieces(Normalize(value).value) == Pieces(value) && Normalize(value).value == Join(Pieces(value))
  {
    var pieces := Pieces(value);
    PiecesAreGood(value);
    PiecesOfJoin(pieces);
    JoinEmpty(pieces);
    JoinIsDots(pieces);
    JoinStartsWithDots(pieces);
    JoinIncludesDots(pieces);
  }

  /** Normalising twice is normalising once. */
  lemma NormalizeIdempotent(value: string)
    requires Normalize(value).Some?
    ensures Normalize(Normalize(value).value) == Normalize(value)
  {
    AcceptedExactly(value);
    var normalized := Normalize(value).value;
    AcceptedExactly(normalized);
    PiecesAreGood(value);
    var p := Pieces(value)[0];
    assert GoodPiece(p) && normalized[0] == p[0] && p[0] in p;
  }

  // Where a name lands.

  /** path.resolve of a relative name under an absolute directory, by components. */
  function Resolve(root: seq<string>, pieces: seq<string>): seq<string> {
    if pieces == [] then root
    else
      var base := Resolve(root, pieces[..|pieces| - 1]);
      var last := pieces[|pieces| - 1];
      if last != ".." then base + [last] else if base == [] then [] else base[..|base| - 1]
  }

  lemma {:induction false} ResolvePlain(root: seq<string>, pieces: seq<string>)
    requires forall k | 0 <= k < |pieces| :: pieces[k] != ".."
    ensures Resolve(root, pieces) == root + pieces
  {
    if pieces != [] { ResolvePlain(root, pieces[..|pieces| - 1]); }
  }

  /** Accepted names resolve to the root or below it; a final ".." takes back the piece before it. */
  lemma {:induction false} ResolveStaysBelow(root: seq<string>, pieces: seq<string>)
    requires Acceptable(pieces)
    ensures Resolve(root, pieces) ==
            root + if pieces[|pieces| - 1] == ".." then pieces[..|pieces| - 2] else pieces
  {
    var k := |pieces| - 1;
    ResolvePlain(root, pieces[..k]);
    if pieces[k] == ".." {
      assert (root + pieces[..k])[..|root| + k - 1] == root + pieces[..k - 1];
    } else {
      ResolvePlain(root, pieces);
    }
  }

  function Absolute(components: seq<string>): string {
    "/" + Join(components)
  }

  /** The extractor's own check on the resolved target. */
  predicate TargetAllowed(root: string, target: string) {
    StartsWith(target, root + "/") || target == root
  }

  lemma {:induction false} JoinConcat(a: seq<string>, b: seq<string>)
    requires a != [] && b != []
    ensures Join(a + b) == Join(a) + "/" + Join(b)
    decreases |a|
  {
    assert (a + b)[1..] == a[1..] + b;
    if |a| > 1 { JoinConcat(a[1..], b); }
  }

  lemma AllowedBelow(root: seq<string>, below: seq<string>)
    requires Good(below)
    ensures TargetAllowed(Absolute(root), Absolute(root + below)) <==> root != [] || below == []
  {
    if below == [] {
      assert root + below == root;
    } else if root != [] {
      JoinConcat(root, below);
      assert Absolute(root + below) == Absolute(root) + "/" + Join(below);
    } else {
      assert root + below == below && GoodPiece(below[0]);
      assert Absolute(below)[1] == Join(below)[0] == below[0][0];
      assert below[0][0] in below[0];
      assert Absolute([]) + "/" == "//" && Absolute([]) == "/";
    }
  }

  /**
   The second check never fires for an accepted name, unless the output directory is "/" itself: there
   it fires for every name that does not resolve to "/".
   */
  lemma SecondCheckIsRedundant(root: seq<string>, value: string)
    requires Normalize(value).Some?
    ensures var target := Resolve(root, Pieces(Normalize(value).value));
            && root <= target
            && (TargetAllowed(Absolute(root), Absolute(target)) <==> root != [] || target == [])
  {
    AcceptedExactly(value);
    PiecesAreGood(value);
    var pieces := Pieces(value);
    ResolveStaysBelow(root, pieces);
    AllowedBelow(root, if pieces[|pieces| - 1] == ".." then pieces[..|pieces| - 2] else pieces);
  }

  // Two inputs.

  lemma JoinedIsAccepted(pieces: seq<string>)
    requires Good(pieces) && Acceptable(pieces)
    ensures Normalize(Join(pieces)) == Some(Join(pieces)) && Pieces(Join(pieces)) == pieces
  {
    PiecesOfJoin(pieces);
    AcceptedExactly(Join(pieces));
    var p := pieces[0];
    assert GoodPiece(p) && Join(pieces)[0] == p[0] && p[0] in p;
  }

  lemma JoinOfThree(a: string, b: string, c: string)
    ensures Join([a, b, c]) == a + "/" + (b + "/" + c)
  {
    JoinParts([a, b, c]);
    JoinParts([b, c]);
    assert [a, b, c][1..] == [b, c] && [b, c][1..] == [c] && Join([c]) == c;
    assert Join([b, c]) == b + "/" + c;
    assert Join([a, b, c]) == a + "/" + Join([b, c]);
  }

  /** "a/b/.." is accepted as it is, and lands on "a". */
  lemma DotsAtTheEnd(root: seq<string>)
    ensures Normalize("a/b/..") == Some("a/b/..") && Resolve(root, Pieces("a/b/..")) == root + ["a"]
  {
    var pieces := ["a", "b", ".."];
    JoinOfThree("a", "b", "..");
    assert Join(pieces) == "a/b/..";
    JoinedIsAccepted(pieces);
    ResolveStaysBelow(root, pieces);
  }

  /** In the output directory "/" even the file "a" is refused by the second check. */
  lemma RootRefusesFiles()
    ensures Normalize("a") == Some("a") && !TargetAllowed(Absolute([]), Absolute(Resolve([], Pieces("a"))))
  {
    assert Join(["a"]) == "a" && GoodPiece("a");
    JoinedIsAccepted(["a"]);
    SecondCheckIsRedundant([], "a");
    ResolvePlain([], ["a"]);
  }
}
