/** The names of pre-pull pods (apps/api/src/template-builder.ts, lines 218 to 233). */
module PodNames {
  import opened Text

  function Lower(s: string): string {
    seq(|s|, i requires 0 <= i < |s| => LowerChar(s[i]))
  }

  predicate NameChar(c: char) {
    'a' <= c <= 'z' || '0' <= c <= '9' || c == '.' || c == '-'
  }

  /** replace(/[^a-z0-9.-]+/g, "-") */
  function Squash(s: string): string {
    if s == "" then ""
    else if NameChar(s[0]) then [s[0]] + Squash(s[1..])
    else if |s| > 1 && !NameChar(s[1]) then Squash(s[1..])
    else "-" + Squash(s[1..])
  }

  function StripStart(s: string): string {
    if s != "" && s[0] == '-' then StripStart(s[1..]) else s
  }

  function StripEnd(s: string): string {
    if s != "" && s[|s| - 1] == '-' then StripEnd(s[..|s| - 1]) else s
  }

  function Slice(s: string, n: nat): string {
    if |s| <= n then s else s[..n]
  }

  function SafeName(value: string): string {
    var stripped := Slice(StripEnd(StripStart(Squash(Lower(value)))), 54);
    if stripped == "" then "template" else stripped
  }

  function Unstripped(buildId: string, nodeName: string, index: nat): string {
    Slice("hkprep-" + Slice(SafeName(buildId), 26) + "-" + Decimal(index) + "-" + Slice(SafeName(nodeName), 20), 63)
  }

  function PrepullPodName(buildId: string, nodeName: string, index: nat): string {
    StripEnd(Unstripped(buildId, nodeName, index))
  }

  lemma {:induction false} StripStartStarts(s: string)
    ensures StripStart(s) == "" || StripStart(s)[0] != '-'
  {
    if s != "" && s[0] == '-' { StripStartStarts(s[1..]); }
  }

  lemma {:induction false} StripEndIsPrefix(s: string)
    ensures StripEnd(s) <= s
    ensures s != "" && s[0] != '-' ==> StripEnd(s) != ""
  {
    if s != "" && s[|s| - 1] == '-' { StripEndIsPrefix(s[..|s| - 1]); }
  }

  /** A safe name is never empty and never begins with a dash. */
  lemma SafeNameStarts(value: string)
    ensures 0 < |SafeName(value)| <= 54 && SafeName(value)[0] != '-'
  {
    StripStartStarts(Squash(Lower(value)));
    StripEndIsPrefix(StripStart(Squash(Lower(value))));
  }

  /** Dashes are taken from the end only as far as the last other character. */
  lemma {:induction false} StripEndStops(p: string, t: string)
    requires t != "" && t[0] != '-'
    ensures StripEnd(p + t) == p + StripEnd(t) && StripEnd(t) != "" && StripEnd(t)[0] == t[0]
  {
    var s := p + t;
    if t[|t| - 1] == '-' {
      assert s[..|s| - 1] == p + t[..|t| - 1];
      StripEndStops(p, t[..|t| - 1]);
    }
  }

  function Head(buildId: string): string {
    "hkprep-" + Slice(SafeName(buildId), 26) + "-"
  }

  /** The index survives cutting and stripping, with a dash and more of the name behind it. */
  lemma NameKeepsIndex(buildId: string, nodeName: string, index: nat) returns (rest: string)
    requires |Decimal(index)| <= 27
    ensures PrepullPodName(buildId, nodeName, index) == Head(buildId) + Decimal(index) + "-" + rest
    ensures |PrepullPodName(buildId, nodeName, index)| <= 63
  {
    SafeNameStarts(buildId);
    SafeNameStarts(nodeName);
    var front := Head(buildId) + Decimal(index) + "-";
    assert |Head(buildId)| <= 34;
    var tail := Slice(Slice(SafeName(nodeName), 20), 63 - |front|);
    assert Unstripped(buildId, nodeName, index) == front + tail;
    StripEndStops(front, tail);
    StripEndIsPrefix(front + tail);
    rest := StripEnd(tail);
  }

  lemma DigitsEndAtDash(a: string, b: string, x: string, y: string)
    requires '-' !in a && '-' !in b && a + "-" + x == b + "-" + y
    ensures a == b
  {
    var s, t := a + "-" + x, b + "-" + y;
    assert s[..|a|] == a && t[..|b|] == b;
    FirstAt(s, '-', |a|);
    FirstAt(t, '-', |b|);
  }

  lemma SamePrefix(head: string, s: string, t: string)
    requires head + s == head + t
    ensures s == t
  {
    assert s == (head + s)[|head|..] && t == (head + t)[|head|..];
  }

  /** Two nodes never share a pod name, whatever they are called. */
  lemma NamesAreDistinct(buildId: string, nodeA: string, a: nat, nodeB: string, b: nat)
    requires a != b && |Decimal(a)| <= 27 && |Decimal(b)| <= 27
    ensures PrepullPodName(buildId, nodeA, a) != PrepullPodName(buildId, nodeB, b)
  {
    var x := NameKeepsIndex(buildId, nodeA, a);
    var y := NameKeepsIndex(buildId, nodeB, b);
    if PrepullPodName(buildId, nodeA, a) == PrepullPodName(buildId, nodeB, b) {
      SameIndex(Head(buildId), a, x, b, y);
    }
  }

  lemma SameIndex(head: string, a: nat, x: string, b: nat, y: string)
    requires head + Decimal(a) + "-" + x == head + Decimal(b) + "-" + y
    ensures a == b
  {
    var s, t := Decimal(a) + "-" + x, Decimal(b) + "-" + y;
    assert head + s == head + Decimal(a) + "-" + x && head + t == head + Decimal(b) + "-" + y;
    SamePrefix(head, s, t);
    NumberOfDecimal(a);
    NumberOfDecimal(b);
    DigitsEndAtDash(Decimal(a), Decimal(b), x, y);
    DecimalInjective(a, b);
  }

  function Power10(n: nat): nat {
    if n == 0 then 1 else 10 * Power10(n - 1)
  }

  lemma {:induction false} DecimalLength(index: nat, n: nat)
    requires n > 0 && index < Power10(n)
    ensures |Decimal(index)| <= n
    decreases n
  {
    if n > 1 && index >= 10 {
      DecimalLength(index / 10, n - 1);
    }
  }

  /** The names of all the pods of a pre-pull, for any node count below 10^27. */
  lemma AllNamesAreDistinct(buildId: string, nodes: seq<string>)
    requires |nodes| <= Power10(27)
    ensures forall i, j | 0 <= i < j < |nodes| :: PrepullPodName(buildId, nodes[i], i) != PrepullPodName(buildId, nodes[j], j)
    ensures forall i | 0 <= i < |nodes| :: |PrepullPodName(buildId, nodes[i], i)| <= 63
  {
    forall i | 0 <= i < |nodes| ensures |Decimal(i)| <= 27 && |PrepullPodName(buildId, nodes[i], i)| <= 63 {
      DecimalLength(i, 27);
      var _ := NameKeepsIndex(buildId, nodes[i], i);
    }
    forall i, j | 0 <= i < j < |nodes| ensures PrepullPodName(buildId, nodes[i], i) != PrepullPodName(buildId, nodes[j], j) {
      DecimalLength(i, 27);
      DecimalLength(j, 27);
      NamesAreDistinct(buildId, nodes[i], i, nodes[j], j);
    }
  }

  // What names are made of.

  ghost predicate NameChars(s: string) {
    forall c | c in s :: NameChar(c)
  }

  lemma {:induction false} SquashChars(s: string)
    ensures NameChars(Squash(s))
  {
    if s != "" { SquashChars(s[1..]); }
  }

  lemma {:induction false} StripStartChars(s: string)
    requires NameChars(s)
    ensures NameChars(StripStart(s))
  {
    if s != "" && s[0] == '-' { StripStartChars(s[1..]); }
  }

  lemma PrefixChars(s: string, t: string)
    requires NameChars(s) && t <= s
    ensures NameChars(t)
  {
    assert forall k | 0 <= k < |t| :: t[k] == s[k] && s[k] in s;
  }

  lemma SafeNameChars(value: string)
    ensures NameChars(SafeName(value))
  {
    var squashed := Squash(Lower(value));
    SquashChars(Lower(value));
    StripStartChars(squashed);
    StripEndIsPrefix(StripStart(squashed));
    PrefixChars(StripStart(squashed), StripEnd(StripStart(squashed)));
    PrefixChars(StripEnd(StripStart(squashed)), Slice(StripEnd(StripStart(squashed)), 54));
  }

  lemma {:induction false} SquashKeeps(s: string)
    requires NameChars(s)
    ensures Squash(s) == s
  {
    if s != "" {
      assert s[0] in s;
      SquashKeeps(s[1..]);
    }
  }

  /** A name of at most 54 legal characters that does not begin or end with a dash is safe as it is. */
  lemma SafeNamesStay(s: string)
    requires NameChars(s) && 0 < |s| <= 54 && s[0] != '-' && s[|s| - 1] != '-'
    ensures SafeName(s) == s
  {
    forall k | 0 <= k < |s| ensures LowerChar(s[k]) == s[k] { assert s[k] in s; }
    assert Lower(s) == s;
    SquashKeeps(s);
  }

  lemma JoinedChars(a: string, b: string)
    requires NameChars(a) && NameChars(b)
    ensures NameChars(a + b)
  {}

  /** Pod names have lower-case letters, digits, dots and dashes only. */
  lemma PodNameChars(buildId: string, nodeName: string, index: nat)
    ensures NameChars(PrepullPodName(buildId, nodeName, index))
  {
    SafeNameChars(buildId);
    SafeNameChars(nodeName);
    NumberOfDecimal(index);
    PrefixChars(SafeName(buildId), Slice(SafeName(buildId), 26));
    PrefixChars(SafeName(nodeName), Slice(SafeName(nodeName), 20));
    assert NameChars("hkprep-") && NameChars("-") && NameChars(Decimal(index));
    var first := "hkprep-" + Slice(SafeName(buildId), 26);
    var whole := first + "-" + Decimal(index) + "-" + Slice(SafeName(nodeName), 20);
    JoinedChars("hkprep-", Slice(SafeName(buildId), 26));
    JoinedChars(first, "-");
    JoinedChars(first + "-", Decimal(index));
    JoinedChars(first + "-" + Decimal(index), "-");
    JoinedChars(first + "-" + Decimal(index) + "-", Slice(SafeName(nodeName), 20));
    PrefixChars(whole, Slice(whole, 63));
    StripEndIsPrefix(Unstripped(buildId, nodeName, index));
    PrefixChars(Unstripped(buildId, nodeName, index), PrepullPodName(buildId, nodeName, index));
  }
}
