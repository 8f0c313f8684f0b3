/** The JavaScript string operations the models need. */
module Text {
  /** What \s matches and trim removes. */
  predicate IsSpace(c: char) {
    || '\t' <= c <= '\r' || c == ' ' || c == '\U{A0}' || c == '\U{1680}' || '\U{2000}' <= c <= '\U{200A}'
    || c == '\U{2028}' || c == '\U{2029}' || c == '\U{202F}' || c == '\U{205F}' || c == '\U{3000}' || c == '\U{FEFF}'
  }

  /** What . does not match. */
  predicate IsLineTerminator(c: char) {
    c == '\n' || c == '\r' || c == '\U{2028}' || c == '\U{2029}'
  }

  /** toLowerCase, of ASCII characters. */
  function LowerChar(c: char): char {
    if 'A' <= c <= 'Z' then c - 'A' + 'a' else c
  }

  predicate StartsWith(s: string, prefix: string) {
    prefix <= s
  }

  function IndexOf(s: string, c: char): (i: int)
    ensures -1 <= i < |s|
    ensures i == -1 ==> c !in s
    ensures 0 <= i ==> s[i] == c && c !in s[..i]
  {
    if s == "" then -1
    else if s[0] == c then 0
    else
      var rest := IndexOf(s[1..], c);
      assert forall k | 0 < k < |s| :: s[k] == s[1..][k - 1];
      if rest < 0 then -1 else rest + 1
  }

  function LastIndexOf(s: string, c: char): (i: int)
    ensures -1 <= i < |s|
    ensures 0 <= i ==> s[i] == c
    ensures forall k | i < k < |s| :: s[k] != c
  {
    if s == "" then -1
    else if s[|s| - 1] == c then |s| - 1
    else
      LastIndexOf(s[..|s| - 1], c)
  }

  lemma LastAt(s: string, c: char, i: nat)
    requires i < |s| && s[i] == c && c !in s[i + 1..]
    ensures LastIndexOf(s, c) == i
  {}

  lemma FirstAt(s: string, c: char, i: nat)
    requires i < |s| && s[i] == c && c !in s[..i]
    ensures IndexOf(s, c) == i
  {}

  function TrimStart(s: string): string {
    if s != "" && IsSpace(s[0]) then TrimStart(s[1..]) else s
  }

  function TrimEnd(s: string): string {
    if s != "" && IsSpace(s[|s| - 1]) then TrimEnd(s[..|s| - 1]) else s
  }

  function Trim(s: string): string {
    TrimEnd(TrimStart(s))
  }

  predicate Trimmed(s: string) {
    s == "" || (!IsSpace(s[0]) && !IsSpace(s[|s| - 1]))
  }

  lemma {:induction false} TrimEndKeepsStart(s: string)
    requires s != "" && !IsSpace(s[0])
    ensures TrimEnd(s) != "" && TrimEnd(s)[0] == s[0] && !IsSpace(TrimEnd(s)[|TrimEnd(s)| - 1])
  {
    if IsSpace(s[|s| - 1]) {
      TrimEndKeepsStart(s[..|s| - 1]);
    }
  }

  lemma {:induction false} TrimStartIsTrimmed(s: string)
    ensures TrimStart(s) == "" || !IsSpace(TrimStart(s)[0])
  {
    if s != "" && IsSpace(s[0]) { TrimStartIsTrimmed(s[1..]); }
  }

  lemma TrimIsTrimmed(s: string)
    ensures Trimmed(Trim(s))
  {
    TrimStartIsTrimmed(s);
    if TrimStart(s) != "" { TrimEndKeepsStart(TrimStart(s)); }
  }

  lemma TrimOfTrimmed(s: string)
    requires Trimmed(s)
    ensures Trim(s) == s
  {}

  predicate Blank(s: string) {
    forall c | c in s :: IsSpace(c)
  }

  lemma {:induction false} TrimStartBlank(blank: string, s: string)
    requires Blank(blank) && s != "" && !IsSpace(s[0])
    ensures TrimStart(blank + s) == s
    decreases |blank|
  {
    if blank == "" {
      assert blank + s == s;
    } else {
      assert blank[0] in blank;
      assert (blank + s)[1..] == blank[1..] + s;
      TrimStartBlank(blank[1..], s);
    }
  }

  lemma {:induction false} TrimEndBlank(s: string, blank: string)
    requires Blank(blank) && s != "" && !IsSpace(s[|s| - 1])
    ensures TrimEnd(s + blank) == s
    decreases |blank|
  {
    if blank == "" {
      assert s + blank == s;
    } else {
      var k := |blank| - 1;
      assert blank[k] in blank;
      assert (s + blank)[..|s + blank| - 1] == s + blank[..k];
      TrimEndBlank(s, blank[..k]);
    }
  }

  /** Where the first run of spaces begins, and where a run that starts at the front ends. */
  function WordEnd(s: string): (n: nat)
    ensures n <= |s| && (forall k | 0 <= k < n :: !IsSpace(s[k])) && (n < |s| ==> IsSpace(s[n]))
  {
    if s == "" || IsSpace(s[0]) then 0 else 1 + WordEnd(s[1..])
  }

  function SpaceEnd(s: string): (n: nat)
    ensures n <= |s| && (forall k | 0 <= k < n :: IsSpace(s[k])) && (n < |s| ==> !IsSpace(s[n]))
  {
    if s == "" || !IsSpace(s[0]) then 0 else 1 + SpaceEnd(s[1..])
  }

  /** split(/\s+/): a space at either end leaves an empty word there. */
  function SplitSpaces(s: string): (words: seq<string>)
    ensures words != []
    decreases |s|
  {
    var w := WordEnd(s);
    if w == |s| then [s] else [s[..w]] + SplitSpaces(s[w + SpaceEnd(s[w..])..])
  }

  ghost predicate Solid(words: seq<string>) {
    forall w, c | w in words && c in w :: !IsSpace(c)
  }

  lemma {:induction false} SplitIsSolid(s: string)
    ensures Solid(SplitSpaces(s))
    decreases |s|
  {
    var w := WordEnd(s);
    assert forall c | c in s[..w] :: !IsSpace(c);
    if w < |s| {
      var rest := s[w + SpaceEnd(s[w..])..];
      SplitIsSolid(rest);
      assert SplitSpaces(s) == [s[..w]] + SplitSpaces(rest);
    }
  }

  // Decimal numbers.

  function Digit(d: nat): char
    requires d < 10
  {
    '0' + d as char
  }

  function Decimal(n: nat): string {
    if n < 10 then [Digit(n)] else Decimal(n / 10) + [Digit(n % 10)]
  }

  predicate IsDigit(c: char) {
    '0' <= c <= '9'
  }

  function Number(digits: string): nat
    requires forall c | c in digits :: IsDigit(c)
  {
    if digits == "" then 0
    else
      var last := digits[|digits| - 1];
      assert last in digits;
      assert IsDigit(last);
      Number(digits[..|digits| - 1]) * 10 + (last as int - '0' as int)
  }

  lemma {:induction false} NumberOfDecimal(n: nat)
    ensures forall c | c in Decimal(n) :: IsDigit(c)
    ensures Number(Decimal(n)) == n
    ensures |Decimal(n)| >= 1 && (n < 100 ==> |Decimal(n)| <= 2) && (n < 1000 ==> |Decimal(n)| <= 3)
    decreases n
  {
    if n >= 10 {
      NumberOfDecimal(n / 10);
      assert Decimal(n)[..|Decimal(n)| - 1] == Decimal(n / 10);
    } else {
      assert [Digit(n)][..0] == "";
    }
  }

  lemma DecimalInjective(m: nat, n: nat)
    requires Decimal(m) == Decimal(n)
    ensures m == n
  {
    NumberOfDecimal(m);
    NumberOfDecimal(n);
  }
}
