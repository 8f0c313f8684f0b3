/**
 Image references: parsing (apps/api/src/registry.ts, lines 23 to 52), printing in digest-pinned
 form and the test for it (apps/api/src/templates.ts, lines 79 to 90).
 */
module ImageReference {
  import opened Wrappers
  import opened Text

  const DEFAULT_REGISTRY := "registry-1.docker.io"

  datatype Parsed = Parsed(
    original: string, registry: string, displayRegistry: string, repository: string, reference: string, digest: bool)

  predicate HasRegistry(firstPart: string) {
    '.' in firstPart || ':' in firstPart || firstPart == "localhost"
  }

  /** The part before the digest. */
  function NamePart(input: string): string {
    var original := Trim(input);
    var at := LastIndexOf(original, '@');
    if at >= 0 then original[..at] else original
  }

  function DigestPart(input: string): string {
    var original := Trim(input);
    var at := LastIndexOf(original, '@');
    if at >= 0 then original[at + 1..] else ""
  }

  /** The explicit registry of a name, if it has one. */
  function Registry(name: string): Option<string> {
    var slash := IndexOf(name, '/');
    if slash >= 0 && HasRegistry(name[..slash]) then Some(name[..slash]) else None
  }

  /** The name without its registry: a repository and perhaps a tag. */
  function TaggedRepository(name: string): string {
    if Registry(name).Some? then name[IndexOf(name, '/') + 1..] else name
  }

  predicate HasTag(tagged: string) {
    LastIndexOf(tagged, ':') > LastIndexOf(tagged, '/')
  }

  function Repository(tagged: string): string {
    Trim(if HasTag(tagged) then tagged[..LastIndexOf(tagged, ':')] else tagged)
  }

  /** The registry a name is pulled from, and the repository with the default registry's prefix. */
  function RegistryOf(name: string): string {
    if Registry(name).Some? then Registry(name).value else DEFAULT_REGISTRY
  }

  function RepositoryOf(name: string): string {
    var repository := Repository(TaggedRepository(name));
    if RegistryOf(name) == DEFAULT_REGISTRY && '/' !in repository then "library/" + repository else repository
  }

  function ReferenceOf(name: string, digest: string): string {
    var tagged := TaggedRepository(name);
    if digest != "" then digest
    else if HasTag(tagged) then tagged[LastIndexOf(tagged, ':') + 1..]
    else "latest"
  }

  function DisplayOf(registry: string): string {
    if registry == DEFAULT_REGISTRY then "docker.io" else registry
  }

  function Parse(input: string): Result<Parsed, string> {
    var name, digest := NamePart(input), DigestPart(input);
    if Trim(input) == "" then Err("image reference is required")
    else if RepositoryOf(name) == "" || ReferenceOf(name, digest) == "" then Err("invalid image reference")
    else Ok(Parsed(Trim(input), RegistryOf(name), DisplayOf(RegistryOf(name)), RepositoryOf(name), ReferenceOf(name, digest), digest != ""))
  }

  function Print(image: Parsed, digest: string): string {
    image.displayRegistry + "/" + image.repository + "@" + digest
  }

  function DigestPinned(imageRef: string, digest: string): Result<string, string> {
    match Parse(imageRef)
    case Err(error) => Err(error)
    case Ok(image) => Ok(Print(image, digest))
  }

  /** templateNeedsDigestPinning; parsing may throw. */
  function NeedsPinning(image: string, imageDigest: Option<string>): Result<bool, string> {
    match Parse(image)
    case Err(error) => Err(error)
    case Ok(parsed) =>
      if !parsed.digest || imageDigest.None? || imageDigest.value == "" then Ok(true)
      else Ok(image != Print(parsed, imageDigest.value))
  }

  /** A digest as registries return it. */
  predicate LegalDigest(digest: string) {
    digest != "" && '@' !in digest && !IsSpace(digest[|digest| - 1])
  }

  /** The number of colons after the last slash. */
  function TailColons(s: string): nat {
    if s == "" || s[|s| - 1] == '/' then 0
    else TailColons(s[..|s| - 1]) + if s[|s| - 1] == ':' then 1 else 0
  }

  // Colons after the last slash, under the operations of the parser.

  lemma {:induction false} TailColonsTag(s: string)
    ensures HasTag(s) <==> TailColons(s) > 0
    ensures HasTag(s) ==> TailColons(s[..LastIndexOf(s, ':')]) == TailColons(s) - 1
  {
    if s != "" && s[|s| - 1] != '/' && s[|s| - 1] != ':' {
      var t := s[..|s| - 1];
      TailColonsTag(t);
      if HasTag(t) { assert s[..LastIndexOf(t, ':')] == t[..LastIndexOf(t, ':')]; }
    }
  }

  lemma {:induction false} TailColonsAfterSlash(a: string, b: string)
    ensures TailColons(a + "/" + b) == TailColons(b)
  {
    var s := a + "/" + b;
    if b != "" && b[|b| - 1] != '/' {
      assert s[..|s| - 1] == a + "/" + b[..|b| - 1];
      TailColonsAfterSlash(a, b[..|b| - 1]);
    }
  }

  lemma {:induction false} TailColonsPrefix(c: char, t: string)
    requires c != ':'
    ensures TailColons([c] + t) == TailColons(t)
  {
    var s := [c] + t;
    if t != "" && t[|t| - 1] != '/' {
      assert s[..|s| - 1] == [c] + t[..|t| - 1];
      TailColonsPrefix(c, t[..|t| - 1]);
    } else if t == "" {
      assert s[..0] == "";
    }
  }

  lemma {:induction false} TailColonsTrimStart(s: string)
    ensures TailColons(TrimStart(s)) == TailColons(s)
  {
    if s != "" && IsSpace(s[0]) {
      assert s == [s[0]] + s[1..];
      TailColonsPrefix(s[0], s[1..]);
      TailColonsTrimStart(s[1..]);
    }
  }

  lemma {:induction false} TailColonsTrimEnd(s: string)
    ensures TailColons(TrimEnd(s)) == TailColons(s)
  {
    if s != "" && IsSpace(s[|s| - 1]) { TailColonsTrimEnd(s[..|s| - 1]); }
  }

  lemma TailColonsTagged(name: string)
    ensures TailColons(TaggedRepository(name)) == TailColons(name)
  {
    if Registry(name).Some? {
      var slash := IndexOf(name, '/');
      assert name == name[..slash] + "/" + name[slash + 1..];
      TailColonsAfterSlash(name[..slash], name[slash + 1..]);
    }
  }

  lemma TailColonsRepository(tagged: string)
    ensures TailColons(Repository(tagged)) == if TailColons(tagged) > 0 then TailColons(tagged) - 1 else 0
  {
    TailColonsTag(tagged);
    var cut := if HasTag(tagged) then tagged[..LastIndexOf(tagged, ':')] else tagged;
    TailColonsTrimStart(cut);
    TailColonsTrimEnd(TrimStart(cut));
  }

  lemma TailColonsLibrary(repository: string)
    ensures TailColons("library/" + repository) == TailColons(repository)
  {
    assert "library/" + repository == "library" + "/" + repository;
    TailColonsAfterSlash("library", repository);
  }

  /** What the parser leaves after the last slash has one colon less than the name, if it had any. */
  lemma RepositoryColons(name: string)
    ensures TailColons(RepositoryOf(name)) == if TailColons(name) > 0 then TailColons(name) - 1 else 0
  {
    TailColonsTagged(name);
    TailColonsRepository(TaggedRepository(name));
    TailColonsLibrary(Repository(TaggedRepository(name)));
  }

  // Parsing what was printed.

  /** Printable: the registry is explicit and known to the parser, the repository has no spaces around it. */
  predicate Printable(image: Parsed) {
    && image.displayRegistry != "" && '/' !in image.displayRegistry && HasRegistry(image.displayRegistry)
    && image.displayRegistry != DEFAULT_REGISTRY && !IsSpace(image.displayRegistry[0])
    && Trimmed(image.repository)
  }

  lemma RepositoryTrimmed(tagged: string)
    ensures Trimmed(Repository(tagged)) && Trimmed("library/" + Repository(tagged))
  {
    TrimIsTrimmed(if HasTag(tagged) then tagged[..LastIndexOf(tagged, ':')] else tagged);
    var r := "library/" + Repository(tagged);
    assert r[|r| - 1] == if Repository(tagged) == "" then '/' else Repository(tagged)[|Repository(tagged)| - 1];
  }

  lemma RegistryStart(input: string)
    requires Registry(NamePart(input)).Some?
    ensures var registry := Registry(NamePart(input)).value;
            registry != "" && '/' !in registry && HasRegistry(registry) && !IsSpace(registry[0])
  {
    TrimIsTrimmed(input);
    assert Registry(NamePart(input)).value[0] == Trim(input)[0];
  }

  lemma ParsedIsPrintable(input: string)
    requires Parse(input).Ok?
    ensures Printable(Parse(input).value)
  {
    RepositoryTrimmed(TaggedRepository(NamePart(input)));
    if Registry(NamePart(input)).Some? { RegistryStart(input); }
  }

  lemma PartsOfPrinted(image: Parsed, digest: string)
    requires Printable(image) && LegalDigest(digest)
    ensures var s := Print(image, digest);
            && Trim(s) == s
            && NamePart(s) == image.displayRegistry + "/" + image.repository && DigestPart(s) == digest
            && Registry(NamePart(s)) == Some(image.displayRegistry)
            && TaggedRepository(NamePart(s)) == image.repository
  {
    var s := Print(image, digest);
    var name := image.displayRegistry + "/" + image.repository;
    assert s[0] == image.displayRegistry[0] && s[|s| - 1] == digest[|digest| - 1];
    TrimOfTrimmed(s);
    assert s[|name| + 1..] == digest && s[..|name|] == name;
    LastAt(s, '@', |name|);
    assert name[..|image.displayRegistry|] == image.displayRegistry;
    FirstAt(name, '/', |image.displayRegistry|);
    assert name[|image.displayRegistry| + 1..] == image.repository;
  }

  /** Printing and parsing again changes nothing exactly when no colon follows the repository's last slash. */
  lemma {:induction false} ParseOfPrint(image: Parsed, digest: string)
    requires Printable(image) && LegalDigest(digest) && image.repository != ""
    ensures var s := Print(image, digest);
            Parse(s) == Ok(Parsed(s, image.displayRegistry, image.displayRegistry, image.repository, digest, true))
            <==> TailColons(image.repository) == 0
    ensures TailColons(image.repository) > 0 ==>
              (Parse(Print(image, digest)).Ok? ==> |Parse(Print(image, digest)).value.repository| < |image.repository|)
  {
    PartsOfPrinted(image, digest);
    TailColonsTag(image.repository);
    if TailColons(image.repository) == 0 {
      TrimOfTrimmed(image.repository);
    } else {
      var cut := image.repository[..LastIndexOf(image.repository, ':')];
      TrimShrinks(cut);
    }
  }

  lemma TrimShrinks(s: string)
    ensures |Trim(s)| <= |s|
  {
    TrimStartShrinks(s);
    TrimEndShrinks(TrimStart(s));
  }

  lemma TrimStartShrinks(s: string)
    ensures |TrimStart(s)| <= |s|
  {}

  lemma TrimEndShrinks(s: string)
    ensures |TrimEnd(s)| <= |s|
  {}

  /**
   Pinning is a fixpoint of the parser: the pinned form parses back to the same display registry,
   repository and digest exactly when the name has at most one colon after its last slash.
   */
  lemma {:induction false} PinningIsAFixpoint(input: string, digest: string)
    requires Parse(input).Ok? && LegalDigest(digest)
    ensures var before := Parse(input).value;
            var pinned := DigestPinned(input, digest).value;
            (&& Parse(pinned).Ok?
             && Parse(pinned).value.displayRegistry == before.displayRegistry
             && Parse(pinned).value.repository == before.repository
             && Parse(pinned).value.reference == digest && Parse(pinned).value.digest)
            <==> TailColons(NamePart(input)) <= 1
  {
    ParsedIsPrintable(input);
    RepositoryColons(NamePart(input));
    ParseOfPrint(Parse(input).value, digest);
  }

  /** The registry that is asked is kept too, exactly when it is not the one behind docker.io. */
  lemma RegistryOfPinned(input: string, digest: string)
    requires Parse(input).Ok? && LegalDigest(digest) && Parse(DigestPinned(input, digest).value).Ok?
    ensures var before, after := Parse(input).value, Parse(DigestPinned(input, digest).value).value;
            && after.registry == after.displayRegistry == before.displayRegistry
            && (after.registry == before.registry <==> before.registry != DEFAULT_REGISTRY)
  {
    ParsedIsPrintable(input);
    PartsOfPrinted(Parse(input).value, digest);
  }

  /** Where the parser cuts an image of an organization on the default registry, with a tag. */
  lemma TaggedParts(s: string, slash: nat, colon: nat)
    requires Trimmed(s) && '@' !in s && slash < colon < |s| && s[slash] == '/' && s[colon] == ':'
    requires '/' !in s[..slash] && '/' !in s[slash + 1..] && ':' !in s[colon + 1..] && !HasRegistry(s[..slash])
    ensures NamePart(s) == s && DigestPart(s) == "" && Registry(s).None?
    ensures Repository(s) == Trim(s[..colon]) && ReferenceOf(s, "") == if colon + 1 < |s| then s[colon + 1..] else ""
  {
    TrimOfTrimmed(s);
    FirstAt(s, '/', slash);
    LastAt(s, '/', slash);
    LastAt(s, ':', colon);
  }

  lemma TaggedParsed(s: string, slash: nat, colon: nat)
    requires Trimmed(s) && '@' !in s && slash < colon < |s| - 1 && s[slash] == '/' && s[colon] == ':'
    requires '/' !in s[..slash] && '/' !in s[slash + 1..] && ':' !in s[colon + 1..] && !HasRegistry(s[..slash])
    requires Trimmed(s[..colon])
    ensures Parse(s) == Ok(Parsed(s, DEFAULT_REGISTRY, "docker.io", s[..colon], s[colon + 1..], false)) && NamePart(s) == s
  {
    TaggedParts(s, slash, colon);
    TrimOfTrimmed(s);
    TrimOfTrimmed(s[..colon]);
    assert s[..colon][slash] == '/' && '/' in s[..colon];
    ParsedByParts(s, s[..colon], s[colon + 1..]);
  }

  lemma ParsedByParts(s: string, repository: string, reference: string)
    requires Trim(s) == s != "" && NamePart(s) == s && DigestPart(s) == "" && Registry(s).None?
    requires Repository(s) == repository && '/' in repository && ReferenceOf(s, "") == reference != ""
    ensures Parse(s) == Ok(Parsed(s, DEFAULT_REGISTRY, "docker.io", repository, reference, false))
  {}

  lemma TwoColonsParsed()
    ensures var s := "host/name:a:b";
            Parse(s) == Ok(Parsed(s, DEFAULT_REGISTRY, "docker.io", "host/name:a", "b", false)) && NamePart(s) == s
  {
    var s := "host/name:a:b";
    assert s[..4] == "host" && s[5..] == "name:a:b" && s[..11] == "host/name:a" && s[12..] == "b";
    TaggedParsed(s, 4, 11);
  }

  lemma TwoTailColons()
    ensures TailColons("host/name:a") > 0 && TailColons("host/name:a:b") > 1
  {
    var s, t := "host/name:a:b", "host/name:a";
    LastAt(t, ':', 9);
    LastAt(t, '/', 4);
    TailColonsTag(t);
    LastAt(s, ':', 11);
    LastAt(s, '/', 4);
    TailColonsTag(s);
    assert s[..11] == t;
  }

  /** With two colons the pinned form is of another image: its repository, if it parses, is not "host/name:a". */
  lemma TwoColonsAreNoFixpoint(digest: string)
    requires LegalDigest(digest)
    ensures var pinned := DigestPinned("host/name:a:b", digest);
            && pinned == Ok("docker.io" + "/" + "host/name:a" + "@" + digest)
            && (Parse(pinned.value).Ok? ==> |Parse(pinned.value).value.repository| < |"host/name:a"|)
            && NeedsPinning(pinned.value, Some(digest)) != Ok(false)
  {
    TwoColonsParsed();
    TwoTailColons();
    ShorterRepository("host/name:a:b", digest);
    PinnedNeedsNoPinning("host/name:a:b", digest);
  }

  lemma ShorterRepository(input: string, digest: string)
    requires Parse(input).Ok? && LegalDigest(digest) && TailColons(Parse(input).value.repository) > 0
    ensures var pinned := DigestPinned(input, digest).value;
            Parse(pinned).Ok? ==> |Parse(pinned).value.repository| < |Parse(input).value.repository|
  {
    ParsedIsPrintable(input);
    ParseOfPrint(Parse(input).value, digest);
  }

  /** What ensureTemplateImageDigest stores needs no pinning again, under the same exact condition. */
  lemma {:induction false} PinnedNeedsNoPinning(input: string, digest: string)
    requires Parse(input).Ok? && LegalDigest(digest)
    ensures NeedsPinning(DigestPinned(input, digest).value, Some(digest)) == Ok(false) <==> TailColons(NamePart(input)) <= 1
  {
    var image := Parse(input).value;
    var pinned := DigestPinned(input, digest).value;
    ParsedIsPrintable(input);
    RepositoryColons(NamePart(input));
    ParseOfPrint(image, digest);
    PartsOfPrinted(image, digest);
    if TailColons(NamePart(input)) > 1 && Parse(pinned).Ok? {
      var again := Parse(pinned).value;
      assert again.displayRegistry == image.displayRegistry;
      assert |Print(again, digest)| < |pinned|;
    }
  }

  /** The digest kept for a reference that already has one is legal. */
  lemma ReferenceDigestIsLegal(input: string)
    requires DigestPart(input) != ""
    ensures LegalDigest(DigestPart(input))
  {
    TrimIsTrimmed(input);
    assert DigestPart(input)[|DigestPart(input)| - 1] == Trim(input)[|Trim(input)| - 1];
  }

  /** The image and digest a template has after ensureTemplateImageDigest; resolved is the registry's answer. */
  function Ensured(image: string, imageDigest: Option<string>, resolved: string): Result<(string, Option<string>), string> {
    match NeedsPinning(image, imageDigest)
    case Err(error) => Err(error)
    case Ok(needed) =>
      if !needed then Ok((image, imageDigest))
      else
        var parsed := Parse(image).value;
        var digest := if parsed.digest then parsed.reference else resolved;
        Ok((Print(parsed, digest), Some(digest)))
  }

  /**
   After pinning none is needed, and pinning again changes nothing. For a template that needed
   pinning this holds exactly when its name has at most one colon after its last slash.
   */
  lemma {:induction false} EnsuredIsStable(image: string, imageDigest: Option<string>, resolved: string)
    requires Parse(image).Ok? && LegalDigest(resolved)
    ensures Ensured(image, imageDigest, resolved).Ok?
    ensures var (pinned, digest) := Ensured(image, imageDigest, resolved).value;
            && (NeedsPinning(pinned, digest) == Ok(false) <==>
                NeedsPinning(image, imageDigest) == Ok(false) || TailColons(NamePart(image)) <= 1)
            && (NeedsPinning(pinned, digest) == Ok(false) ==> Ensured(pinned, digest, resolved) == Ok((pinned, digest)))
  {
    if NeedsPinning(image, imageDigest) == Ok(true) {
      var parsed := Parse(image).value;
      if parsed.digest {
        ReferenceDigestIsLegal(image);
        PinnedNeedsNoPinning(image, parsed.reference);
      } else {
        PinnedNeedsNoPinning(image, resolved);
      }
    }
  }
}
