/**
 Image references as one writes them, and what the parser makes of them, field by field
 (apps/api/src/registry.ts, lines 23 to 52).
 */
module WrittenReference {
  import opened Wrappers
  import opened Text
  import opened ImageReference

  /** Tag and digest are optional, and so is the registry. */
  datatype Reference = Reference(registry: Option<string>, components: seq<string>, tag: Option<string>, digest: Option<string>)

  /** Characters of a component or a tag. */
  predicate Plain(s: string) {
    s != "" && forall c | c in s :: c != '/' && c != ':' && c != '@' && !IsSpace(c)
  }

  /** A host name: it has a dot or a port, or is "localhost". */
  predicate IsHost(s: string) {
    && s != "" && (forall c | c in s :: c != '/' && c != '@' && !IsSpace(c))
    && ('.' in s || ':' in s || s == "localhost")
  }

  predicate IsDigest(s: string) {
    s != "" && forall c | c in s :: c != '@' && !IsSpace(c)
  }

  /** Without a registry the first of several components must not look like one. */
  ghost predicate Legal(r: Reference) {
    && r.components != [] && (forall k | 0 <= k < |r.components| :: Plain(r.components[k]))
    && (r.registry.Some? ==> IsHost(r.registry.value))
    && (r.registry.None? && |r.components| > 1 ==> '.' !in r.components[0] && r.components[0] != "localhost")
    && (r.tag.Some? ==> Plain(r.tag.value))
    && (r.digest.Some? ==> IsDigest(r.digest.value))
  }

  function Slashed(components: seq<string>): string {
    if components == [] then ""
    else if |components| == 1 then components[0]
    else components[0] + "/" + Slashed(components[1..])
  }

  function WithTag(path: string, tag: Option<string>): string {
    if tag.Some? then path + ":" + tag.value else path
  }

  /** Registry, path and tag. */
  function NameOf(r: Reference): string {
    var tagged := WithTag(Slashed(r.components), r.tag);
    if r.registry.Some? then r.registry.value + "/" + tagged else tagged
  }

  function WrittenOf(r: Reference): string {
    if r.digest.Some? then NameOf(r) + "@" + r.digest.value else NameOf(r)
  }

  // Parts of a name.

  lemma {:induction false} SlashedParts(components: seq<string>)
    requires components != [] && forall k | 0 <= k < |components| :: Plain(components[k])
    ensures var s := Slashed(components);
            && s != "" && (forall c | c in s :: c != ':' && c != '@' && !IsSpace(c))
            && ('/' in s <==> |components| > 1)
            && (|components| > 1 ==> |components[0]| < |s| && s[|components[0]|] == '/' && s[..|components[0]|] == components[0])
    decreases |components|
  {
    assert Plain(components[0]);
    if |components| > 1 {
      SlashedParts(components[1..]);
      var s := Slashed(components);
      assert s == components[0] + "/" + Slashed(components[1..]);
      assert s[|components[0]|] == '/';
    }
  }

  lemma TrimAround(before: string, s: string, after: string)
    requires Blank(before) && Blank(after) && s != "" && Trimmed(s)
    ensures Trim(before + s + after) == s
  {
    assert before + s + after == before + (s + after);
    TrimStartBlank(before, s + after);
    TrimEndBlank(s, after);
  }

  /** A name has no "@" and no spaces. */
  lemma NameChars(r: Reference)
    requires Legal(r)
    ensures NameOf(r) != "" && forall c | c in NameOf(r) :: c != '@' && !IsSpace(c)
  {
    SlashedParts(r.components);
  }

  lemma WrittenChars(r: Reference)
    requires Legal(r)
    ensures var s := WrittenOf(r); s != "" && Trimmed(s) && forall c | c in s :: !IsSpace(c)
  {
    NameChars(r);
    var s := WrittenOf(r);
    assert s[0] in s && s[|s| - 1] in s;
  }

  lemma NameAndDigest(r: Reference, before: string, after: string)
    requires Legal(r) && Blank(before) && Blank(after)
    ensures var input := before + WrittenOf(r) + after;
            && Trim(input) == WrittenOf(r) && NamePart(input) == NameOf(r)
            && DigestPart(input) == if r.digest.Some? then r.digest.value else ""
  {
    var s := WrittenOf(r);
    WrittenChars(r);
    NameChars(r);
    TrimAround(before, s, after);
    if r.digest.Some? {
      assert s[|NameOf(r)| + 1..] == r.digest.value && s[..|NameOf(r)|] == NameOf(r);
      assert '@' !in r.digest.value;
      LastAt(s, '@', |NameOf(r)|);
    } else {
      assert '@' !in s;
    }
  }

  /** Where the registry ends. */
  lemma RegistryRead(r: Reference)
    requires Legal(r)
    ensures Registry(NameOf(r)) == r.registry
    ensures TaggedRepository(NameOf(r)) == WithTag(Slashed(r.components), r.tag)
  {
    var name := NameOf(r);
    var tagged := WithTag(Slashed(r.components), r.tag);
    SlashedParts(r.components);
    if r.registry.Some? {
      var host := r.registry.value;
      assert name[..|host|] == host && name[|host| + 1..] == tagged;
      FirstAt(name, '/', |host|);
    } else if |r.components| > 1 {
      var first := r.components[0];
      assert Plain(first);
      assert name[..|first|] == first;
      FirstAt(name, '/', |first|);
    } else {
      assert '/' !in name by { assert r.tag.Some? ==> Plain(r.tag.value); }
    }
  }

  /** Where the tag begins. */
  lemma TagRead(r: Reference)
    requires Legal(r)
    ensures var tagged := WithTag(Slashed(r.components), r.tag);
            && Repository(tagged) == Slashed(r.components)
            && (HasTag(tagged) <==> r.tag.Some?)
            && (r.tag.Some? ==> tagged[LastIndexOf(tagged, ':') + 1..] == r.tag.value)
  {
    var path := Slashed(r.components);
    var tagged := WithTag(path, r.tag);
    SlashedParts(r.components);
    assert path[0] in path && path[|path| - 1] in path;
    TrimOfTrimmed(path);
    if r.tag.Some? {
      var tag := r.tag.value;
      assert Plain(tag);
      assert tagged[|path| + 1..] == tag && tagged[..|path|] == path;
      LastAt(tagged, ':', |path|);
      LastSlashBefore(path, tag);
    } else {
      assert ':' !in tagged;
    }
  }

  lemma LastSlashBefore(path: string, tag: string)
    requires '/' !in tag
    ensures LastIndexOf(path + ":" + tag, '/') < |path|
  {
    var i := LastIndexOf(path + ":" + tag, '/');
  }

  // The fields.

  function HostOf(r: Reference): string {
    if r.registry.Some? then r.registry.value else "registry-1.docker.io"
  }

  function ShownHost(r: Reference): string {
    if HostOf(r) == "registry-1.docker.io" then "docker.io" else HostOf(r)
  }

  function PathOf(r: Reference): string {
    if HostOf(r) == "registry-1.docker.io" && |r.components| == 1 then "library/" + Slashed(r.components) else Slashed(r.components)
  }

  function DigestOrTag(r: Reference): string {
    if r.digest.Some? then r.digest.value else if r.tag.Some? then r.tag.value else "latest"
  }

  lemma HostRead(r: Reference)
    requires Legal(r)
    ensures RegistryOf(NameOf(r)) == HostOf(r) && DisplayOf(RegistryOf(NameOf(r))) == ShownHost(r)
  {
    RegistryRead(r);
  }

  lemma PathRead(r: Reference)
    requires Legal(r)
    ensures RepositoryOf(NameOf(r)) == PathOf(r) != ""
  {
    HostRead(r);
    RegistryRead(r);
    TagRead(r);
    SlashedParts(r.components);
  }

  lemma ReferenceRead(r: Reference)
    requires Legal(r)
    ensures ReferenceOf(NameOf(r), if r.digest.Some? then r.digest.value else "") == DigestOrTag(r) != ""
  {
    RegistryRead(r);
    TagRead(r);
    if r.tag.Some? { assert Plain(r.tag.value); }
  }

  lemma FieldsGive(input: string, name: string, digest: string, host: string, path: string, reference: string)
    requires Trim(input) != "" && NamePart(input) == name && DigestPart(input) == digest
    requires RegistryOf(name) == host && RepositoryOf(name) == path != "" && ReferenceOf(name, digest) == reference != ""
    ensures Parse(input) == Ok(Parsed(Trim(input), host, DisplayOf(host), path, reference, digest != ""))
  {}

  /**
   The parser's answer for a written reference, with any blanks around it: its registry or
   registry-1.docker.io; that registry, which is shown as docker.io; its path, below library/ if it is
   one component on the default registry; and its digest, or else its tag, or else latest.
   */
  lemma ParsedAsWritten(r: Reference, before: string, after: string)
    requires Legal(r) && Blank(before) && Blank(after)
    ensures Parse(before + WrittenOf(r) + after) ==
            Ok(Parsed(WrittenOf(r), HostOf(r), ShownHost(r), PathOf(r), DigestOrTag(r), r.digest.Some?))
  {
    NameAndDigest(r, before, after);
    WrittenChars(r);
    HostRead(r);
    PathRead(r);
    ReferenceRead(r);
    FieldsGive(before + WrittenOf(r) + after, NameOf(r), if r.digest.Some? then r.digest.value else "",
               HostOf(r), PathOf(r), DigestOrTag(r));
  }

  /** A bare name, such as nginx. */
  lemma BareName(name: string)
    requires Plain(name)
    ensures Parse(name) == Ok(Parsed(name, "registry-1.docker.io", "docker.io", "library/" + name, "latest", false))
  {
    var r := Reference(None, [name], None, None);
    assert "" + WrittenOf(r) + "" == name;
    ParsedAsWritten(r, "", "");
  }

  // What is refused.

  /** Blanks, and perhaps a tag. */
  ghost predicate NothingButTag(s: string) {
    Blank(s) || exists k :: 0 <= k < |s| && s[k] == ':' && Blank(s[..k]) && '/' !in s[k + 1..] && ':' !in s[k + 1..]
  }

  /** A registry of its own with nothing behind it but blanks and perhaps a tag. */
  ghost predicate NoPath(name: string) {
    && Registry(name).Some? && Registry(name).value != "registry-1.docker.io"
    && NothingButTag(name[|Registry(name).value| + 1..])
  }

  lemma {:induction false} TrimsToNothing(s: string)
    ensures Trim(s) == "" <==> Blank(s)
  {
    if s != "" {
      if IsSpace(s[0]) {
        TrimsToNothing(s[1..]);
        assert s == [s[0]] + s[1..];
      } else {
        TrimEndKeepsStart(s);
        assert s[0] in s;
      }
    }
  }

  lemma NoRepository(tagged: string)
    ensures Repository(tagged) == "" <==> NothingButTag(tagged)
  {
    var colon := LastIndexOf(tagged, ':');
    if HasTag(tagged) {
      assert tagged[colon] in tagged && !IsSpace(':');
      TrimsToNothing(tagged[..colon]);
    } else {
      TrimsToNothing(tagged);
    }
    forall k | 0 <= k < |tagged| && tagged[k] == ':' && Blank(tagged[..k]) && '/' !in tagged[k + 1..] && ':' !in tagged[k + 1..]
      ensures HasTag(tagged) && k == colon
    {
      LastAt(tagged, ':', k);
      assert forall j | 0 <= j < k :: tagged[j] == tagged[..k][j] && tagged[j] in tagged[..k];
      assert !IsSpace('/');
    }
  }

  lemma EmptyPath(name: string)
    ensures RepositoryOf(name) == "" <==> NoPath(name)
  {
    NoRepository(TaggedRepository(name));
  }

  predicate EndsInColon(s: string) {
    s != "" && s[|s| - 1] == ':'
  }

  lemma EmptyTag(tagged: string)
    ensures HasTag(tagged) && LastIndexOf(tagged, ':') == |tagged| - 1 <==> EndsInColon(tagged)
  {
    if EndsInColon(tagged) { LastAt(tagged, ':', |tagged| - 1); }
  }

  lemma EndOfTagged(name: string)
    ensures EndsInColon(TaggedRepository(name)) <==> EndsInColon(name)
  {}

  lemma NoReference(name: string, digest: string)
    ensures ReferenceOf(name, digest) == "" <==> digest == "" && EndsInColon(name)
  {
    EmptyTag(TaggedRepository(name));
    EndOfTagged(name);
  }

  /**
   The parser refuses a reference exactly when it is blank, when it ends in a colon and has no digest, or
   when it names a registry but no path.
   */
  lemma RefusedExactly(input: string)
    ensures Parse(input).Err? <==>
            || Blank(input)
            || (DigestPart(input) == "" && EndsInColon(NamePart(input)))
            || NoPath(NamePart(input))
  {
    var name := NamePart(input);
    TrimsToNothing(input);
    NoReference(name, DigestPart(input));
    EmptyPath(name);
  }
}
