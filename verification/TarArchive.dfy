/**
 Writing members in the ustar Interchange Format of IEEE Std 1003.1-2017, pax utility, and reading them
 back by the walk (apps/api/src/build-context.ts, lines 46 to 90).
 */
module TarArchive {
  import opened Wrappers
  import opened Text
  import opened TarPath
  import opened TarHeader
  import opened TarWalk

  /**
   A member of an archive. stop ends the size field, and fill is whatever the header holds in the fields
   the walk does not look at: mode, owner, time, checksum, link name, magic, device.
   */
  datatype Member = Member(prefix: string, name: string, flag: Byte, data: seq<Byte>, stop: Byte, fill: seq<Byte>)

  predicate Plain(s: string, limit: nat) {
    |s| <= limit && forall c | c in s :: 0 < c as int < 128
  }

  predicate Named(m: Member) {
    Plain(m.prefix, 155) && Plain(m.name, 100) && m.name != "" && m.flag < 128 && |m.fill| == 512
  }

  /** 8 to the 11th */
  const SIZES := 0x2_0000_0000

  /** Sizes of 11 octal digits, ended by a space or a NUL. */
  predicate Legal(m: Member) {
    Named(m) && |m.data| < SIZES && (m.stop == 0 || m.stop == 32)
  }

  function Power8(k: nat): (p: nat)
    ensures p > 0
  {
    if k == 0 then 1 else 8 * Power8(k - 1)
  }

  function OctalDigits(n: nat, k: nat): (s: string)
    ensures |s| == k && forall c | c in s :: IsOctal(c)
  {
    if k == 0 then "" else OctalDigits(n / 8, k - 1) + ['0' + (n % 8) as char]
  }

  /** Character i of a field, NUL after the end of s. */
  function FieldByte(s: string, i: nat): Byte
    requires Plain(s, |s|)
  {
    if i < |s| then assert s[i] in s; s[i] as int else 0
  }

  function HeaderByte(m: Member, sizeField: string, i: nat): Byte
    requires Named(m) && Plain(sizeField, 12) && i < 512
  {
    if i < 100 then FieldByte(m.name, i)
    else if 124 <= i < 136 then FieldByte(sizeField, i - 124)
    else if i == 156 then m.flag
    else if 345 <= i < 500 then FieldByte(m.prefix, i - 345)
    else m.fill[i]
  }

  /** A header whose size field may hold anything. */
  function HeaderWith(m: Member, sizeField: string): (header: seq<Byte>)
    requires Named(m) && Plain(sizeField, 12)
    ensures |header| == 512
  {
    seq(512, i requires 0 <= i < 512 => HeaderByte(m, sizeField, i))
  }

  function LegalSizeField(m: Member): (field: string)
    requires Legal(m)
    ensures Plain(field, 12)
  {
    var field := OctalDigits(|m.data|, 11) + if m.stop == 0 then "" else " ";
    assert forall c | c in field :: IsOctal(c) || c == ' ';
    field
  }

  function Header(m: Member): (header: seq<Byte>)
    requires Legal(m)
    ensures |header| == 512
  {
    HeaderWith(m, LegalSizeField(m))
  }

  function Zeros(n: nat): (z: seq<Byte>)
    ensures |z| == n && forall b | b in z :: b == 0
  {
    seq(n, i => 0)
  }

  function Length(m: Member): nat {
    512 + Padded(|m.data|)
  }

  /** Header, content, and zeros up to a whole number of blocks. */
  function Blocks(m: Member): (b: seq<Byte>)
    requires Legal(m)
    ensures |b| == Length(m)
  {
    Header(m) + m.data + Zeros(Padded(|m.data|) - |m.data|)
  }

  ghost predicate AllLegal(members: seq<Member>) {
    forall k | 0 <= k < |members| :: Legal(members[k])
  }

  /** The archive ends with two blocks of zeros; what follows them is not part of it. */
  function Archive(members: seq<Member>, after: seq<Byte>): seq<Byte>
    requires AllLegal(members)
  {
    if members == [] then Zeros(1024) + after else Blocks(members[0]) + Archive(members[1..], after)
  }

  function FullName(m: Member): string {
    if m.prefix == "" then m.name else m.prefix + "/" + m.name
  }

  function EntryOf(m: Member, path: string): Entry {
    Entry(path, m.flag == 0 || m.flag == 48, |m.data|, m.data)
  }

  // Fields.

  lemma {:induction false} StripPadding(s: string, padding: string)
    requires '\0' !in s && forall c | c in padding :: c == '\0'
    ensures StripNul(s + padding) == s
    decreases |s|
  {
    if s == "" {
      assert s + padding == padding;
      assert forall k | 0 <= k < |padding| :: padding[k] in padding;
      assert padding != "" ==> forall c | c in padding[1..] :: c in padding;
    } else {
      assert s[0] in s;
      assert (s + padding)[1..] == s[1..] + padding;
      StripPadding(s[1..], padding);
    }
  }

  lemma FieldRead(header: seq<Byte>, offset: nat, length: nat, s: string)
    requires offset + length <= |header| && Plain(s, length)
    requires forall i | 0 <= i < length :: header[offset + i] == FieldByte(s, i)
    ensures HeaderString(header, offset, length) == s
  {
    var padding := seq(length - |s|, i => '\0');
    assert forall c | c in s :: c != '\0';
    assert Subarray(header, offset, offset + length) == header[offset..offset + length];
    forall i | 0 <= i < length ensures Raw(header, offset, length)[i] == (s + padding)[i] {
      assert header[offset + i] == FieldByte(s, i);
    }
    assert Raw(header, offset, length) == s + padding;
    StripPadding(s, padding);
  }

  lemma NameRead(m: Member, sizeField: string)
    requires Named(m) && Plain(sizeField, 12)
    ensures RelativeName(HeaderWith(m, sizeField)) == FullName(m)
  {
    FieldRead(HeaderWith(m, sizeField), 0, 100, m.name);
    FieldRead(HeaderWith(m, sizeField), 345, 155, m.prefix);
  }

  lemma FlagRead(m: Member, sizeField: string)
    requires Named(m) && Plain(sizeField, 12)
    ensures Regular(HeaderWith(m, sizeField)) <==> m.flag == 0 || m.flag == 48
  {
    var flag := if m.flag == 0 then "" else [m.flag as char];
    FieldRead(HeaderWith(m, sizeField), 156, 1, flag);
  }

  lemma {:induction false} ValueOfDigits(n: nat, k: nat)
    requires n < Power8(k)
    ensures OctalValue(OctalDigits(n, k)) == n
  {
    if k > 0 {
      assert n / 8 < Power8(k - 1);
      ValueOfDigits(n / 8, k - 1);
      var s := OctalDigits(n, k);
      assert s[..k - 1] == OctalDigits(n / 8, k - 1);
      assert s[k - 1] == '0' + (n % 8) as char;
    }
  }

  lemma {:induction false} PrefixOfDigits(s: string)
    requires forall c | c in s :: IsOctal(c)
    ensures OctalPrefix(s) == s
  {
    if s != "" {
      assert s[0] in s;
      PrefixOfDigits(s[1..]);
    }
  }

  lemma TrimDigits(s: string, stop: string)
    requires s != "" && (forall c | c in s :: IsOctal(c)) && (stop == "" || stop == " ")
    ensures Trim(s + stop) == s
  {
    assert s[0] in s && s[|s| - 1] in s;
    assert !IsSpace(s[0]) && !IsSpace(s[|s| - 1]);
    assert TrimStart(s + stop) == s + stop;
    assert TrimEnd(s) == s;
    if stop == " " {
      assert (s + stop)[..|s + stop| - 1] == s;
    } else {
      assert s + stop == s;
    }
  }

  lemma ElevenDigits()
    ensures Power8(11) == SIZES
  {
    assert Power8(4) == 4096;
    assert Power8(8) == 4096 * 4096;
  }

  lemma SizeFieldRead(m: Member, sizeField: string)
    requires Named(m) && Plain(sizeField, 12)
    ensures HeaderString(HeaderWith(m, sizeField), 124, 12) == sizeField
  {
    FieldRead(HeaderWith(m, sizeField), 124, 12, sizeField);
  }

  lemma SizeRead(m: Member)
    requires Legal(m)
    ensures SizeField(Header(m)) == Number(|m.data|)
  {
    var digits := OctalDigits(|m.data|, 11);
    var stop := if m.stop == 0 then "" else " ";
    assert digits[0] in digits && IsOctal(digits[0]);
    SizeFieldRead(m, LegalSizeField(m));
    TrimDigits(digits, stop);
    PrefixOfDigits(digits);
    ElevenDigits();
    ValueOfDigits(|m.data|, 11);
  }

  /** No header of a member is all zeros: it has a name. */
  lemma HeaderIsNotZero(m: Member, sizeField: string)
    requires Named(m) && Plain(sizeField, 12)
    ensures exists b | b in HeaderWith(m, sizeField) :: b != 0
  {
    var header := HeaderWith(m, sizeField);
    assert m.name[0] in m.name;
    assert header[0] == m.name[0] as int && header[0] in header;
  }

  ghost predicate StandsAt(tar: seq<Byte>, offset: nat, part: seq<Byte>) {
    offset + |part| <= |tar| && tar[offset..offset + |part|] == part
  }

  /** What there is to see at a header, by its name, flag and size. */
  lemma HeaderRead(tar: seq<Byte>, offset: nat, m: Member, sizeField: string)
    requires Named(m) && Plain(sizeField, 12) && StandsAt(tar, offset, HeaderWith(m, sizeField))
    ensures LookAt(tar, offset) ==
            match Normalize(FullName(m))
            case None => Bad(UnsafePath)
            case Some(path) =>
              ContentAt(tar, offset, path, m.flag == 0 || m.flag == 48, SizeField(HeaderWith(m, sizeField)))
  {
    assert Subarray(tar, offset, offset + 512) == HeaderWith(m, sizeField);
    HeaderIsNotZero(m, sizeField);
    NameRead(m, sizeField);
    FlagRead(m, sizeField);
  }

  // Blocks and archives.

  lemma ContentRead(tar: seq<Byte>, offset: nat, m: Member, path: string)
    requires StandsAt(tar, offset + 512, m.data)
    ensures ContentAt(tar, offset, path, m.flag == 0 || m.flag == 48, Number(|m.data|)) ==
            Found(EntryOf(m, path), Some(offset + 512 + Padded(|m.data|)))
  {
    SubarrayInside(tar, offset + 512, |m.data|);
  }

  lemma BlocksParts(tar: seq<Byte>, offset: nat, m: Member)
    requires Legal(m) && StandsAt(tar, offset, Blocks(m))
    ensures StandsAt(tar, offset, Header(m)) && StandsAt(tar, offset + 512, m.data)
  {
    var blocks := Blocks(m);
    assert blocks[..512] == Header(m) && blocks[512..512 + |m.data|] == m.data;
    assert tar[offset..offset + 512] == tar[offset..offset + |blocks|][..512];
    assert tar[offset + 512..offset + 512 + |m.data|] == tar[offset..offset + |blocks|][512..512 + |m.data|];
  }

  /** What a written member is to be read as at offset. */
  function AsWritten(m: Member, offset: nat): Look
    requires Legal(m)
  {
    match Normalize(FullName(m))
    case None => Bad(UnsafePath)
    case Some(path) => Found(EntryOf(m, path), Some(offset + Length(m)))
  }

  lemma ContentAsWritten(tar: seq<Byte>, offset: nat, m: Member, look: Look)
    requires Legal(m) && StandsAt(tar, offset + 512, m.data)
    requires look ==
             match Normalize(FullName(m))
             case None => Bad(UnsafePath)
             case Some(path) => ContentAt(tar, offset, path, m.flag == 0 || m.flag == 48, Number(|m.data|))
    ensures look == AsWritten(m, offset)
  {
    if Normalize(FullName(m)).Some? { ContentRead(tar, offset, m, Normalize(FullName(m)).value); }
  }

  /** Wherever it stands, a written member is read as itself, and the walk goes on behind its blocks. */
  lemma BlocksRead(tar: seq<Byte>, offset: nat, m: Member)
    requires Legal(m) && StandsAt(tar, offset, Blocks(m))
    ensures LookAt(tar, offset) == AsWritten(m, offset)
  {
    BlocksParts(tar, offset, m);
    HeaderRead(tar, offset, m, LegalSizeField(m));
    SizeRead(m);
    ContentAsWritten(tar, offset, m, LookAt(tar, offset));
  }

  lemma EndRead(tar: seq<Byte>, offset: nat)
    requires StandsAt(tar, offset, Zeros(1024))
    ensures LookAt(tar, offset) == Stop
  {
    assert tar[offset..offset + 512] == tar[offset..offset + 1024][..512] == Zeros(512);
    assert Subarray(tar, offset, offset + 512) == Zeros(512);
  }

  /** Whatever is written in the archive is seen as written. */
  ghost predicate SeesMembers(looks: Looks, tar: seq<Byte>) {
    (forall o: nat, m :: SeesMember(looks, tar, o, m)) && forall o: nat :: SeesEnd(looks, tar, o)
  }

  ghost predicate SeesMember(looks: Looks, tar: seq<Byte>, o: nat, m: Member) {
    Legal(m) && StandsAt(tar, o, Blocks(m)) ==> looks(o) == AsWritten(m, o)
  }

  ghost predicate SeesEnd(looks: Looks, tar: seq<Byte>, o: nat) {
    StandsAt(tar, o, Zeros(1024)) ==> looks(o) == Stop
  }

  lemma MembersAreSeen(tar: seq<Byte>)
    ensures SeesMembers(LooksOf(tar), tar)
  {
    forall o: nat, m ensures SeesMember(LooksOf(tar), tar, o, m) {
      if Legal(m) && StandsAt(tar, o, Blocks(m)) { BlocksRead(tar, o, m); }
    }
    forall o: nat ensures SeesEnd(LooksOf(tar), tar, o) {
      if StandsAt(tar, o, Zeros(1024)) { EndRead(tar, o); }
    }
  }

  lemma StandsApart(tar: seq<Byte>, offset: nat, a: seq<Byte>, b: seq<Byte>)
    requires StandsAt(tar, offset, a + b)
    ensures StandsAt(tar, offset, a) && StandsAt(tar, offset + |a|, b)
  {
    var both := tar[offset..offset + |a + b|];
    assert tar[offset..offset + |a|] == both[..|a|] == a;
    assert tar[offset + |a|..offset + |a| + |b|] == both[|a|..] == b;
  }

  /** From offset on the archive is what was written of the members. */
  ghost predicate WrittenFrom(tar: seq<Byte>, offset: nat, members: seq<Member>, after: seq<Byte>) {
    AllLegal(members) && StandsAt(tar, offset, Archive(members, after))
  }

  lemma FirstStands(tar: seq<Byte>, offset: nat, members: seq<Member>, after: seq<Byte>)
    requires members != [] && WrittenFrom(tar, offset, members, after)
    ensures Legal(members[0]) && StandsAt(tar, offset, Blocks(members[0]))
    ensures WrittenFrom(tar, offset + Length(members[0]), members[1..], after)
  {
    StandsApart(tar, offset, Blocks(members[0]), Archive(members[1..], after));
  }

  lemma EndStands(tar: seq<Byte>, offset: nat, after: seq<Byte>)
    requires WrittenFrom(tar, offset, [], after)
    ensures StandsAt(tar, offset, Zeros(1024))
  {
    StandsApart(tar, offset, Zeros(1024), after);
  }

  /** One after the other the members are laid out from offset on, and then the end. */
  ghost predicate Laid(tar: seq<Byte>, offset: nat, members: seq<Member>)
    decreases |members|
  {
    if members == [] then StandsAt(tar, offset, Zeros(1024))
    else
      && Legal(members[0]) && StandsAt(tar, offset, Blocks(members[0]))
      && Laid(tar, offset + Length(members[0]), members[1..])
  }

  lemma {:induction false} ArchiveIsLaid(tar: seq<Byte>, offset: nat, members: seq<Member>, after: seq<Byte>)
    requires WrittenFrom(tar, offset, members, after)
    ensures Laid(tar, offset, members)
    decreases |members|
  {
    if members == [] {
      EndStands(tar, offset, after);
    } else {
      FirstStands(tar, offset, members, after);
      ArchiveIsLaid(tar, offset + Length(members[0]), members[1..], after);
    }
  }

  /** What there is to see of the members when the first of them stands at offset. */
  function Written(members: seq<Member>, offset: nat): (seen: seq<Look>)
    requires AllLegal(members)
    ensures |seen| == |members|
    decreases |members|
  {
    if members == [] then [] else [AsWritten(members[0], offset)] + Written(members[1..], offset + Length(members[0]))
  }

  lemma NextIsBehind(m: Member, offset: nat)
    requires Legal(m)
    ensures AsWritten(m, offset).Found? ==> AsWritten(m, offset).next == Some(offset + Length(m))
  {}

  lemma MemberIsSeen(looks: Looks, tar: seq<Byte>, offset: nat, m: Member)
    requires Legal(m) && StandsAt(tar, offset, Blocks(m)) && SeesMembers(looks, tar)
    ensures looks(offset) == AsWritten(m, offset)
  {
    assert SeesMember(looks, tar, offset, m);
  }

  lemma EndIsSeen(looks: Looks, tar: seq<Byte>, offset: nat)
    requires StandsAt(tar, offset, Zeros(1024)) && SeesMembers(looks, tar)
    ensures looks(offset) == Stop
  {
    assert SeesEnd(looks, tar, offset);
  }

  lemma {:induction false} LaidIsShown(looks: Looks, tar: seq<Byte>, offset: nat, members: seq<Member>)
    requires Laid(tar, offset, members) && AllLegal(members)
    ensures SeesMembers(looks, tar) ==> Shows(looks, offset, Written(members, offset))
    decreases |members|
  {
    if SeesMembers(looks, tar) {
      if members == [] {
        EndIsSeen(looks, tar, offset);
      } else {
        var m, rest := members[0], members[1..];
        LaidIsShown(looks, tar, offset + Length(m), rest);
        MemberIsSeen(looks, tar, offset, m);
        NextIsBehind(m, offset);
        ShowsMore(looks, offset, AsWritten(m, offset), Written(rest, offset + Length(m)));
      }
    }
  }

  /** The walk of a written archive finds its members in order, up to the first whose name is refused. */
  lemma WalkOfArchive(members: seq<Member>, after: seq<Byte>, rounds: nat)
    requires AllLegal(members) && |members| <= rounds
    ensures Walk(LooksOf(Archive(members, after)), 0, rounds) == Collected(Written(members, 0))
  {
    var tar := Archive(members, after);
    assert StandsAt(tar, 0, tar);
    ArchiveIsLaid(tar, 0, members, after);
    MembersAreSeen(tar);
    LaidIsShown(LooksOf(tar), tar, 0, members);
    WalkCollects(LooksOf(tar), 0, Written(members, 0), rounds);
  }

  /** Names that are written as they land: no empty, "." or leading ".." components, and no backslash. */
  predicate Clean(m: Member) {
    Normalize(FullName(m)) == Some(FullName(m))
  }

  lemma CleanIsFound(m: Member, offset: nat)
    requires Legal(m) && Clean(m)
    ensures AsWritten(m, offset) == Found(EntryOf(m, FullName(m)), Some(offset + Length(m)))
  {}

  lemma {:induction false} CleanAreCollected(members: seq<Member>, offset: nat)
    requires AllLegal(members) && forall k | 0 <= k < |members| :: Clean(members[k])
    ensures var (entries, ending) := Collected(Written(members, offset));
            && ending == Ended && |entries| == |members|
            && forall k | 0 <= k < |members| :: entries[k] == EntryOf(members[k], FullName(members[k]))
    decreases |members|
  {
    if members != [] {
      var m, rest := members[0], Written(members[1..], offset + Length(members[0]));
      CleanAreCollected(members[1..], offset + Length(m));
      assert Clean(m);
      CleanIsFound(m, offset);
      assert Written(members, offset)[1..] == rest;
    }
  }

  /** Round trip: the same paths and bytes in the same order, and nothing of what follows the end. */
  lemma RoundTrip(members: seq<Member>, after: seq<Byte>, rounds: nat)
    requires AllLegal(members) && (forall k | 0 <= k < |members| :: Clean(members[k])) && |members| <= rounds
    ensures var (entries, ending) := Walk(LooksOf(Archive(members, after)), 0, rounds);
            && ending == Ended && |entries| == |members|
            && forall k | 0 <= k < |members| :: entries[k] == EntryOf(members[k], FullName(members[k]))
  {
    WalkOfArchive(members, after, rounds);
    CleanAreCollected(members, 0);
  }

  /** A name that two members have: the reader finds the first of them, and the last is another. */
  lemma DuplicateNames(m: Member, data: seq<Byte>, after: seq<Byte>)
    requires Legal(m) && Legal(m.(data := data)) && Clean(m) && (m.flag == 0 || m.flag == 48) && data != m.data
    ensures var entries := Walk(LooksOf(Archive([m, m.(data := data)], after)), 0, 2).0;
            && First(entries, FullName(m)) == Some(EntryOf(m, FullName(m)))
            && Last(entries, FullName(m)) == Some(EntryOf(m.(data := data), FullName(m)))
            && First(entries, FullName(m)).value.data != Last(entries, FullName(m)).value.data
  {
    RoundTrip([m, m.(data := data)], after, 2);
  }

  // A size that keeps the walk where it is.

  lemma Thousand()
    ensures OctalValue("1000") == 512
  {
    assert "1"[..0] == "" && "10"[..1] == "1" && "100"[..2] == "10" && "1000"[..3] == "100";
    assert OctalValue("1") == 1;
    assert OctalValue("10") == 8;
    assert OctalValue("100") == 64;
  }

  lemma MinusThousand()
    ensures ParseSize("-1000") == Number(-512)
  {
    assert "-1000"[1..] == "1000";
    PrefixOfDigits("1000");
    Thousand();
  }

  lemma MinusThousandRead(m: Member)
    requires Named(m)
    ensures Plain("-1000", 12) && SizeField(HeaderWith(m, "-1000")) == Number(-512)
  {
    SizeFieldRead(m, "-1000");
    TrimOfTrimmed("-1000");
    MinusThousand();
  }

  /**
   A member with the size field "-1000", octal for -512, brings the walk back to its own header: with any
   number of rounds it does not end, and the reader finds nothing but what stands before the member and
   the member itself.
   */
  lemma SizeThatNeverEnds(m: Member, rest: seq<Byte>, filePath: string, maxBytes: nat, rounds: nat)
    requires Named(m) && Clean(m) && Normalize(filePath).Some?
    requires Normalize(filePath).value != FullName(m) || !(m.flag == 0 || m.flag == 48)
    ensures Plain("-1000", 12)
    ensures var tar := HeaderWith(m, "-1000") + rest;
            && LookAt(tar, 0).Found? && LookAt(tar, 0).next == Some(0)
            && Walk(LooksOf(tar), 0, rounds).1 == Failed(Unfinished)
            && ReadResult(tar, filePath, maxBytes, rounds) == Err(Unfinished)
  {
    MinusThousandRead(m);
    var tar := HeaderWith(m, "-1000") + rest;
    HeaderRead(tar, 0, m, "-1000");
    assert Padded(-512) == -512;
    StaysForEver(LooksOf(tar), 0, Normalize(filePath).value, maxBytes, rounds);
  }
}
