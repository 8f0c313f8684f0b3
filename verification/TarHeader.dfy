/**
 What the loops over an unpacked build context see at an offset: the header, its fields, and the
 content behind it (apps/api/src/build-context.ts, lines 46 to 90 and 129 to 151).
 */
module TarHeader {
  import opened Wrappers
  import opened Text
  import opened TarPath

  type Byte = b: int | 0 <= b < 256

  // Archives are made of blocks of 512 bytes.

  /** What an index of subarray stands for: a negative one counts from the end. */
  function Clamp(i: int, length: nat): (k: nat)
    ensures k <= length
  {
    if i >= length then length else if i >= 0 then i else if length + i >= 0 then length + i else 0
  }

  /** Buffer.subarray */
  function Subarray(bytes: seq<Byte>, begin: int, end: int): seq<Byte> {
    var b, e := Clamp(begin, |bytes|), Clamp(end, |bytes|);
    if b < e then bytes[b..e] else []
  }

  /** header.toString of length bytes at offset, one character a byte. */
  function Raw(header: seq<Byte>, offset: nat, length: nat): string {
    var part := Subarray(header, offset, offset + length);
    seq(|part|, i requires 0 <= i < |part| => part[i] as char)
  }

  /** replace(/\0.*$/, ""): from the first NUL that no line terminator follows. */
  function StripNul(s: string): string {
    if s == "" then ""
    else if s[0] == '\0' && forall c | c in s[1..] :: !IsLineTerminator(c) then ""
    else [s[0]] + StripNul(s[1..])
  }

  function HeaderString(header: seq<Byte>, offset: nat, length: nat): string {
    StripNul(Raw(header, offset, length))
  }

  predicate IsOctal(c: char) {
    '0' <= c <= '7'
  }

  function OctalPrefix(s: string): string {
    if s != "" && IsOctal(s[0]) then [s[0]] + OctalPrefix(s[1..]) else ""
  }

  function OctalValue(s: string): nat {
    if s == "" then 0
    else OctalValue(s[..|s| - 1]) * 8 + if IsOctal(s[|s| - 1]) then s[|s| - 1] as int - '0' as int else 0
  }

  datatype Size = Number(n: int) | NotANumber

  /** Number.parseInt(raw, 8), and 0 for an empty field. */
  function ParseSize(raw: string): Size {
    if raw == "" then Number(0)
    else
      var signed := raw[0] == '-' || raw[0] == '+';
      var digits := OctalPrefix(if signed then raw[1..] else raw);
      if digits == "" then NotANumber
      else Number((if raw[0] == '-' then -1 else 1) * OctalValue(digits))
  }

  /** Unfinished is no error of the code: the loop has not come to an end in the rounds given to it. */
  datatype Error = UnsafePath | Truncated(path: string) | Missing | TooLarge | Unfinished

  /**
   path is the normalised name, regular tells a file from directories, links and the rest, and size is
   what the header says, 0 for what is not a number.
   */
  datatype Entry = Entry(path: string, regular: bool, size: int, data: seq<Byte>)

  function RelativeName(header: seq<Byte>): string {
    var name, prefix := HeaderString(header, 0, 100), HeaderString(header, 345, 155);
    if prefix == "" then name else if name == "" then prefix else prefix + "/" + name
  }

  predicate Regular(header: seq<Byte>) {
    var flag := HeaderString(header, 156, 1);
    flag == "" || flag == "0"
  }

  function SizeField(header: seq<Byte>): Size {
    ParseSize(Trim(HeaderString(header, 124, 12)))
  }

  /** Math.ceil(n / 512) * 512 */
  function Padded(n: int): (p: int)
    ensures n <= p < n + 512
  {
    (n + 511) / 512 * 512
  }

  /** At one header the walk stops, fails, or finds an entry and goes on at `next`, if at all. */
  datatype Look = Stop | Bad(error: Error) | Found(entry: Entry, next: Option<int>)

  /** The content behind a header at offset. */
  function ContentAt(tar: seq<Byte>, offset: int, path: string, regular: bool, size: Size): (look: Look)
    ensures !look.Stop? && look != Bad(Unfinished)
    ensures look.Found? ==> look.entry.path == path && IsContent(tar, offset, look)
  {
    match size
    case NotANumber => Found(Entry(path, regular, 0, []), None)
    case Number(n) =>
      var contentStart := offset + 512;
      var contentEnd := contentStart + n;
      if contentEnd > |tar| then Bad(Truncated(path))
      else Found(Entry(path, regular, n, Subarray(tar, contentStart, contentEnd)), Some(contentStart + Padded(n)))
  }

  predicate IsContent(tar: seq<Byte>, offset: int, look: Look)
    requires look.Found?
  {
    var start, size := offset + 512, look.entry.size;
    if look.next.None? then size == 0 && look.entry.data == []
    else start + size <= |tar| && look.entry.data == Subarray(tar, start, start + size) && look.next == Some(start + Padded(size))
  }

  function HeaderAt(tar: seq<Byte>, offset: int, header: seq<Byte>): (look: Look)
    ensures !look.Stop? && look != Bad(Unfinished)
    ensures look.Found? ==> Normalize(look.entry.path) == Some(look.entry.path) && IsContent(tar, offset, look)
  {
    match NormalizedTwice(RelativeName(header))
    case None => Bad(UnsafePath)
    case Some(path) => ContentAt(tar, offset, path, Regular(header), SizeField(header))
  }

  function NormalizedTwice(name: string): (path: Option<string>)
    ensures path == Normalize(name)
    ensures path.Some? ==> Normalize(path.value) == path
  {
    if Normalize(name).Some? then
      NormalizeIdempotent(name);
      Normalize(name)
    else None
  }

  /** An empty header is all zeros too: far enough before the start of the archive there is none. */
  function LookAt(tar: seq<Byte>, offset: int): (look: Look)
    ensures !look.Stop? ==> 0 < offset + 512 + |tar| && offset + 512 <= |tar|
    ensures look != Bad(Unfinished)
    ensures look.Found? ==> Normalize(look.entry.path) == Some(look.entry.path) && IsContent(tar, offset, look)
  {
    if offset + 512 > |tar| then Stop
    else
      var header := Subarray(tar, offset, offset + 512);
      if forall b | b in header :: b == 0 then Stop else HeaderAt(tar, offset, header)
  }

  lemma PaddedIsBlocks(n: int)
    ensures Padded(n) % 512 == 0
    ensures Padded(n) > -512 <==> n > -512
    ensures Padded(n) == -512 <==> -1023 <= n <= -512
  {}

  lemma SubarrayInside(tar: seq<Byte>, start: nat, size: int)
    requires start + size <= |tar| && start <= |tar| && start + size >= 0
    ensures Subarray(tar, start, start + size) == if size > 0 then tar[start..start + size] else []
  {}

  /** From an offset in the archive, content is the bytes behind the header, and never read past the end. */
  lemma ContentIsBehindHeader(tar: seq<Byte>, offset: nat)
    ensures var look := LookAt(tar, offset);
            look.Found? && look.entry.size > -512 ==>
              var start, size := offset + 512, look.entry.size;
              && start <= |tar| && start + size <= |tar|
              && look.entry.data == if size > 0 then tar[start..start + size] else []
  {
    var look := LookAt(tar, offset);
    if look.Found? && look.entry.size > -512 {
      SubarrayInside(tar, offset + 512, look.entry.size);
    }
  }
}
