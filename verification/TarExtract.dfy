/** Extraction of a build context to a directory (apps/api/src/build-context.ts, lines 126 to 154), beside the reader. */
module TarExtract {
  import opened Wrappers
  import opened TarPath
  import opened TarHeader
  import opened TarWalk

  /** An absolute path by its components. */
  type Path = seq<string>

  datatype Node = Folder | File(data: seq<Byte>)

  type Files = map<Path, Node>

  datatype Failure = BadArchive(error: Error) | NulInPath | FileInTheWay | IsADirectory

  /** What a file operation leaves behind, and why it threw, if it did. */
  datatype Effect = Effect(files: Files, failure: Option<Failure>)

  predicate HasNul(path: Path) {
    exists k | 0 <= k < |path| :: '\0' in path[k]
  }

  predicate FileOnTheWay(files: Files, path: Path) {
    exists k | 0 <= k <= |path| :: path[..k] in files && files[path[..k]].File?
  }

  function Parents(path: Path): set<Path> {
    set k | 0 <= k <= |path| :: path[..k]
  }

  /** mkdir with recursive: true. */
  function MakeFolder(files: Files, path: Path): Effect {
    if HasNul(path) then Effect(files, Some(NulInPath))
    else if FileOnTheWay(files, path) then Effect(files, Some(FileInTheWay))
    else Effect((map p | p in Parents(path) :: Folder) + files, None)
  }

  /** writeFile in a folder that is there. */
  function WriteFile(files: Files, path: Path, data: seq<Byte>): Effect {
    if HasNul(path) then Effect(files, Some(NulInPath))
    else if path in files && files[path].Folder? then Effect(files, Some(IsADirectory))
    else Effect(files[path := File(data)], None)
  }

  function DirName(path: Path): Path {
    if path == [] then [] else path[..|path| - 1]
  }

  function Store(files: Files, path: Path, data: seq<Byte>): Effect {
    var made := MakeFolder(files, DirName(path));
    if made.failure.Some? then made else WriteFile(made.files, path, data)
  }

  /** Where an entry lands. */
  function Target(root: Path, path: string): Path {
    Resolve(root, Pieces(path))
  }

  predicate Allowed(root: Path, path: string) {
    TargetAllowed(Absolute(root), Absolute(Target(root, path)))
  }

  /** One entry: its target is checked whatever its kind, and only regular files are written. */
  function Place(files: Files, root: Path, entry: Entry): Effect {
    if !Allowed(root, entry.path) then Effect(files, Some(BadArchive(UnsafePath)))
    else if entry.regular then Store(files, Target(root, entry.path), entry.data)
    else Effect(files, None)
  }

  function PlaceAll(files: Files, root: Path, entries: seq<Entry>): Effect
    decreases |entries|
  {
    if entries == [] then Effect(files, None)
    else
      var first := Place(files, root, entries[0]);
      if first.failure.Some? then first else PlaceAll(first.files, root, entries[1..])
  }

  /** The target is checked before the content is. */
  function EndFailure(root: Path, ending: Ending): Option<Failure> {
    match ending
    case Ended => None
    case Failed(error) =>
      if error.Truncated? && !Allowed(root, error.path) then Some(BadArchive(UnsafePath))
      else Some(BadArchive(error))
  }

  function RegularCount(entries: seq<Entry>): (n: nat)
    ensures n <= |entries|
  {
    if entries == [] then 0 else (if entries[0].regular then 1 else 0) + RegularCount(entries[1..])
  }

  /** The files left, and what the extractor returns or throws. */
  datatype Report = Report(files: Files, result: Result<nat, Failure>)

  /** All entries are placed, then comes the failure that ended the walk, if any. */
  function ReportOf(files: Files, root: Path, entries: seq<Entry>, ending: Ending, count: nat): Report {
    var placed := PlaceAll(files, root, entries);
    var failure := if placed.failure.Some? then placed.failure else EndFailure(root, ending);
    Report(placed.files, if failure.Some? then Err(failure.value) else Ok(count + RegularCount(entries)))
  }

  function ReportFrom(files: Files, root: Path, looks: Looks, offset: int, count: nat, rounds: nat): Report {
    var (entries, ending) := Walk(looks, offset, rounds);
    ReportOf(files, root, entries, ending, count)
  }

  /** The whole extraction, given that many turns of the loop. */
  function Extracted(files: Files, root: Path, tar: seq<Byte>, rounds: nat): Report {
    var made := MakeFolder(files, root);
    if made.failure.Some? then Report(made.files, Err(made.failure.value))
    else ReportFrom(made.files, root, LooksOf(tar), 0, 0, rounds)
  }

  lemma ReportOfMore(files: Files, root: Path, entry: Entry, rest: seq<Entry>, ending: Ending, count: nat)
    ensures var placed := Place(files, root, entry);
            ReportOf(files, root, [entry] + rest, ending, count) ==
            if placed.failure.Some? then Report(placed.files, Err(placed.failure.value))
            else ReportOf(placed.files, root, rest, ending, count + if entry.regular then 1 else 0)
  {
    assert ([entry] + rest)[1..] == rest;
  }

  function RestOf(looks: Looks, look: Look, rounds: nat): (seq<Entry>, Ending)
    requires rounds > 0
  {
    if look.Found? && look.next.Some? then Walk(looks, look.next.value, rounds - 1) else ([], Ended)
  }

  lemma ReportAtEntry(files: Files, root: Path, looks: Looks, offset: int, count: nat, rounds: nat)
    requires looks(offset).Found? && rounds > 0
    ensures var look := looks(offset);
            var placed := Place(files, root, look.entry);
            var (rest, ending) := RestOf(looks, look, rounds);
            ReportFrom(files, root, looks, offset, count, rounds) ==
            if placed.failure.Some? then Report(placed.files, Err(placed.failure.value))
            else ReportOf(placed.files, root, rest, ending, count + if look.entry.regular then 1 else 0)
  {
    var look := looks(offset);
    var (rest, ending) := RestOf(looks, look, rounds);
    WalkAt(looks, offset, rounds);
    assert Walk(looks, offset, rounds).0 == [look.entry] + rest;
    assert Walk(looks, offset, rounds).1 == ending;
    ReportOfMore(files, root, look.entry, rest, ending, count);
  }

  /** The entry is placed and the walk goes on. */
  lemma ReportNext(files: Files, root: Path, looks: Looks, offset: int, count: nat, rounds: nat)
    requires looks(offset).Found? && looks(offset).next.Some? && rounds > 0
    requires Place(files, root, looks(offset).entry).failure.None?
    ensures var look := looks(offset);
            ReportFrom(files, root, looks, offset, count, rounds) ==
            ReportFrom(Place(files, root, look.entry).files, root, looks, look.next.value,
                       count + if look.entry.regular then 1 else 0, rounds - 1)
  {
    ReportAtEntry(files, root, looks, offset, count, rounds);
  }

  lemma ReportAtEnd(files: Files, root: Path, looks: Looks, offset: int, count: nat, rounds: nat)
    ensures var look := looks(offset);
            && (look.Stop? ==> ReportFrom(files, root, looks, offset, count, rounds) == Report(files, Ok(count)))
            && (!look.Stop? && rounds == 0 ==>
                  ReportFrom(files, root, looks, offset, count, rounds) == Report(files, Err(BadArchive(Unfinished))))
            && (look.Bad? && rounds > 0 ==>
                  ReportFrom(files, root, looks, offset, count, rounds) ==
                  Report(files, Err(EndFailure(root, Failed(look.error)).value)))
  {
    WalkAt(looks, offset, rounds);
  }

  /** The file system the extractor writes to. */
  class Disk {
    var files: Files

    constructor (files: Files)
      ensures this.files == files
    {
      this.files := files;
    }

    method Mkdir(path: Path) returns (failure: Option<Failure>)
      modifies this
      ensures Effect(files, failure) == MakeFolder(old(files), path)
    {
      if HasNul(path) { return Some(NulInPath); }
      if FileOnTheWay(files, path) { return Some(FileInTheWay); }
      files := (map p | p in Parents(path) :: Folder) + files;
      return None;
    }

    method Write(path: Path, data: seq<Byte>) returns (failure: Option<Failure>)
      modifies this
      ensures Effect(files, failure) == WriteFile(old(files), path, data)
    {
      if HasNul(path) { return Some(NulInPath); }
      if path in files && files[path].Folder? { return Some(IsADirectory); }
      files := files[path := File(data)];
      return None;
    }

    /** The target's check, and mkdir and writeFile for a regular file. */
    method PlaceEntry(entry: Entry, root: Path) returns (failure: Option<Failure>)
      modifies this
      ensures Effect(files, failure) == Place(old(files), root, entry)
    {
      var target := Target(root, entry.path);
      if !TargetAllowed(Absolute(root), Absolute(target)) { return Some(BadArchive(UnsafePath)); }
      if !entry.regular { return None; }
      failure := Mkdir(DirName(target));
      if failure.None? { failure := Write(target, entry.data); }
    }

    /** extractTarGzipBuildContext on the unpacked archive: how many files were written, or why it threw. */
    method Extract(tar: seq<Byte>, root: Path, rounds: nat) returns (result: Result<nat, Failure>)
      modifies this
      ensures Report(files, result) == Extracted(old(files), root, tar, rounds)
    {
      var failure := Mkdir(root);
      if failure.Some? { return Err(failure.value); }
      ArchivesAreSeen(tar);
      result := ExtractLoop(LooksOf(tar), |tar|, root, rounds);
    }

    method ExtractLoop(looks: Looks, length: nat, root: Path, rounds: nat) returns (result: Result<nat, Failure>)
      requires Sees(looks, length)
      modifies this
      ensures Report(files, result) == ReportFrom(old(files), root, looks, 0, 0, rounds)
    {
      var offset, count, left := 0, 0, rounds;
      ghost var whole := ReportFrom(files, root, looks, 0, 0, rounds);
      while offset + 512 <= length
        invariant ReportFrom(files, root, looks, offset, count, left) == whole
        decreases left
      {
        var look := looks(offset);
        ReportAtEnd(files, root, looks, offset, count, left);
        if look.Stop? { break; }
        if left == 0 { return Err(BadArchive(Unfinished)); }
        if look.Bad? { return Err(EndFailure(root, Failed(look.error)).value); }
        ReportAtEntry(files, root, looks, offset, count, left);
        ghost var before, counted := files, count;
        var failure := PlaceEntry(look.entry, root);
        if failure.Some? { return Err(failure.value); }
        if look.entry.regular { count := count + 1; }
        // without a number the next offset is not one either, and the loop ends
        if look.next.None? { return Ok(count); }
        assert Place(before, root, look.entry) == Effect(files, None);
        ReportNext(before, root, looks, offset, counted, left);
        offset, left := look.next.value, left - 1;
      }
      ReportAtEnd(files, root, looks, offset, count, left);
      return Ok(count);
    }
  }

  // What a successful extraction leaves.

  /** The content of the last regular entry that lands on a target. */
  function LastLanding(entries: seq<Entry>, root: Path, target: Path): Option<seq<Byte>> {
    if entries == [] then None
    else
      var e := entries[|entries| - 1];
      if e.regular && Target(root, e.path) == target then Some(e.data)
      else LastLanding(entries[..|entries| - 1], root, target)
  }

  lemma {:induction false} LastLandingOfMore(entry: Entry, rest: seq<Entry>, root: Path, target: Path)
    ensures LastLanding([entry] + rest, root, target) ==
            if LastLanding(rest, root, target).Some? then LastLanding(rest, root, target)
            else if entry.regular && Target(root, entry.path) == target then Some(entry.data)
            else None
    decreases |rest|
  {
    var all := [entry] + rest;
    if rest == [] {
      assert all[..|all| - 1] == [];
    } else {
      var k := |rest| - 1;
      assert all[..|all| - 1] == [entry] + rest[..k];
      LastLandingOfMore(entry, rest[..k], root, target);
    }
  }

  /** A file is where the last entry put it; elsewhere nothing changed but for new folders. */
  ghost predicate Holds(before: Files, after: Files, target: Path, landed: Option<seq<Byte>>) {
    if landed.Some? then target in after && after[target] == File(landed.value)
    else if target in before then target in after && after[target] == before[target]
    else target in after ==> after[target] == Folder
  }

  lemma StoreHolds(files: Files, path: Path, data: seq<Byte>, target: Path)
    requires Store(files, path, data).failure.None?
    ensures Holds(files, Store(files, path, data).files, target, if path == target then Some(data) else None)
    ensures path == target && target in files ==> files[target].File?
  {}

  lemma {:induction false} PlaceAllHolds(files: Files, root: Path, entries: seq<Entry>, target: Path)
    requires PlaceAll(files, root, entries).failure.None?
    ensures Holds(files, PlaceAll(files, root, entries).files, target, LastLanding(entries, root, target))
    decreases |entries|
  {
    if entries != [] {
      var entry, rest := entries[0], entries[1..];
      var first := Place(files, root, entry);
      assert entries == [entry] + rest;
      LastLandingOfMore(entry, rest, root, target);
      PlaceAllHolds(first.files, root, rest, target);
      if entry.regular { StoreHolds(files, Target(root, entry.path), entry.data, target); }
    }
  }

  lemma {:induction false} ExtractionHolds(files: Files, root: Path, tar: seq<Byte>, rounds: nat, target: Path)
    requires Extracted(files, root, tar, rounds).result.Ok?
    ensures var (entries, ending) := Walk(LooksOf(tar), 0, rounds);
            && ending == Ended && Extracted(files, root, tar, rounds).result.value == RegularCount(entries)
            && Holds(files, Extracted(files, root, tar, rounds).files, target, LastLanding(entries, root, target))
  {
    PlaceAllHolds(MakeFolder(files, root).files, root, Walk(LooksOf(tar), 0, rounds).0, target);
  }

  // The extractor and the reader.

  ghost predicate NoDots(path: string) {
    forall k | 0 <= k < |Pieces(path)| :: Pieces(path)[k] != ".."
  }

  ghost predicate AllNormal(entries: seq<Entry>) {
    forall k | 0 <= k < |entries| :: Normalize(entries[k].path) == Some(entries[k].path)
  }

  /** What holds of every entry there is to see holds of all the walk finds. */
  lemma {:induction false} WalkFindsWhatIsSeen(looks: Looks, offset: int, rounds: nat, ok: Entry -> bool)
    requires forall o: int | looks(o).Found? :: ok(looks(o).entry)
    ensures forall k | 0 <= k < |Walk(looks, offset, rounds).0| :: ok(Walk(looks, offset, rounds).0[k])
    decreases rounds
  {
    var look := looks(offset);
    WalkAt(looks, offset, rounds);
    if look.Found? && look.next.Some? && rounds > 0 { WalkFindsWhatIsSeen(looks, look.next.value, rounds - 1, ok); }
  }

  lemma WalkNormalizes(looks: Looks, offset: int, rounds: nat)
    requires SeesNormalPaths(looks)
    ensures AllNormal(Walk(looks, offset, rounds).0)
  {
    WalkFindsWhatIsSeen(looks, offset, rounds, (e: Entry) => Normalize(e.path) == Some(e.path));
  }

  /** Without "..", different normalised paths land apart. */
  lemma LandsApart(root: Path, a: string, b: string)
    requires Normalize(a) == Some(a) && Normalize(b) == Some(b) && NoDots(a) && NoDots(b)
    ensures Target(root, a) == Target(root, b) <==> a == b
  {
    ResolvePlain(root, Pieces(a));
    ResolvePlain(root, Pieces(b));
    AcceptedExactly(a);
    AcceptedExactly(b);
    if root + Pieces(a) == root + Pieces(b) {
      assert Pieces(a) == (root + Pieces(a))[|root|..] == Pieces(b);
    }
  }

  lemma {:induction false} LandingIsLast(entries: seq<Entry>, root: Path, path: string)
    requires AllNormal(entries) && Normalize(path) == Some(path) && NoDots(path)
    requires forall k | 0 <= k < |entries| :: NoDots(entries[k].path)
    ensures LastLanding(entries, root, Target(root, path)) ==
            if Last(entries, path).Some? then Some(Last(entries, path).value.data) else None
    decreases |entries|
  {
    if entries != [] {
      var k := |entries| - 1;
      LandsApart(root, entries[k].path, path);
      LandingIsLast(entries[..k], root, path);
    }
  }

  /** No two regular entries share a path. */
  ghost predicate Once(entries: seq<Entry>) {
    forall i, j | 0 <= i < j < |entries| && entries[i].regular && entries[j].regular :: entries[i].path != entries[j].path
  }

  /** A regular entry of the path, or the lack of one. */
  ghost predicate IsOneOf(entries: seq<Entry>, path: string, found: Option<Entry>) {
    match found
    case Some(entry) => entry.regular && entry.path == path && exists k :: 0 <= k < |entries| && entries[k] == entry
    case None => forall k | 0 <= k < |entries| :: !(entries[k].regular && entries[k].path == path)
  }

  lemma {:induction false} LastIsOneOf(entries: seq<Entry>, path: string)
    ensures IsOneOf(entries, path, Last(entries, path))
    decreases |entries|
  {
    if entries != [] {
      var n := |entries| - 1;
      LastIsOneOf(entries[..n], path);
      if !(entries[n].regular && entries[n].path == path) && Last(entries[..n], path).Some? {
        var k :| 0 <= k < n && entries[..n][k] == Last(entries[..n], path).value;
        assert entries[k] == entries[..n][k];
      }
    }
  }

  lemma {:induction false} FirstIsOneOf(entries: seq<Entry>, path: string)
    ensures IsOneOf(entries, path, First(entries, path))
    decreases |entries|
  {
    if entries != [] {
      var rest := entries[1..];
      FirstIsOneOf(rest, path);
      if !(entries[0].regular && entries[0].path == path) && First(rest, path).Some? {
        var k :| 0 <= k < |rest| && rest[k] == First(rest, path).value;
        assert entries[k + 1] == rest[k];
      }
    }
  }

  lemma OnceIsFirstAndLast(entries: seq<Entry>, path: string)
    requires Once(entries)
    ensures First(entries, path) == Last(entries, path)
  {
    FirstIsOneOf(entries, path);
    LastIsOneOf(entries, path);
  }

  /** No files in the output directory yet. */
  ghost predicate Fresh(files: Files, root: Path) {
    forall p | p in files && root <= p :: files[p].Folder?
  }

  ghost predicate WithoutDots(entries: seq<Entry>) {
    forall k | 0 <= k < |entries| :: NoDots(entries[k].path)
  }

  /**
   After a successful extraction of an archive without "..", the extractor's file holds the last entry
   of its path while the reader returns the first.
   */
  lemma ReaderAndExtractor(files: Files, root: Path, tar: seq<Byte>, rounds: nat, filePath: string, maxBytes: nat)
    requires Extracted(files, root, tar, rounds).result.Ok? && Fresh(files, root)
    requires WithoutDots(Walk(LooksOf(tar), 0, rounds).0) && Normalize(filePath).Some? && NoDots(filePath)
    ensures var after, target := Extracted(files, root, tar, rounds).files, Target(root, filePath);
            var entries, wanted := Walk(LooksOf(tar), 0, rounds).0, Normalize(filePath).value;
            && (match Last(entries, wanted)
                case Some(entry) => target in after && after[target] == File(entry.data)
                case None => target in after ==> after[target].Folder?)
            && ReadResult(tar, filePath, maxBytes, rounds) ==
               match First(entries, wanted)
               case Some(entry) => Content(entry, maxBytes)
               case None => Err(Missing)
  {
    var wanted, entries := Normalize(filePath).value, Walk(LooksOf(tar), 0, rounds).0;
    AcceptedExactly(filePath);
    NormalizeIdempotent(filePath);
    ArchivesAreSeen(tar);
    WalkNormalizes(LooksOf(tar), 0, rounds);
    ExtractionHolds(files, root, tar, rounds, Target(root, filePath));
    LandingIsLast(entries, root, wanted);
    ResolvePlain(root, Pieces(filePath));
  }

  /**
   When each path occurs once, the reader returns for every path exactly what the extractor left there.
   What is too large is told by the size in the header, which is the number of bytes as long as the walk
   has only gone forward.
   */
  lemma ReaderSeesWhatWasExtracted(files: Files, root: Path, tar: seq<Byte>, rounds: nat, filePath: string, maxBytes: nat)
    requires Extracted(files, root, tar, rounds).result.Ok? && Fresh(files, root)
    requires WithoutDots(Walk(LooksOf(tar), 0, rounds).0) && Once(Walk(LooksOf(tar), 0, rounds).0)
    requires Normalize(filePath).Some? && NoDots(filePath)
    ensures var after, target := Extracted(files, root, tar, rounds).files, Target(root, filePath);
            var result := ReadResult(tar, filePath, maxBytes, rounds);
            if target !in after || after[target].Folder? then result == Err(Missing)
            else
              && (result == Err(TooLarge) || result == Ok(after[target].data))
              && (Forward(Walk(LooksOf(tar), 0, rounds).0) ==> (result == Err(TooLarge) <==> |after[target].data| > maxBytes))
  {
    var entries, wanted := Walk(LooksOf(tar), 0, rounds).0, Normalize(filePath).value;
    ReaderAndExtractor(files, root, tar, rounds, filePath, maxBytes);
    OnceIsFirstAndLast(entries, wanted);
    FirstIsOneOf(entries, wanted);
    if Forward(entries) { ForwardSizes(tar, rounds); }
  }

  /** An entry holds as many bytes as its size says. */
  predicate SizeTold(e: Entry) {
    |e.data| == if e.size > 0 then e.size else 0
  }

  lemma ForwardSizes(tar: seq<Byte>, rounds: nat)
    requires Forward(Walk(LooksOf(tar), 0, rounds).0)
    ensures forall k | 0 <= k < |Walk(LooksOf(tar), 0, rounds).0| :: SizeTold(Walk(LooksOf(tar), 0, rounds).0[k])
  {
    ArchivesAreSeen(tar);
    forall o: nat | LooksOf(tar)(o).Found? && LooksOf(tar)(o).entry.size > -512 ensures SizeTold(LooksOf(tar)(o).entry) {
      ContentIsBehindHeader(tar, o);
    }
    SizesAlong(LooksOf(tar), |tar|, 0, rounds);
  }

  lemma {:induction false} SizesAlong(looks: Looks, length: nat, offset: nat, rounds: nat)
    requires Sees(looks, length) && Forward(Walk(looks, offset, rounds).0)
    requires forall o: nat | looks(o).Found? && looks(o).entry.size > -512 :: SizeTold(looks(o).entry)
    ensures forall k | 0 <= k < |Walk(looks, offset, rounds).0| :: SizeTold(Walk(looks, offset, rounds).0[k])
    decreases rounds
  {
    var look := looks(offset);
    WalkAt(looks, offset, rounds);
    if look.Found? && rounds > 0 {
      var walk := Walk(looks, offset, rounds).0;
      assert walk[0] == look.entry;
      if look.next.Some? {
        var rest := Walk(looks, look.next.value, rounds - 1).0;
        assert walk[1..] == rest && forall k | 0 <= k < |rest| :: rest[k] == walk[k + 1];
        PaddedIsBlocks(look.entry.size);
        SizesAlong(looks, length, look.next.value, rounds - 1);
      }
    }
  }
}
