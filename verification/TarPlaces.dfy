/**
 When an extraction succeeds, said of the archive's entries and of what is in the file system before
 (apps/api/src/build-context.ts, lines 126 to 154), and what is above a file afterwards.
 */
module TarPlaces {
  import opened Wrappers
  import opened TarPath
  import opened TarHeader
  import opened TarWalk
  import opened TarExtract

  predicate IsFile(files: Files, path: Path) {
    path in files && files[path].File?
  }

  predicate IsFolder(files: Files, path: Path) {
    path in files && files[path].Folder?
  }

  function Landing(root: Path, entry: Entry): Path {
    Target(root, entry.path)
  }

  /** A file can be put there: no NUL in its path, no folder in its place, and no file above it. */
  ghost predicate Free(files: Files, path: Path) {
    path != [] && (forall k | 0 <= k < |path| :: '\0' !in path[k]) && !IsFolder(files, path)
    && forall k | 0 <= k < |path| :: !IsFile(files, path[..k])
  }

  /** Every regular entry has a free place, and none is above another. */
  ghost predicate AllFree(files: Files, root: Path, entries: seq<Entry>) {
    EachFree(files, root, entries) && NoneAbove(root, entries)
  }

  /** The check of the target passes for every entry. */
  ghost predicate AllAllowed(root: Path, entries: seq<Entry>) {
    forall i | 0 <= i < |entries| :: Allowed(root, entries[i].path)
  }

  // One file.

  lemma StoreSucceedsExactly(files: Files, path: Path, data: seq<Byte>)
    ensures Store(files, path, data).failure.None? <==> Free(files, path)
  {
    var parent := DirName(path);
    if path == [] {
      assert path[..0] == path && path in Parents(path);
    } else {
      assert forall k | 0 <= k < |parent| :: parent[k] == path[k];
      assert forall k | 0 <= k <= |parent| :: parent[..k] == path[..k];
      assert HasNul(path) <==> HasNul(parent) || '\0' in path[|path| - 1];
      assert path !in Parents(parent) by {
        forall k | 0 <= k <= |parent| ensures parent[..k] != path { assert |parent[..k]| < |path|; }
      }
    }
  }

  /** What a stored file changes: its place and the folders above it. */
  lemma StoreChanges(files: Files, path: Path, data: seq<Byte>, other: Path)
    requires Store(files, path, data).failure.None?
    ensures var after := Store(files, path, data).files;
            && (IsFile(after, other) <==> IsFile(files, other) || other == path)
            && (IsFolder(after, other) <==> IsFolder(files, other) || other < path)
  {
    StoreSucceedsExactly(files, path, data);
    var parent := DirName(path);
    assert other < path <==> other in Parents(parent) by {
      if other < path {
        assert other == path[..|other|] == parent[..|other|];
      }
      if other in Parents(parent) {
        var k :| 0 <= k <= |parent| && other == parent[..k];
        assert other == path[..k];
      }
    }
    if other < path { assert other == path[..|other|]; }
  }

  // All of them.

  lemma FreeAfterStore(files: Files, path: Path, data: seq<Byte>, other: Path)
    requires Store(files, path, data).failure.None?
    ensures Free(Store(files, path, data).files, other) <==> Free(files, other) && !(path < other) && !(other < path)
  {
    var after := Store(files, path, data).files;
    StoreChanges(files, path, data, other);
    forall k | 0 <= k < |other| ensures IsFile(after, other[..k]) <==> IsFile(files, other[..k]) || other[..k] == path {
      StoreChanges(files, path, data, other[..k]);
    }
    if path < other { assert other[..|path|] == path; }
  }

  ghost predicate EachFree(files: Files, root: Path, entries: seq<Entry>) {
    forall i | 0 <= i < |entries| && entries[i].regular :: Free(files, Landing(root, entries[i]))
  }

  /** No regular entry lands above the path, or below it. */
  ghost predicate NoneBeside(root: Path, entries: seq<Entry>, path: Path) {
    forall i | 0 <= i < |entries| && entries[i].regular :: !(path < Landing(root, entries[i])) && !(Landing(root, entries[i]) < path)
  }

  ghost predicate NoneAbove(root: Path, entries: seq<Entry>) {
    forall i, j | 0 <= i < |entries| && 0 <= j < |entries| && entries[i].regular && entries[j].regular ::
      !(Landing(root, entries[i]) < Landing(root, entries[j]))
  }

  lemma EachFreeOfMore(files: Files, root: Path, entry: Entry, rest: seq<Entry>)
    requires entry.regular
    ensures EachFree(files, root, [entry] + rest) <==> Free(files, Landing(root, entry)) && EachFree(files, root, rest)
  {
    var all := [entry] + rest;
    assert all[0] == entry && forall i | 0 <= i < |rest| :: all[i + 1] == rest[i];
    assert forall i | 0 < i < |all| :: all[i] == rest[i - 1];
  }

  lemma NoneAboveOfMore(root: Path, entry: Entry, rest: seq<Entry>)
    requires entry.regular
    ensures NoneAbove(root, [entry] + rest) <==> NoneAbove(root, rest) && NoneBeside(root, rest, Landing(root, entry))
  {
    var all := [entry] + rest;
    assert all[0] == entry && forall i | 0 <= i < |rest| :: all[i + 1] == rest[i];
    if NoneAbove(root, rest) && NoneBeside(root, rest, Landing(root, entry)) {
      forall i, j | 0 <= i < |all| && 0 <= j < |all| && all[i].regular && all[j].regular
        ensures !(Landing(root, all[i]) < Landing(root, all[j]))
      {
        if i > 0 { assert all[i] == rest[i - 1]; }
        if j > 0 { assert all[j] == rest[j - 1]; }
      }
    }
  }

  lemma EachFreeAfterStore(files: Files, root: Path, path: Path, data: seq<Byte>, rest: seq<Entry>)
    requires Store(files, path, data).failure.None?
    ensures EachFree(Store(files, path, data).files, root, rest) <==> EachFree(files, root, rest) && NoneBeside(root, rest, path)
  {
    var after := Store(files, path, data).files;
    forall i | 0 <= i < |rest| && rest[i].regular
      ensures Free(after, Landing(root, rest[i])) <==>
              Free(files, Landing(root, rest[i])) && !(path < Landing(root, rest[i])) && !(Landing(root, rest[i]) < path)
    {
      FreeAfterStore(files, path, data, Landing(root, rest[i]));
    }
  }

  lemma AllFreeAfterStore(files: Files, root: Path, entry: Entry, rest: seq<Entry>)
    requires entry.regular && Store(files, Landing(root, entry), entry.data).failure.None?
    ensures AllFree(Store(files, Landing(root, entry), entry.data).files, root, rest) <==> AllFree(files, root, [entry] + rest)
  {
    StoreSucceedsExactly(files, Landing(root, entry), entry.data);
    EachFreeAfterStore(files, root, Landing(root, entry), entry.data, rest);
    EachFreeOfMore(files, root, entry, rest);
    NoneAboveOfMore(root, entry, rest);
  }

  lemma AllFreeWithout(files: Files, root: Path, entry: Entry, rest: seq<Entry>)
    ensures !entry.regular ==> (AllFree(files, root, rest) <==> AllFree(files, root, [entry] + rest))
    ensures entry.regular && AllFree(files, root, [entry] + rest) ==> Free(files, Landing(root, entry))
    ensures AllAllowed(root, [entry] + rest) <==> Allowed(root, entry.path) && AllAllowed(root, rest)
  {
    var all := [entry] + rest;
    assert all[0] == entry && forall i | 0 <= i < |rest| :: all[i + 1] == rest[i];
    assert forall i | 0 < i < |all| :: all[i] == rest[i - 1];
  }

  lemma {:induction false} PlacingSucceedsExactly(files: Files, root: Path, entries: seq<Entry>)
    ensures PlaceAll(files, root, entries).failure.None? <==> AllAllowed(root, entries) && AllFree(files, root, entries)
    decreases |entries|
  {
    if entries != [] {
      var entry, rest := entries[0], entries[1..];
      assert entries == [entry] + rest;
      AllFreeWithout(files, root, entry, rest);
      if Allowed(root, entry.path) {
        if !entry.regular {
          PlacingSucceedsExactly(files, root, rest);
        } else {
          var path := Landing(root, entry);
          StoreSucceedsExactly(files, path, entry.data);
          if Free(files, path) {
            PlacingSucceedsExactly(Store(files, path, entry.data).files, root, rest);
            AllFreeAfterStore(files, root, entry, rest);
          }
        }
      }
    }
  }

  // The whole extraction.

  /** The output directory can be made: no NUL in its path, and no file in its place or above. */
  ghost predicate CanHold(files: Files, root: Path) {
    (forall k | 0 <= k < |root| :: '\0' !in root[k]) && forall k | 0 <= k <= |root| :: !IsFile(files, root[..k])
  }

  lemma RootSucceedsExactly(files: Files, root: Path)
    ensures MakeFolder(files, root).failure.None? <==> CanHold(files, root)
  {}

  /** Making it leaves the same places free, except for its own and those above it. */
  lemma FreeBelowRoot(files: Files, root: Path, path: Path)
    requires CanHold(files, root)
    ensures MakeFolder(files, root).failure.None?
    ensures Free(MakeFolder(files, root).files, path) <==> Free(files, path) && !(path <= root)
  {
    RootSucceedsExactly(files, root);
    var made := MakeFolder(files, root).files;
    assert path <= root <==> path in Parents(root) by {
      if path <= root { assert path == root[..|path|]; }
      if path in Parents(root) {
        var k :| 0 <= k <= |root| && path == root[..k];
      }
    }
    assert forall p: Path :: IsFile(made, p) <==> IsFile(files, p);
    if path <= root { assert !IsFile(files, root[..|path|]); }
  }

  /** Entries of a walk land at the root or below it, and the check of the target says no more than that "/" takes nothing. */
  lemma LandsBelow(root: Path, tar: seq<Byte>, rounds: nat, i: nat)
    requires i < |Walk(LooksOf(tar), 0, rounds).0|
    ensures var entry := Walk(LooksOf(tar), 0, rounds).0[i];
            root <= Landing(root, entry) && (Allowed(root, entry.path) <==> root != [] || Landing(root, entry) == [])
  {
    var entry := Walk(LooksOf(tar), 0, rounds).0[i];
    ArchivesAreSeen(tar);
    WalkNormalizes(LooksOf(tar), 0, rounds);
    assert Normalize(entry.path) == Some(entry.path);
    SecondCheckIsRedundant(root, entry.path);
  }

  lemma AllowedExactly(root: Path, tar: seq<Byte>, rounds: nat)
    ensures var entries := Walk(LooksOf(tar), 0, rounds).0;
            AllAllowed(root, entries) <==> root == [] ==> forall i | 0 <= i < |entries| :: Landing(root, entries[i]) == root
  {
    forall i: nat | i < |Walk(LooksOf(tar), 0, rounds).0| {
      LandsBelow(root, tar, rounds, i);
    }
  }

  lemma FreeInside(files: Files, root: Path, tar: seq<Byte>, rounds: nat)
    requires CanHold(files, root)
    ensures var entries := Walk(LooksOf(tar), 0, rounds).0;
            AllFree(MakeFolder(files, root).files, root, entries) <==>
            && AllFree(files, root, entries)
            && forall i | 0 <= i < |entries| && entries[i].regular :: Landing(root, entries[i]) != root
  {
    var entries, made := Walk(LooksOf(tar), 0, rounds).0, MakeFolder(files, root).files;
    forall i | 0 <= i < |entries|
      ensures Free(made, Landing(root, entries[i])) <==> Free(files, Landing(root, entries[i])) && Landing(root, entries[i]) != root
    {
      LandsBelow(root, tar, rounds, i);
      FreeBelowRoot(files, root, Landing(root, entries[i]));
    }
  }

  /**
   Exactly when an extraction succeeds: the output directory can be made, the walk ends, every regular
   entry has a free place that is not the output directory itself, and none lands above another. Into "/"
   there may be no entry but those that land on it, which then are no regular ones.
   */
  lemma ExtractionSucceedsExactly(files: Files, root: Path, tar: seq<Byte>, rounds: nat)
    ensures var (entries, ending) := Walk(LooksOf(tar), 0, rounds);
            Extracted(files, root, tar, rounds).result.Ok? <==>
            && CanHold(files, root) && ending == Ended && AllFree(files, root, entries)
            && (forall i | 0 <= i < |entries| && entries[i].regular :: Landing(root, entries[i]) != root)
            && (root == [] ==> forall i | 0 <= i < |entries| :: Landing(root, entries[i]) == root)
  {
    var entries := Walk(LooksOf(tar), 0, rounds).0;
    AllowedExactly(root, tar, rounds);
    RootSucceedsExactly(files, root);
    if CanHold(files, root) {
      PlacingSucceedsExactly(MakeFolder(files, root).files, root, entries);
      FreeInside(files, root, tar, rounds);
    }
  }

  // What is above a file.

  lemma {:induction false} PlaceStaysFolder(files: Files, root: Path, entries: seq<Entry>, path: Path)
    requires PlaceAll(files, root, entries).failure.None? && IsFolder(files, path)
    ensures IsFolder(PlaceAll(files, root, entries).files, path)
    decreases |entries|
  {
    if entries != [] {
      var entry := entries[0];
      if entry.regular { StoreChanges(files, Landing(root, entry), entry.data, path); }
      PlaceStaysFolder(Place(files, root, entry).files, root, entries[1..], path);
    }
  }

  lemma {:induction false} PlacedParents(files: Files, root: Path, entries: seq<Entry>, i: nat, k: nat)
    requires PlaceAll(files, root, entries).failure.None?
    requires i < |entries| && entries[i].regular && k < |Landing(root, entries[i])|
    ensures IsFolder(PlaceAll(files, root, entries).files, Landing(root, entries[i])[..k])
    decreases i
  {
    var entry, rest := entries[0], entries[1..];
    var after := Place(files, root, entry).files;
    if i == 0 {
      var path := Landing(root, entry);
      StoreChanges(files, path, entry.data, path[..k]);
      PlaceStaysFolder(after, root, rest, path[..k]);
    } else {
      assert rest[i - 1] == entries[i];
      PlacedParents(after, root, rest, i - 1, k);
    }
  }

  /** After success everything above a landed file is a folder, up to the top of the file system. */
  lemma ParentsAreFolders(files: Files, root: Path, tar: seq<Byte>, rounds: nat, i: nat, k: nat)
    requires Extracted(files, root, tar, rounds).result.Ok?
    requires i < |Walk(LooksOf(tar), 0, rounds).0| && Walk(LooksOf(tar), 0, rounds).0[i].regular
    requires k < |Landing(root, Walk(LooksOf(tar), 0, rounds).0[i])|
    ensures IsFolder(Extracted(files, root, tar, rounds).files, Landing(root, Walk(LooksOf(tar), 0, rounds).0[i])[..k])
  {
    PlacedParents(MakeFolder(files, root).files, root, Walk(LooksOf(tar), 0, rounds).0, i, k);
  }
}
