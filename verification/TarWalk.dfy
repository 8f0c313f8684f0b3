/**
 The walk over the headers of a build context, shared by the reader and the extractor
 (apps/api/src/build-context.ts, lines 67 to 90 and 129 to 152). What it does depends on the archive
 only by what there is to see at each offset.
 */
module TarWalk {
  import opened Wrappers
  import opened TarPath
  import opened TarHeader

  type Looks = int -> Look

  function LooksOf(tar: seq<Byte>): Looks {
    (offset: int) => LookAt(tar, offset)
  }

  /** What holds of the looks of every archive of that length. */
  ghost predicate Sees(looks: Looks, length: nat) {
    && (forall o: int :: !looks(o).Stop? ==> 0 < o + 512 + length && o + 512 <= length)
    && (forall o: int :: looks(o) != Bad(Unfinished))
    && (forall o: int :: looks(o).Found? && looks(o).next.Some? ==>
          looks(o).next.value == o + 512 + Padded(looks(o).entry.size))
  }

  ghost predicate SeesNormalPaths(looks: Looks) {
    forall o: int :: looks(o).Found? ==> Normalize(looks(o).entry.path) == Some(looks(o).entry.path)
  }

  lemma ArchivesAreSeen(tar: seq<Byte>)
    ensures Sees(LooksOf(tar), |tar|) && SeesNormalPaths(LooksOf(tar))
  {}

  datatype Ending = Ended | Failed(error: Error)

  /** Every entry from offset on, in order, and how the walk ends; rounds bounds the turns of the loop. */
  function Walk(looks: Looks, offset: int, rounds: nat): (seq<Entry>, Ending)
    decreases rounds
  {
    match looks(offset)
    case Stop => ([], Ended)
    case Bad(error) => ([], if rounds == 0 then Failed(Unfinished) else Failed(error))
    case Found(entry, next) =>
      if rounds == 0 then ([], Failed(Unfinished))
      else if next.None? then ([entry], Ended)
      else
        var (rest, ending) := Walk(looks, next.value, rounds - 1);
        ([entry] + rest, ending)
  }

  /**
   The walk moves by whole blocks. It advances exactly when the size is more than -512, and stays where
   it is exactly when the size is -512 to -1023.
   */
  lemma StepsAreBlocks(looks: Looks, length: nat, offset: int)
    requires Sees(looks, length) && looks(offset).Found? && looks(offset).next.Some?
    ensures var size, next := looks(offset).entry.size, looks(offset).next.value;
            && (next - offset) % 512 == 0
            && (next > offset <==> size > -512)
            && (next == offset <==> -1023 <= size <= -512)
  {
    PaddedIsBlocks(looks(offset).entry.size);
  }

  ghost predicate Forward(entries: seq<Entry>) {
    forall k | 0 <= k < |entries| :: entries[k].size > -512
  }

  /** While no size is -512 or less the walk ends, after as many rounds as there are blocks at most. */
  lemma {:induction false} ForwardWalksEnd(looks: Looks, length: nat, offset: int, rounds: nat)
    requires Sees(looks, length) && Forward(Walk(looks, offset, rounds).0) && offset + 512 * (rounds + 1) > length
    ensures Walk(looks, offset, rounds).1 != Failed(Unfinished)
    decreases rounds
  {
    var look := looks(offset);
    if look.Found? && look.next.Some? && rounds > 0 {
      var walk := Walk(looks, offset, rounds).0;
      var rest := Walk(looks, look.next.value, rounds - 1).0;
      assert walk[0] == look.entry && walk[1..] == rest;
      assert forall k | 0 <= k < |rest| :: rest[k] == walk[k + 1];
      PaddedIsBlocks(look.entry.size);
      ForwardWalksEnd(looks, length, look.next.value, rounds - 1);
    }
  }

  /** A walk that has ended is not changed by more rounds. */
  lemma {:induction false} MoreRounds(looks: Looks, offset: int, rounds: nat, more: nat)
    requires Walk(looks, offset, rounds).1 != Failed(Unfinished)
    ensures Walk(looks, offset, rounds + more) == Walk(looks, offset, rounds)
    decreases rounds
  {
    var look := looks(offset);
    if look.Found? && look.next.Some? && rounds > 0 {
      MoreRounds(looks, look.next.value, rounds - 1, more);
    }
  }

  /** From offset on, one after the other, there is this to see, and then the end. */
  ghost predicate Shows(looks: Looks, offset: int, seen: seq<Look>)
    decreases |seen|
  {
    if seen == [] then looks(offset).Stop?
    else
      && looks(offset) == seen[0]
      && (seen[0].Found? && seen[0].next.Some? ==> Shows(looks, seen[0].next.value, seen[1..]))
  }

  /** The entries seen, up to a failure or an entry without a next one. */
  function Collected(seen: seq<Look>): (seq<Entry>, Ending) {
    if seen == [] || seen[0].Stop? then ([], Ended)
    else if seen[0].Bad? then ([], Failed(seen[0].error))
    else if seen[0].next.None? then ([seen[0].entry], Ended)
    else
      var (rest, ending) := Collected(seen[1..]);
      ([seen[0].entry] + rest, ending)
  }

  lemma ShowsMore(looks: Looks, offset: int, look: Look, rest: seq<Look>)
    requires looks(offset) == look && (look.Found? && look.next.Some? ==> Shows(looks, look.next.value, rest))
    ensures Shows(looks, offset, [look] + rest)
  {
    assert ([look] + rest)[1..] == rest;
  }

  /** The walk collects what there is to see, given a round for each. */
  lemma {:induction false} WalkCollects(looks: Looks, offset: int, seen: seq<Look>, rounds: nat)
    requires Shows(looks, offset, seen) && |seen| <= rounds
    ensures Walk(looks, offset, rounds) == Collected(seen)
    decreases |seen|
  {
    if seen != [] && seen[0].Found? && seen[0].next.Some? {
      WalkCollects(looks, seen[0].next.value, seen[1..], rounds - 1);
    }
  }

  /** The first regular entry with the path. */
  function First(entries: seq<Entry>, path: string): Option<Entry> {
    if entries == [] then None
    else if entries[0].regular && entries[0].path == path then Some(entries[0])
    else First(entries[1..], path)
  }

  /** The last one. */
  function Last(entries: seq<Entry>, path: string): Option<Entry> {
    if entries == [] then None
    else
      var e := entries[|entries| - 1];
      if e.regular && e.path == path then Some(e) else Last(entries[..|entries| - 1], path)
  }

  /** The reader's answer for an entry: the size is checked, the bytes are returned. */
  function Content(entry: Entry, maxBytes: nat): Result<seq<Byte>, Error> {
    if entry.size > maxBytes then Err(TooLarge) else Ok(entry.data)
  }

  /** What the reader returns for a normalised path, said of the whole walk. */
  function Answer(looks: Looks, offset: int, wanted: string, maxBytes: nat, rounds: nat): Result<seq<Byte>, Error> {
    var (entries, ending) := Walk(looks, offset, rounds);
    match First(entries, wanted)
    case Some(entry) => Content(entry, maxBytes)
    case None => Err(if ending.Failed? then ending.error else Missing)
  }

  function ReadResult(tar: seq<Byte>, filePath: string, maxBytes: nat, rounds: nat): Result<seq<Byte>, Error> {
    match Normalize(filePath)
    case None => Err(UnsafePath)
    case Some(wanted) => Answer(LooksOf(tar), 0, wanted, maxBytes, rounds)
  }

  lemma FirstOfMore(entry: Entry, rest: seq<Entry>, path: string)
    ensures First([entry] + rest, path) ==
            if entry.regular && entry.path == path then Some(entry) else First(rest, path)
  {
    assert ([entry] + rest)[1..] == rest;
  }

  lemma WalkAt(looks: Looks, offset: int, rounds: nat)
    ensures var look := looks(offset);
            Walk(looks, offset, rounds) ==
            if look.Stop? then ([], Ended)
            else if rounds == 0 then ([], Failed(Unfinished))
            else if look.Bad? then ([], Failed(look.error))
            else if look.next.None? then ([look.entry] + [], Ended)
            else ([look.entry] + Walk(looks, look.next.value, rounds - 1).0, Walk(looks, look.next.value, rounds - 1).1)
  {
    var look := looks(offset);
    if look.Found? { assert [look.entry] + [] == [look.entry]; }
  }

  /** What follows the first match decides nothing, even when the walk of the whole fails there or never ends. */
  lemma AnswerAt(looks: Looks, offset: int, wanted: string, maxBytes: nat, rounds: nat)
    ensures var look := looks(offset);
            Answer(looks, offset, wanted, maxBytes, rounds) ==
            if look.Stop? then Err(Missing)
            else if rounds == 0 then Err(Unfinished)
            else if look.Bad? then Err(look.error)
            else if look.entry.regular && look.entry.path == wanted then Content(look.entry, maxBytes)
            else if look.next.None? then Err(Missing)
            else Answer(looks, look.next.value, wanted, maxBytes, rounds - 1)
  {
    var look := looks(offset);
    WalkAt(looks, offset, rounds);
    if look.Found? && rounds > 0 {
      var rest := if look.next.Some? then Walk(looks, look.next.value, rounds - 1).0 else [];
      assert Walk(looks, offset, rounds).0 == [look.entry] + rest;
      FirstOfMore(look.entry, rest, wanted);
    }
  }

  /** readTextFileFromTarGzipBuildContext on the unpacked archive: it stops at the first match. */
  method ReadTextFile(tar: seq<Byte>, filePath: string, maxBytes: nat, rounds: nat) returns (result: Result<seq<Byte>, Error>)
    ensures result == ReadResult(tar, filePath, maxBytes, rounds)
  {
    var wanted := Normalize(filePath);
    if wanted.None? { return Err(UnsafePath); }
    ArchivesAreSeen(tar);
    result := ReadLoop(LooksOf(tar), |tar|, wanted.value, maxBytes, rounds);
  }

  method ReadLoop(looks: Looks, length: nat, wanted: string, maxBytes: nat, rounds: nat) returns (result: Result<seq<Byte>, Error>)
    requires Sees(looks, length)
    ensures result == Answer(looks, 0, wanted, maxBytes, rounds)
  {
    var offset, left := 0, rounds;
    while offset + 512 <= length
      invariant Answer(looks, offset, wanted, maxBytes, left) == Answer(looks, 0, wanted, maxBytes, rounds)
      decreases left
    {
      AnswerAt(looks, offset, wanted, maxBytes, left);
      var look := looks(offset);
      if look.Stop? { break; }
      if left == 0 { return Err(Unfinished); }
      if look.Bad? { return Err(look.error); }
      var entry := look.entry;
      if entry.regular && entry.path == wanted {
        return if entry.size > maxBytes then Err(TooLarge) else Ok(entry.data);
      }
      // without a number the next offset is not one either, and the loop ends
      if look.next.None? { return Err(Missing); }
      offset, left := look.next.value, left - 1;
    }
    AnswerAt(looks, offset, wanted, maxBytes, left);
    return Err(Missing);
  }

  // Walks that never end.

  /** The offset after n turns, None when the walk has ended before. */
  function After(looks: Looks, offset: int, n: nat): Option<int>
    decreases n
  {
    if n == 0 then Some(offset)
    else
      var look := looks(offset);
      if look.Found? && look.next.Some? then After(looks, look.next.value, n - 1) else None
  }

  /** There is a header to look at in turn n. */
  predicate Goes(looks: Looks, offset: int, n: nat) {
    After(looks, offset, n).Some? && !looks(After(looks, offset, n).value).Stop?
  }

  lemma {:induction false} AfterSum(looks: Looks, offset: int, m: nat, n: nat)
    requires After(looks, offset, m).Some?
    ensures After(looks, offset, m + n) == After(looks, After(looks, offset, m).value, n)
    decreases m
  {
    if m > 0 { AfterSum(looks, looks(offset).next.value, m - 1, n); }
  }

  lemma {:induction false} GoesBefore(looks: Looks, offset: int, m: nat, n: nat)
    requires m <= n && Goes(looks, offset, n)
    ensures Goes(looks, offset, m)
    decreases m
  {
    if 0 < m {
      GoesBefore(looks, looks(offset).next.value, m - 1, n - 1);
    }
  }

  /** The rounds suffice exactly when there is no header left after them. */
  lemma {:induction false} UnfinishedExactly(looks: Looks, offset: int, rounds: nat)
    requires forall o: int :: looks(o) != Bad(Unfinished)
    ensures Walk(looks, offset, rounds).1 == Failed(Unfinished) <==> Goes(looks, offset, rounds)
    decreases rounds
  {
    var look := looks(offset);
    if look.Found? && look.next.Some? && rounds > 0 { UnfinishedExactly(looks, look.next.value, rounds - 1); }
  }

  /** An offset that comes twice comes again for ever. */
  lemma {:induction false} ComesAgain(looks: Looks, offset: int, i: nat, j: nat, n: nat)
    requires i < j && Goes(looks, offset, i) && Goes(looks, offset, j) && After(looks, offset, i) == After(looks, offset, j)
    ensures Goes(looks, offset, n)
    decreases n
  {
    if n <= j {
      GoesBefore(looks, offset, n, j);
    } else {
      ComesAgain(looks, offset, i, j, n - j + i);
      AfterSum(looks, offset, i, n - j);
      AfterSum(looks, offset, j, n - j);
    }
  }

  /** At an entry that leads back to itself the loops stay for ever, unless the reader wants that very entry. */
  lemma {:induction false} StaysForEver(looks: Looks, offset: int, wanted: string, maxBytes: nat, rounds: nat)
    requires looks(offset).Found? && looks(offset).next == Some(offset)
    requires !(looks(offset).entry.regular && looks(offset).entry.path == wanted)
    ensures Walk(looks, offset, rounds).1 == Failed(Unfinished)
    ensures Answer(looks, offset, wanted, maxBytes, rounds) == Err(Unfinished)
    decreases rounds
  {
    AnswerAt(looks, offset, wanted, maxBytes, rounds);
    if rounds > 0 { StaysForEver(looks, offset, wanted, maxBytes, rounds - 1); }
  }

  /** Different numbers from an interval are no more than the interval is long. */
  lemma {:induction false} AtMost(numbers: seq<int>, low: int, high: int)
    requires low <= high && forall i | 0 <= i < |numbers| :: low <= numbers[i] < high
    requires forall i, j | 0 <= i < j < |numbers| :: numbers[i] != numbers[j]
    ensures |numbers| <= high - low
    decreases high - low
  {
    if numbers != [] {
      var top := high - 1;
      if top in numbers {
        var k :| 0 <= k < |numbers| && numbers[k] == top;
        var rest := numbers[..k] + numbers[k + 1..];
        forall i | 0 <= i < |rest| ensures low <= rest[i] < top {
          assert rest[i] == if i < k then numbers[i] else numbers[i + 1];
        }
        forall i, j | 0 <= i < j < |rest| ensures rest[i] != rest[j] {
          assert rest[i] == if i < k then numbers[i] else numbers[i + 1];
          assert rest[j] == if j < k then numbers[j] else numbers[j + 1];
        }
        AtMost(rest, low, top);
      } else {
        assert forall i | 0 <= i < |numbers| :: numbers[i] in numbers;
        AtMost(numbers, low, top);
      }
    }
  }

  ghost predicate Apart(looks: Looks, i: nat, j: nat) {
    Goes(looks, 0, i) && Goes(looks, 0, j) ==> After(looks, 0, i) != After(looks, 0, j)
  }

  /**
   The exact condition for the loops to end: no offset comes twice. Then twice the length of the archive
   is rounds enough.
   */
  lemma EndsExactly(looks: Looks, length: nat)
    requires Sees(looks, length)
    ensures Walk(looks, 0, 2 * length).1 != Failed(Unfinished) <==> forall i: nat, j: nat | i < j :: Apart(looks, i, j)
    ensures Walk(looks, 0, 2 * length).1 == Failed(Unfinished) ==> forall n: nat :: Walk(looks, 0, n).1 == Failed(Unfinished)
  {
    var n := 2 * length;
    UnfinishedExactly(looks, 0, n);
    if Goes(looks, 0, n) {
      var i, j := SomeTwice(looks, length);
      assert !Apart(looks, i, j);
      forall m: nat ensures Walk(looks, 0, m).1 == Failed(Unfinished) {
        ComesAgain(looks, 0, i, j, m);
        UnfinishedExactly(looks, 0, m);
      }
    } else {
      forall i: nat, j: nat | i < j ensures Apart(looks, i, j) {
        if !Apart(looks, i, j) { ComesAgain(looks, 0, i, j, n); }
      }
    }
  }

  lemma SomeTwice(looks: Looks, length: nat) returns (i: nat, j: nat)
    requires Sees(looks, length) && Goes(looks, 0, 2 * length)
    ensures i < j && !Apart(looks, i, j)
  {
    var n := 2 * length;
    forall k: nat | k <= n ensures Goes(looks, 0, k) { GoesBefore(looks, 0, k, n); }
    var offsets := seq(n + 1, (k: nat) requires Goes(looks, 0, k) => After(looks, 0, k).value);
    var low: int := 1 - 512 - length;
    forall k | 0 <= k <= n ensures low <= offsets[k] < low + n {
      assert Goes(looks, 0, k) && !looks(offsets[k]).Stop?;
    }
    if forall a, b | 0 <= a < b < |offsets| :: offsets[a] != offsets[b] {
      AtMost(offsets, low, low + n);
      assert false;
    }
    i, j :| 0 <= i < j < |offsets| && offsets[i] == offsets[j];
    assert Goes(looks, 0, i) && Goes(looks, 0, j);
  }
}
