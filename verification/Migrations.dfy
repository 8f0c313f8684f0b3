/**
 Migrations by any number of processes at once (apps/api/src/migrate.ts, lines 9 to 36): the
 advisory lock, one transaction a file, and what crashes and failing SQL can do to them.
 */
module Migrations {
  import opened Wrappers

  /** Where a process is, by the next query it makes; i is the file of its loop. */
  datatype Proc =
    | Lock
    | Select(i: nat)
    | Execute(i: nat)
    | Record(i: nat)
    | Commit(i: nat)
    | Unlock(failed: bool)
    | Returned
    | Raised
    | Dead

  /** What the open transaction would commit. */
  datatype Draft = Draft(effects: seq<string>, rows: seq<string>)

  datatype State = State(
    effects: seq<string>,       // files whose SQL has been committed, in commit order
    history: seq<string>,       // the rows of schema_migrations, in commit order
    lock: Option<nat>,
    draft: Draft,               // of the process that holds the lock
    procs: map<nat, Proc>)

  datatype Event =
    | Spawn(pid: nat)
    | Advance(pid: nat)         // the next query succeeds
    | Fail(pid: nat)            // it raises and has done nothing
    | CommitUnknown(pid: nat)   // COMMIT is done but raises
    | Crash(pid: nat)           // the connection is gone

  const NOTHING := Draft([], [])

  ghost predicate Distinct(files: seq<string>) {
    forall i, j | 0 <= i < j < |files| :: files[i] != files[j]
  }

  function Goes(s: State, pid: nat, p: Proc): State {
    s.(procs := s.procs[pid := p])
  }

  function Committed(s: State): State {
    s.(effects := s.effects + s.draft.effects, history := s.history + s.draft.rows, draft := NOTHING)
  }

  predicate Holding(p: Proc) {
    p.Select? || p.Execute? || p.Record? || p.Commit? || p.Unlock?
  }

  /** The loop at its i-th file, or past its end. */
  function Loop(files: seq<string>, i: nat): Proc {
    if i < |files| then Select(i) else Unlock(false)
  }

  function Next(s: State, files: seq<string>, pid: nat): State
    requires pid in s.procs
  {
    match s.procs[pid]
    case Lock => if s.lock.Some? then s else Goes(s, pid, Loop(files, 0)).(lock := Some(pid), draft := NOTHING)
    case Select(i) =>
      if i < |files| && files[i] in s.history then Goes(s, pid, Loop(files, i + 1))
      else Goes(s, pid, Execute(i))
    case Execute(i) =>
      if i < |files| then Goes(s, pid, Record(i)).(draft := s.draft.(effects := s.draft.effects + [files[i]])) else s
    case Record(i) =>
      if i < |files| && files[i] !in s.history
      then Goes(s, pid, Commit(i)).(draft := s.draft.(rows := s.draft.rows + [files[i]]))
      else Goes(s, pid, Unlock(true)).(draft := NOTHING)
    case Commit(i) => Goes(Committed(s), pid, Loop(files, i + 1))
    case Unlock(failed) => Goes(s, pid, if failed then Raised else Returned).(lock := None, draft := NOTHING)
    case _ => s
  }

  function Step(s: State, files: seq<string>, e: Event): State {
    match e
    case Spawn(pid) => if pid in s.procs then s else Goes(s, pid, Lock)
    case Advance(pid) => if pid in s.procs then Next(s, files, pid) else s
    case Fail(pid) =>
      if pid !in s.procs then s
      else if s.procs[pid].Lock? then Goes(s, pid, Raised)
      else if Holding(s.procs[pid]) && !s.procs[pid].Unlock? then Goes(s, pid, Unlock(true)).(draft := NOTHING)
      else s
    case CommitUnknown(pid) =>
      if pid in s.procs && s.procs[pid].Commit? then Goes(Committed(s), pid, Unlock(true)) else s
    case Crash(pid) =>
      if pid !in s.procs then s
      else if s.lock == Some(pid) then Goes(s, pid, Dead).(lock := None, draft := NOTHING)
      else Goes(s, pid, Dead)
  }

  function Run(s: State, files: seq<string>, events: seq<Event>): State {
    if events == [] then s else Step(Run(s, files, events[..|events| - 1]), files, events[|events| - 1])
  }

  function Fresh(): State {
    State([], [], None, NOTHING, map[])
  }

  /** The prefix of files that is applied, and what a process past its lock knows about it. */
  ghost predicate ProcSound(s: State, files: seq<string>, pid: nat, p: Proc) {
    && (Holding(p) <==> s.lock == Some(pid))
    && (p.Select? ==> p.i <= |s.history| && p.i < |files| && s.draft == NOTHING)
    && (p.Execute? ==> p.i == |s.history| < |files| && s.draft == NOTHING)
    && (p.Record? ==> p.i == |s.history| < |files| && s.draft == Draft([files[p.i]], []))
    && (p.Commit? ==> p.i == |s.history| < |files| && s.draft == Draft([files[p.i]], [files[p.i]]))
    && (p.Unlock? ==> s.draft == NOTHING)
    && (p == Unlock(false) || p == Returned ==> s.history == files)
  }

  ghost predicate Inv(s: State, files: seq<string>) {
    && s.history <= files && s.effects == s.history
    && (s.lock.Some? ==> s.lock.value in s.procs)
    && (forall pid | pid in s.procs :: ProcSound(s, files, pid, s.procs[pid]))
  }

  lemma NextKeeps(s: State, files: seq<string>, pid: nat)
    requires Distinct(files) && Inv(s, files) && pid in s.procs
    ensures Inv(Next(s, files, pid), files)
  {
    var p, t := s.procs[pid], Next(s, files, pid);
    assert ProcSound(s, files, pid, p);
    if p.Commit? {
      assert t.history == files[..p.i] + [files[p.i]];
      assert files[..p.i + 1] == files[..p.i] + [files[p.i]];
    }
    forall q | q in t.procs ensures ProcSound(t, files, q, t.procs[q]) {
      if q != pid { assert ProcSound(s, files, q, s.procs[q]); }
    }
  }

  lemma {:induction false} StepKeeps(s: State, files: seq<string>, e: Event)
    requires Distinct(files) && Inv(s, files)
    ensures Inv(Step(s, files, e), files)
  {
    var t := Step(s, files, e);
    if e.Advance? {
      if e.pid in s.procs { NextKeeps(s, files, e.pid); }
    } else {
      if e.CommitUnknown? && t != s {
        var i := s.procs[e.pid].i;
        assert ProcSound(s, files, e.pid, s.procs[e.pid]);
        assert files[..i + 1] == files[..i] + [files[i]];
      }
      forall q | q in t.procs ensures ProcSound(t, files, q, t.procs[q]) {
        if q in s.procs { assert ProcSound(s, files, q, s.procs[q]); }
      }
    }
  }

  lemma {:induction false} RunKeeps(s: State, files: seq<string>, events: seq<Event>)
    requires Distinct(files) && Inv(s, files)
    ensures Inv(Run(s, files, events), files)
  {
    if events != [] {
      RunKeeps(s, files, events[..|events| - 1]);
      StepKeeps(Run(s, files, events[..|events| - 1]), files, events[|events| - 1]);
    }
  }

  /**
   Whatever the processes do and wherever they fail: the applied files are a prefix of the list, in
   order; each file's SQL has been committed exactly as often as it is recorded, that is once at most;
   one process migrates at a time; and a run that returns has left the whole list applied.
   */
  lemma AppliedIsAPrefix(files: seq<string>, events: seq<Event>)
    requires Distinct(files)
    ensures var s := Run(Fresh(), files, events);
            && s.history <= files && s.effects == s.history && Distinct(s.effects)
            && (forall p, q | p in s.procs && q in s.procs && Holding(s.procs[p]) && Holding(s.procs[q]) :: p == q)
            && (forall pid | pid in s.procs && s.procs[pid].Returned? :: s.history == files)
  {
    RunKeeps(Fresh(), files, events);
    var s := Run(Fresh(), files, events);
    forall p, q | p in s.procs && q in s.procs && Holding(s.procs[p]) && Holding(s.procs[q]) ensures p == q {
      assert ProcSound(s, files, p, s.procs[p]) && ProcSound(s, files, q, s.procs[q]);
    }
    forall pid | pid in s.procs && s.procs[pid].Returned? ensures s.history == files {
      assert ProcSound(s, files, pid, s.procs[pid]);
    }
  }

  /** What has been applied stays applied. */
  lemma {:induction false} HistoryGrows(files: seq<string>, events: seq<Event>, later: seq<Event>)
    ensures Run(Fresh(), files, events).history <= Run(Fresh(), files, events + later).history
    decreases |later|
  {
    if later == [] {
      assert events + later == events;
    } else {
      var all := events + later;
      assert all[..|all| - 1] == events + later[..|later| - 1];
      HistoryGrows(files, events, later[..|later| - 1]);
    }
  }

  // Runs fail for a fault only, and without one they come to their end.

  /** A query of the process raised. */
  predicate IsFault(e: Event, pid: nat) {
    e == Fail(pid) || e == CommitUnknown(pid)
  }

  ghost predicate SomeFault(events: seq<Event>, pid: nat) {
    exists k :: 0 <= k < |events| && IsFault(events[k], pid)
  }

  predicate HasFailed(s: State, pid: nat) {
    pid in s.procs && (s.procs[pid] == Unlock(true) || s.procs[pid].Raised?)
  }

  lemma FailsForFault(s: State, files: seq<string>, e: Event, pid: nat)
    requires Distinct(files) && Inv(s, files) && !HasFailed(s, pid) && HasFailed(Step(s, files, e), pid)
    ensures IsFault(e, pid)
  {
    if pid in s.procs {
      assert ProcSound(s, files, pid, s.procs[pid]);
    }
  }

  /** A process raises only if one of its own queries did; the others cannot make it fail. */
  lemma {:induction false} OnlyFaultsFail(files: seq<string>, events: seq<Event>, pid: nat)
    requires Distinct(files) && HasFailed(Run(Fresh(), files, events), pid)
    ensures SomeFault(events, pid)
    decreases |events|
  {
    if events != [] {
      var less, e := events[..|events| - 1], events[|events| - 1];
      if HasFailed(Run(Fresh(), files, less), pid) {
        OnlyFaultsFail(files, less, pid);
        var k :| 0 <= k < |less| && IsFault(less[k], pid);
        assert events[k] == less[k];
      } else {
        RunKeeps(Fresh(), files, less);
        FailsForFault(Run(Fresh(), files, less), files, e, pid);
      }
    }
  }

  /** The process holds the lock and comes to file i, and the files before it are applied. */
  function Before(files: seq<string>, i: nat, pid: nat): State
    requires i <= |files|
  {
    State(files[..i], files[..i], Some(pid), NOTHING, map[pid := Loop(files, i)])
  }

  lemma RunOn(s: State, files: seq<string>, events: seq<Event>, e: Event)
    ensures Run(s, files, events + [e]) == Step(Run(s, files, events), files, e)
  {
    assert (events + [e])[..|events|] == events;
  }

  /** Four queries apply the next file. */
  lemma OneFile(files: seq<string>, i: nat, pid: nat)
    requires Distinct(files) && i < |files|
    ensures var s, e := Before(files, i, pid), Advance(pid);
            Step(Step(Step(Step(s, files, e), files, e), files, e), files, e) == Before(files, i + 1, pid)
  {
    var s := Before(files, i, pid);
    assert files[i] !in files[..i];
    var s1 := Goes(s, pid, Execute(i));
    var s2 := Goes(s, pid, Record(i)).(draft := Draft([files[i]], []));
    var s3 := Goes(s, pid, Commit(i)).(draft := Draft([files[i]], [files[i]]));
    assert [] + [files[i]] == [files[i]];
    assert Step(s, files, Advance(pid)) == s1;
    assert Step(s1, files, Advance(pid)) == s2;
    assert Step(s2, files, Advance(pid)) == s3;
    assert files[..i] + [files[i]] == files[..i + 1];
    assert Step(s3, files, Advance(pid)) == Before(files, i + 1, pid);
  }

  lemma {:induction false} AppliesUpTo(files: seq<string>, i: nat, pid: nat) returns (events: seq<Event>)
    requires Distinct(files) && i <= |files|
    ensures Run(Fresh(), files, events) == Before(files, i, pid)
    ensures forall e | e in events :: e == Spawn(pid) || e == Advance(pid)
  {
    if i == 0 {
      events := [];
      RunOn(Fresh(), files, events, Spawn(pid));
      events := events + [Spawn(pid)];
      RunOn(Fresh(), files, events, Advance(pid));
      events := events + [Advance(pid)];
      assert files[..0] == [];
    } else {
      events := AppliesUpTo(files, i - 1, pid);
      OneFile(files, i - 1, pid);
      RunOn(Fresh(), files, events, Advance(pid));
      RunOn(Fresh(), files, events + [Advance(pid)], Advance(pid));
      RunOn(Fresh(), files, events + [Advance(pid)] + [Advance(pid)], Advance(pid));
      RunOn(Fresh(), files, events + [Advance(pid)] + [Advance(pid)] + [Advance(pid)], Advance(pid));
      events := events + [Advance(pid)] + [Advance(pid)] + [Advance(pid)] + [Advance(pid)];
    }
  }

  /** Alone and without a fault, a process applies every file and returns, with the lock free again. */
  lemma RunReturns(files: seq<string>, pid: nat) returns (events: seq<Event>)
    requires Distinct(files)
    ensures var s := Run(Fresh(), files, events);
            && s.history == s.effects == files && s.lock.None? && s.procs == map[pid := Returned]
    ensures forall e | e in events :: e == Spawn(pid) || e == Advance(pid)
  {
    events := AppliesUpTo(files, |files|, pid);
    RunOn(Fresh(), files, events, Advance(pid));
    events := events + [Advance(pid)];
    assert files[..|files|] == files;
  }
}
