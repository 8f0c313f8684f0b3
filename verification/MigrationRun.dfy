/**
 One run of migrate as the program it is (apps/api/src/migrate.ts, lines 9 to 36), among other
 processes that run it too. Between any two of its queries the others may act, and any query may
 fail or be the last thing the process does.
 */
module MigrationRun {
  import opened Wrappers
  import opened Migrations

  datatype Outcome = Done | Threw | Died

  predicate About(e: Event, pid: nat) {
    e.pid == pid
  }

  class Connection {
    const pid: nat
    const files: seq<string>
    var effects: seq<string>
    var history: seq<string>
    var lock: Option<nat>
    var draft: Draft
    var others: map<nat, Proc>
    var script: seq<Event>
    ghost const future: seq<Event>
    ghost var trace: seq<Event>
    ghost var world: State

    function Rest(): State
      reads this
    {
      State(effects, history, lock, draft, others)
    }

    ghost predicate Valid()
      reads this
    {
      && Distinct(files)
      && world == Run(Fresh(), files, trace) && trace + script == future && pid !in others
    }

    /** The machine stands where this process is about to do p. */
    ghost predicate Facing(p: Proc)
      reads this
    {
      Valid() && world == Goes(Rest(), pid, p)
    }

    ghost predicate Ended(outcome: Outcome)
      reads this
    {
      match outcome
      case Done => Facing(Returned)
      case Threw => Facing(Raised)
      case Died => Valid() && exists p :: world == Goes(Rest(), pid, p) && (p == Dead || script == [])
    }

    constructor (p: nat, list: seq<string>, before: seq<Event>, after: seq<Event>)
      requires Distinct(list) && p !in Run(Fresh(), list, before).procs
      ensures Valid() && world == Rest() == Run(Fresh(), list, before)
      ensures pid == p && files == list && script == after && trace == before
    {
      var s := Run(Fresh(), list, before);
      pid, files := p, list;
      effects, history, lock, draft, others := s.effects, s.history, s.lock, s.draft, s.procs;
      script, trace, world := after, before, s;
      future := before + after;
    }

    method NextEvent() returns (e: Event)
      requires Valid() && script != []
      modifies `script, `trace, `world
      ensures Valid() && e == old(script)[0] && world == Step(old(world), files, e) && script == old(script)[1..]
    {
      e := script[0];
      script, trace, world := script[1..], trace + [e], Step(world, files, e);
      assert trace[..|trace| - 1] == old(trace);
      assert trace + script == old(trace + script);
    }

    static lemma Regoes(s: State, pid: nat, p: Proc, q: Proc)
      ensures Goes(Goes(s, pid, p), pid, q) == Goes(s, pid, q)
    {}

    static lemma GoesApart(s: State, pid: nat, p: Proc, q: nat, r: Proc)
      requires q != pid
      ensures Goes(Goes(s, pid, p), q, r) == Goes(Goes(s, q, r), pid, p)
    {
      assert s.procs[pid := p][q := r] == s.procs[q := r][pid := p];
    }

    static lemma NextApart(s: State, files: seq<string>, pid: nat, p: Proc, q: nat)
      requires pid !in s.procs && q in s.procs
      ensures pid !in Next(s, files, q).procs && Next(Goes(s, pid, p), files, q) == Goes(Next(s, files, q), pid, p)
    {
      GoesApart(s, pid, p, q, Next(s, files, q).procs[q]);
    }

    /** What the others do does not depend on where this process is. */
    static lemma OthersApart(s: State, files: seq<string>, pid: nat, p: Proc, e: Event)
      requires pid !in s.procs && !About(e, pid)
      ensures pid !in Step(s, files, e).procs
      ensures Step(Goes(s, pid, p), files, e) == Goes(Step(s, files, e), pid, p)
    {
      var q := e.pid;
      match e {
        case Spawn(_) => GoesApart(s, pid, p, q, Lock);
        case Advance(_) => if q in s.procs { NextApart(s, files, pid, p, q); }
        case Fail(_) => GoesApart(s, pid, p, q, Raised); GoesApart(s, pid, p, q, Unlock(true));
        case CommitUnknown(_) => GoesApart(s, pid, p, q, Unlock(true));
        case Crash(_) => GoesApart(s, pid, p, q, Dead);
      }
    }

    /** Waits for this process's next query, which succeeds, fails, or never happens. */
    method Turn(p: Proc) returns (turn: Option<Event>)
      requires Facing(p) && (p.Lock? || Holding(p))
      modifies this
      ensures turn.None? ==> Ended(Died)
      ensures turn.Some? ==>
                && Valid() && world == Step(Goes(Rest(), pid, p), files, turn.value)
                && turn.value.pid == pid
                && match turn.value
                   case Advance(_) => p.Lock? ==> lock.None?
                   case Fail(_) => !p.Unlock?
                   case CommitUnknown(_) => p.Commit?
                   case _ => false
    {
      while script != []
        invariant Facing(p)
        decreases |script|
      {
        var e := NextEvent();
        if !About(e, pid) {
          OthersApart(Rest(), files, pid, p, e);
          var s := Step(Rest(), files, e);
          effects, history, lock, draft, others := s.effects, s.history, s.lock, s.draft, s.procs;
        } else if e.Crash? {
          if lock == Some(pid) { lock, draft := None, NOTHING; }
          assert Goes(Rest(), pid, p).procs[pid := Dead] == Goes(Rest(), pid, Dead).procs;
          assert world == Goes(Rest(), pid, Dead);
          return None;
        } else if e.Advance? && (p.Lock? ==> lock.None?) {
          return Some(e);
        } else if (e.Fail? && !p.Unlock?) || (e.CommitUnknown? && p.Commit?) {
          return Some(e);
        }
      }
      return None;
    }

    /** The finally block. */
    method Finally(failed: bool) returns (outcome: Outcome)
      requires Facing(Unlock(failed))
      modifies this
      ensures Ended(outcome) && (outcome.Died? || (outcome.Done? <==> !failed))
    {
      var turn := Turn(Unlock(failed));
      if turn.None? { return Died; }
      Regoes(Rest(), pid, Unlock(failed), if failed then Raised else Returned);
      lock, draft := None, NOTHING;
      return if failed then Threw else Done;
    }

    /** ROLLBACK, throw, and the finally block. */
    method Abort(p: Proc) returns (outcome: Outcome)
      requires Valid() && Holding(p) && !p.Unlock? && world == Step(Goes(Rest(), pid, p), files, Fail(pid))
      modifies this
      ensures Ended(outcome) && !outcome.Done?
    {
      Regoes(Rest(), pid, p, Unlock(true));
      draft := NOTHING;
      outcome := Finally(true);
    }

    method AcquireLock() returns (ended: Option<Outcome>)
      requires Facing(Lock)
      modifies this
      ensures ended.None? ==> Facing(Loop(files, 0))
      ensures ended.Some? ==> Ended(ended.value) && !ended.value.Done?
    {
      var turn := Turn(Lock);
      if turn.None? { return Some(Died); }
      if turn.value.Fail? {
        Regoes(Rest(), pid, Lock, Raised);
        return Some(Threw);
      }
      Regoes(Rest(), pid, Lock, Loop(files, 0));
      lock, draft := Some(pid), NOTHING;
      return None;
    }

    method Migrate() returns (outcome: Outcome)
      requires Facing(Lock)
      modifies this
      ensures Ended(outcome) && (outcome.Done? ==> history == files)
    {
      var ended := AcquireLock();
      if ended.Some? { return ended.value; }
      for i := 0 to |files|
        invariant Facing(Loop(files, i))
      {
        ended := HandleFile(i);
        if ended.Some? { return ended.value; }
      }
      outcome := Finally(false);
      if outcome.Done? {
        RunKeeps(Fresh(), files, trace);
        assert pid in world.procs && ProcSound(world, files, pid, world.procs[pid]);
      }
    }

    /** The body of the loop. */
    method HandleFile(i: nat) returns (ended: Option<Outcome>)
      requires Facing(Select(i)) && i < |files|
      modifies this
      ensures ended.None? ==> Facing(Loop(files, i + 1))
      ensures ended.Some? ==> Ended(ended.value) && !ended.value.Done?
    {
      var turn := Turn(Select(i));
      if turn.None? { return Some(Died); }
      if turn.value.Fail? { var o := Abort(Select(i)); return Some(o); }
      if files[i] in history {
        Regoes(Rest(), pid, Select(i), Loop(files, i + 1));
        return None;
      }
      Regoes(Rest(), pid, Select(i), Execute(i));
      ended := Apply(i);
    }

    /** The transaction of one file. */
    method Apply(i: nat) returns (ended: Option<Outcome>)
      requires Facing(Execute(i)) && i < |files|
      modifies this
      ensures ended.None? ==> Facing(Loop(files, i + 1))
      ensures ended.Some? ==> Ended(ended.value) && !ended.value.Done?
    {
      var turn := Turn(Execute(i));
      if turn.None? { return Some(Died); }
      if turn.value.Fail? { var o := Abort(Execute(i)); return Some(o); }
      Regoes(Rest(), pid, Execute(i), Record(i));
      draft := draft.(effects := draft.effects + [files[i]]);
      turn := Turn(Record(i));
      if turn.None? { return Some(Died); }
      if turn.value.Fail? { var o := Abort(Record(i)); return Some(o); }
      if files[i] in history {
        Regoes(Rest(), pid, Record(i), Unlock(true));
        draft := NOTHING;
        var o := Finally(true);
        return Some(o);
      }
      Regoes(Rest(), pid, Record(i), Commit(i));
      draft := draft.(rows := draft.rows + [files[i]]);
      ended := CommitFile(i);
    }

    method CommitFile(i: nat) returns (ended: Option<Outcome>)
      requires Facing(Commit(i)) && i < |files|
      modifies this
      ensures ended.None? ==> Facing(Loop(files, i + 1))
      ensures ended.Some? ==> Ended(ended.value) && !ended.value.Done?
    {
      var turn := Turn(Commit(i));
      if turn.None? { return Some(Died); }
      if turn.value.Fail? { var o := Abort(Commit(i)); return Some(o); }
      Regoes(Committed(Rest()), pid, Commit(i), if turn.value.CommitUnknown? then Unlock(true) else Loop(files, i + 1));
      effects, history, draft := effects + draft.effects, history + draft.rows, NOTHING;
      if turn.value.CommitUnknown? {
        var o := Finally(true);
        return Some(o);
      }
      return None;
    }
  }
}
