/**
 One worker process as the program it is (examples/python-workflow-recovery/worker.py, lines 14 to
 55), among others that use the same journal between its statements. Each of its runs is a run of
 the machine of RecoveryWorker.
 */
module RecoveryProcess {
  import opened Wrappers
  import opened RecoveryWorker

  datatype Action = StartAction(sandbox: string) | ObserveAction

  /** How a run ends: with a value, with an exception, or by the death of the process. */
  datatype Outcome = Returned | Observing(sandbox: string, command: string) | Raised | Died

  /** The event is a step of process pid. */
  predicate About(e: Event, pid: nat) {
    match e
    case Start(p, _) => p == pid
    case Observe(p) => p == pid
    case Advance(p) => p == pid
    case Reply(p, _) => p == pid
    case Die(p) => p == pid
    case Arrive(_, _) => false
    case Foreign(_) => false
  }

  class Process {
    const pid: nat
    // the journal file, the service and the other processes
    var row: Option<Row>
    var draft: Option<Draft>
    var others: map<nat, Proc>
    var sent: map<nat, string>
    var posts: nat
    var commands: seq<Command>
    var script: seq<Event>
    ghost const origin: State
    ghost const future: seq<Event>
    ghost var trace: seq<Event>
    ghost var world: State

    function Rest(): State
      reads this
    {
      State(row, draft, others, sent, posts, commands)
    }

    ghost predicate Valid()
      reads this
    {
      world == Run(origin, trace) && trace + script == future && pid !in others
    }

    /** The machine stands where this process is about to do pc. */
    ghost predicate Facing(pc: Proc)
      reads this
    {
      Valid() && world == Goes(Rest(), pid, pc)
    }

    /** The process never goes on, or is over. */
    ghost predicate Halted()
      reads this
    {
      Valid() && exists pc :: world == Goes(Rest(), pid, pc) && (pc == Ended || script == [])
    }

    constructor (p: nat, s: State, events: seq<Event>)
      requires p !in s.procs
      ensures Valid() && Rest() == s == origin == world && pid == p && script == future == events && trace == []
    {
      pid := p;
      row, draft, others, sent, posts, commands := s.row, s.draft, s.procs, s.sent, s.posts, s.commands;
      script := events;
      origin, future := s, events;
      trace, world := [], s;
    }

    method Next() returns (e: Event)
      requires Valid() && script != []
      modifies `script, `trace, `world
      ensures Valid() && e == old(script)[0] && world == Step(old(world), e) && script == old(script)[1..]
    {
      e := script[0];
      script, trace, world := script[1..], trace + [e], Step(world, e);
      assert trace[..|trace| - 1] == old(trace);
      assert trace + script == old(trace + script);
    }

    static lemma GoesApart(s: State, pid: nat, pc: Proc, q: nat, p: Proc)
      requires q != pid
      ensures Goes(Goes(s, pid, pc), q, p) == Goes(Goes(s, q, p), pid, pc)
    {
      assert s.procs[pid := pc][q := p] == s.procs[q := p][pid := pc];
    }

    static lemma MovesApart(s: State, pid: nat, pc: Proc, q: nat)
      requires pid !in s.procs && q in s.procs
      ensures pid !in Moves(s, q).procs && Moves(Goes(s, pid, pc), q) == Goes(Moves(s, q), pid, pc)
    {
      var s' := Goes(s, pid, pc);
      match s.procs[q] {
        case Insert(sandbox) => GoesApart(s, pid, pc, q, Ended); GoesApart(s, pid, pc, q, CommitIntent(sandbox));
        case CommitIntent(sandbox) => GoesApart(s, pid, pc, q, Post(sandbox));
        case Post(sandbox) => GoesApart(s, pid, pc, q, AwaitReply(sandbox, s.posts));
        case AwaitReply(_, _) =>
        case Update(sandbox, id) => GoesApart(s, pid, pc, q, Ended); GoesApart(s, pid, pc, q, CommitReply(sandbox, id));
        case CommitReply(_, _) => GoesApart(s, pid, pc, q, Ended);
        case Select =>
          GoesApart(s, pid, pc, q, Ended);
          if s.row.Some? && s.row.value.command.Some? {
            GoesApart(s, pid, pc, q, Attached(s.row.value.sandbox, s.row.value.command.value));
          }
        case Attached(_, _) => GoesApart(s, pid, pc, q, Ended);
        case Ended =>
      }
    }

    /** What the others do does not depend on where this process is. */
    static lemma OthersApart(s: State, pid: nat, pc: Proc, e: Event)
      requires pid !in s.procs && !About(e, pid)
      ensures pid !in Step(s, e).procs && Step(Goes(s, pid, pc), e) == Goes(Step(s, e), pid, pc)
    {
      match e {
        case Start(q, sandbox) => GoesApart(s, pid, pc, q, Insert(sandbox));
        case Observe(q) => GoesApart(s, pid, pc, q, Select);
        case Advance(q) => if q in s.procs { MovesApart(s, pid, pc, q); }
        case Reply(q, i) =>
          if q in s.procs && s.procs[q].AwaitReply? && i < |s.commands| {
            GoesApart(s, pid, pc, q, Update(s.procs[q].sandbox, s.commands[i].id));
          }
        case Die(q) => if q in s.procs { GoesApart(s, pid, pc, q, Ended); }
        case Arrive(_, _) =>
        case Foreign(_) =>
      }
    }

    /** Waits for this process's next turn, while the others go on. */
    method Turn(pc: Proc) returns (turn: Option<Event>)
      requires Facing(pc)
      modifies this
      ensures turn.None? ==> Halted()
      ensures turn.Some? ==> Valid() && world == Step(Goes(Rest(), pid, pc), turn.value)
      ensures turn.Some? && !pc.AwaitReply? ==> turn.value == Advance(pid)
      ensures turn.Some? && pc.AwaitReply? ==>
                turn.value.Reply? && turn.value.pid == pid && turn.value.index < |commands|
                && commands[turn.value.index].ticket == Some(pc.ticket)
    {
      while script != []
        invariant Facing(pc)
        decreases |script|
      {
        var e := Next();
        if !About(e, pid) {
          var s := Step(Rest(), e);
          OthersApart(Rest(), pid, pc, e);
          row, draft, others, sent, posts, commands := s.row, s.draft, s.procs, s.sent, s.posts, s.commands;
        } else if e.Die? {
          if draft.Some? && draft.value.pid == pid { draft := None; }
          assert Goes(Rest(), pid, pc).procs[pid := Ended] == Goes(Rest(), pid, Ended).procs;
          assert world == Goes(Rest(), pid, Ended);
          return None;
        } else if e.Advance? && !pc.AwaitReply? {
          return Some(e);
        } else if e.Reply? && pc.AwaitReply? && e.index < |commands| && commands[e.index].ticket == Some(pc.ticket) {
          return Some(e);
        }
      }
      return None;
    }

    /** execute("INSERT ..."): opens the transaction, or raises on a lock or on the primary key. */
    method ExecuteInsert(sandbox: string) returns (ok: bool)
      modifies `draft
      ensures ok == (old(draft).None? && row.None?)
      ensures draft == if ok then Some(Draft(pid, Some(Row(sandbox, None, Submitting)))) else old(draft)
    {
      if draft.Some? || row.Some? { return false; }
      draft := Some(Draft(pid, Some(Row(sandbox, None, Submitting))));
      return true;
    }

    /** execute("UPDATE ... WHERE slot = 1") */
    method ExecuteUpdate(command: string) returns (ok: bool)
      modifies `draft
      ensures ok == old(draft).None?
      ensures draft == if !ok then old(draft) else
                Some(Draft(pid, if row.None? then None else Some(row.value.(command := Some(command), state := Acknowledged))))
    {
      if draft.Some? { return false; }
      draft := Some(Draft(pid, if row.Some? then Some(row.value.(command := Some(command), state := Acknowledged)) else None));
      return true;
    }

    method Commit()
      requires draft.Some? && draft.value.pid == pid
      modifies `row, `draft
      ensures row == old(draft).value.row && draft.None?
    {
      row, draft := draft.value.row, None;
    }

    static lemma Regoes(s: State, pid: nat, p: Proc, q: Proc)
      ensures Goes(Goes(s, pid, p), pid, q) == Goes(s, pid, q)
    {}

    /** The whole run of the process, from the event that launches it. */
    method Work(action: Action) returns (outcome: Outcome)
      requires Inv(origin) && Valid() && world == Rest() && script != []
      requires script[0] == if action.StartAction? then Start(pid, action.sandbox) else Observe(pid)
      modifies this
      ensures action == StartAction("") ==> outcome.Raised? && world == Rest() == old(Rest())
      ensures action != StartAction("") && !outcome.Observing? ==> Halted()
      ensures outcome.Observing? ==>
                && action.ObserveAction? && Facing(Attached(outcome.sandbox, outcome.command))
                && row == Some(Row(outcome.sandbox, Some(outcome.command), Acknowledged))
    {
      var _ := Next();
      if action.ObserveAction? {
        outcome := ObserveRun();
      } else if action.sandbox == "" {
        outcome := Raised;
      } else {
        outcome := StartRun(action.sandbox);
      }
    }

    method StartRun(sandbox: string) returns (outcome: Outcome)
      requires Inv(origin) && Facing(Insert(sandbox))
      modifies this
      ensures Halted() && !outcome.Observing?
    {
      var turn := Turn(Insert(sandbox));
      if turn.None? { return Died; }
      label inserting:
      ghost var before := Rest();
      var ok := ExecuteInsert(sandbox);
      if !ok {
        Regoes(before, pid, Insert(sandbox), Ended);
        assert world == Goes(Rest(), pid, Ended);
        return Raised;
      }
      Regoes(before, pid, Insert(sandbox), CommitIntent(sandbox));
      turn := Turn(CommitIntent(sandbox));
      if turn.None? { return Died; }
      outcome := CommitAndPost(sandbox);
    }

    method CommitAndPost(sandbox: string) returns (outcome: Outcome)
      requires Inv(origin) && Valid() && world == Step(Goes(Rest(), pid, CommitIntent(sandbox)), Advance(pid))
      modifies this
      ensures Halted() && !outcome.Observing?
    {
      ghost var before := Rest();
      HeldAt(CommitIntent(sandbox));
      Commit();
      Regoes(before, pid, CommitIntent(sandbox), Post(sandbox));
      outcome := PostAndAwait(sandbox);
    }

    method PostAndAwait(sandbox: string) returns (outcome: Outcome)
      requires Inv(origin) && Facing(Post(sandbox))
      modifies this
      ensures Halted() && !outcome.Observing?
    {
      var turn := Turn(Post(sandbox));
      if turn.None? { return Died; }
      ghost var before := Rest();
      var ticket := posts;
      sent, posts := sent[ticket := sandbox], ticket + 1;
      Regoes(before, pid, Post(sandbox), AwaitReply(sandbox, ticket));
      turn := Turn(AwaitReply(sandbox, ticket));
      if turn.None? { return Died; }
      var id := commands[turn.value.index].id;
      Regoes(Rest(), pid, AwaitReply(sandbox, ticket), Update(sandbox, id));
      outcome := Acknowledge(sandbox, id);
    }

    /** The on_started callback. */
    method Acknowledge(sandbox: string, id: string) returns (outcome: Outcome)
      requires Inv(origin) && Facing(Update(sandbox, id))
      modifies this
      ensures Halted() && !outcome.Observing?
    {
      var turn := Turn(Update(sandbox, id));
      if turn.None? { return Died; }
      ghost var before := Rest();
      var ok := ExecuteUpdate(id);
      if !ok {
        Regoes(before, pid, Update(sandbox, id), Ended);
        assert world == Goes(Rest(), pid, Ended);
        return Raised;
      }
      Regoes(before, pid, Update(sandbox, id), CommitReply(sandbox, id));
      turn := Turn(CommitReply(sandbox, id));
      if turn.None? { return Died; }
      before := Rest();
      HeldAt(CommitReply(sandbox, id));
      Commit();
      Regoes(before, pid, CommitReply(sandbox, id), Ended);
      assert world == Goes(Rest(), pid, Ended);
      return Returned;
    }

    /** At its commit the process still holds its own transaction. */
    lemma HeldAt(pc: Proc)
      requires Inv(origin) && Valid() && (pc.CommitIntent? || pc.CommitReply?)
      requires world == Step(Goes(Rest(), pid, pc), Advance(pid))
      ensures draft.Some? && draft.value.pid == pid
    {
      RunKeeps(origin, trace);
    }

    method ObserveRun() returns (outcome: Outcome)
      requires Inv(origin) && Facing(Select)
      modifies this
      ensures !outcome.Observing? ==> Halted()
      ensures outcome.Observing? ==>
                && Facing(Attached(outcome.sandbox, outcome.command))
                && row == Some(Row(outcome.sandbox, Some(outcome.command), Acknowledged))
    {
      var turn := Turn(Select);
      if turn.None? { return Died; }
      assert Inv(world) by { RunKeeps(origin, trace); }
      if row.None? || row.value.state != Acknowledged || row.value.command.None? || row.value.command.value == "" {
        Regoes(Rest(), pid, Select, Ended);
        assert world == Goes(Rest(), pid, Ended);
        return Raised;
      }
      Regoes(Rest(), pid, Select, Attached(row.value.sandbox, row.value.command.value));
      assert ProcSound(world, pid, world.procs[pid]);
      return Observing(row.value.sandbox, row.value.command.value);
    }
  }
}
