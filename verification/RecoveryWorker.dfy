/**
 The acknowledgement journal (examples/python-workflow-recovery/worker.py): any number of start and
 observe processes share one SQLite file with a single row, and may die between any two statements.
 */
module RecoveryWorker {
  import opened Wrappers

  datatype RowState = Submitting | Acknowledged

  /** The row of slot 1. */
  datatype Row = Row(sandbox: string, command: Option<string>, state: RowState)

  /** A command of the service; ticket tells which submission made it. */
  datatype Command = Command(sandbox: string, id: string, ticket: Option<nat>)

  /** Where a process is, by the next thing it does. */
  datatype Proc =
    | Insert(sandbox: string)
    | CommitIntent(sandbox: string)
    | Post(sandbox: string)
    | AwaitReply(sandbox: string, ticket: nat)
    | Update(sandbox: string, command: string)
    | CommitReply(sandbox: string, command: string)
    | Select
    | Attached(sandbox: string, command: string)
    | Ended

  /** The open write transaction: who holds it and the row it would commit. */
  datatype Draft = Draft(pid: nat, row: Option<Row>)

  datatype State = State(
    row: Option<Row>,
    draft: Option<Draft>,
    procs: map<nat, Proc>,
    sent: map<nat, string>,     // submissions on their way, by ticket
    posts: nat,
    commands: seq<Command>)

  datatype Event =
    | Start(pid: nat, sandbox: string)
    | Observe(pid: nat)
    | Advance(pid: nat)
    | Reply(pid: nat, index: nat)
    | Die(pid: nat)
    | Arrive(ticket: nat, id: string)
    | Foreign(command: Command)

  function Goes(s: State, pid: nat, p: Proc): State {
    s.(procs := s.procs[pid := p])
  }

  /** The process is gone and its open transaction with it. */
  function Dies(s: State, pid: nat): State {
    Goes(s, pid, Ended).(draft := if s.draft.Some? && s.draft.value.pid == pid then None else s.draft)
  }

  /** One statement of worker.py. */
  function Moves(s: State, pid: nat): State
    requires pid in s.procs
  {
    match s.procs[pid]
    case Insert(sandbox) =>
      // the file is locked by another writer, or the primary key is taken
      if s.draft.Some? || s.row.Some? then Goes(s, pid, Ended)
      else Goes(s, pid, CommitIntent(sandbox)).(draft := Some(Draft(pid, Some(Row(sandbox, None, Submitting)))))
    case CommitIntent(sandbox) =>
      if s.draft.Some? && s.draft.value.pid == pid
      then Goes(s, pid, Post(sandbox)).(row := s.draft.value.row, draft := None)
      else s
    case Post(sandbox) =>
      Goes(s, pid, AwaitReply(sandbox, s.posts)).(sent := s.sent[s.posts := sandbox], posts := s.posts + 1)
    case AwaitReply(_, _) => s
    case Update(sandbox, command) =>
      if s.draft.Some? then Goes(s, pid, Ended)
      else
        var row := if s.row.Some? then Some(s.row.value.(command := Some(command), state := Acknowledged)) else None;
        Goes(s, pid, CommitReply(sandbox, command)).(draft := Some(Draft(pid, row)))
    case CommitReply(sandbox, command) =>
      if s.draft.Some? && s.draft.value.pid == pid
      then Goes(s, pid, Ended).(row := s.draft.value.row, draft := None)
      else s
    case Select =>
      if s.row.Some? && s.row.value.state == Acknowledged && s.row.value.command.Some? && s.row.value.command.value != ""
      then Goes(s, pid, Attached(s.row.value.sandbox, s.row.value.command.value))
      else Goes(s, pid, Ended)
    case Attached(_, _) => Goes(s, pid, Ended)
    case Ended => s
  }

  predicate FreshId(commands: seq<Command>, id: string) {
    id != "" && forall i | 0 <= i < |commands| :: commands[i].id != id
  }

  function Step(s: State, e: Event): State {
    match e
    case Start(pid, sandbox) => if pid in s.procs || sandbox == "" then s else Goes(s, pid, Insert(sandbox))
    case Observe(pid) => if pid in s.procs then s else Goes(s, pid, Select)
    case Advance(pid) => if pid in s.procs then Moves(s, pid) else s
    case Reply(pid, i) =>
      if && pid in s.procs && s.procs[pid].AwaitReply? && i < |s.commands|
         && s.commands[i].ticket == Some(s.procs[pid].ticket)
      then Goes(s, pid, Update(s.procs[pid].sandbox, s.commands[i].id))
      else s
    case Die(pid) => if pid in s.procs then Dies(s, pid) else s
    case Arrive(ticket, id) =>
      if ticket in s.sent && FreshId(s.commands, id)
      then s.(sent := s.sent - {ticket}, commands := s.commands + [Command(s.sent[ticket], id, Some(ticket))])
      else s
    case Foreign(c) =>
      if FreshId(s.commands, c.id) && c.ticket.None? then s.(commands := s.commands + [c]) else s
  }

  function Run(s: State, events: seq<Event>): State {
    if events == [] then s else Step(Run(s, events[..|events| - 1]), events[|events| - 1])
  }

  ghost predicate Empty(s: State) {
    && s.row.None? && s.draft.None? && s.procs == map[] && s.sent == map[] && s.posts == 0
    && forall i | 0 <= i < |s.commands| :: s.commands[i].ticket.None?
  }

  // The invariant.

  /** The command of submission 0, made in sandbox. */
  ghost predicate Own(s: State, sandbox: string, id: string) {
    exists i :: 0 <= i < |s.commands| && s.commands[i] == Command(sandbox, id, Some(0))
  }

  ghost predicate RowSound(s: State, row: Row) {
    (row.state == Acknowledged <==> row.command.Some?) && (row.command.Some? ==> Own(s, row.sandbox, row.command.value))
  }

  /** A process past its commit is the one that made the row, and the only one. */
  predicate Won(p: Proc) {
    p.Post? || p.AwaitReply? || p.Update? || p.CommitReply?
  }

  ghost predicate ProcSound(s: State, pid: nat, p: Proc) {
    && (p.CommitIntent? ==> s.row.None? && s.draft == Some(Draft(pid, Some(Row(p.sandbox, None, Submitting)))))
    && (Won(p) ==> s.row == Some(Row(p.sandbox, None, Submitting)))
    && (p.Post? ==> s.posts == 0)
    && (p.AwaitReply? ==> p.ticket == 0)
    && (p.Update? || p.CommitReply? ==> Own(s, p.sandbox, p.command))
    && (p.CommitReply? ==> s.draft == Some(Draft(pid, Some(Row(p.sandbox, Some(p.command), Acknowledged)))))
    && (p.Attached? ==> s.row == Some(Row(p.sandbox, Some(p.command), Acknowledged)))
  }

  /** The service and the row agree. */
  ghost predicate ServiceSound(s: State) {
    && s.posts <= 1
    && (s.row.None? ==> s.posts == 0)
    && (s.row.Some? ==> RowSound(s, s.row.value))
    && (forall k | k in s.sent :: k < s.posts && s.row.Some? && s.sent[k] == s.row.value.sandbox)
    && (forall i | 0 <= i < |s.commands| && s.commands[i].ticket.Some? ::
          s.commands[i].ticket == Some(0) && s.posts == 1 && 0 !in s.sent && s.row.Some? && s.commands[i].sandbox == s.row.value.sandbox)
    && (forall i, j | 0 <= i < j < |s.commands| :: s.commands[i].ticket.None? || s.commands[j].ticket.None?)
  }

  ghost predicate ProcsSound(s: State) {
    && (s.draft.Some? ==> s.draft.value.pid in s.procs
                          && (s.procs[s.draft.value.pid].CommitIntent? || s.procs[s.draft.value.pid].CommitReply?))
    && (forall pid | pid in s.procs :: ProcSound(s, pid, s.procs[pid]))
    && (forall p, q | p in s.procs && q in s.procs && Won(s.procs[p]) && Won(s.procs[q]) :: p == q)
  }

  ghost predicate Inv(s: State) {
    ServiceSound(s) && ProcsSound(s)
  }

  lemma AppendKeepsOwn(s: State, s': State)
    requires s.commands <= s'.commands
    ensures forall sandbox, id | Own(s, sandbox, id) :: Own(s', sandbox, id)
  {
    forall sandbox, id | Own(s, sandbox, id) ensures Own(s', sandbox, id) {
      var i :| 0 <= i < |s.commands| && s.commands[i] == Command(sandbox, id, Some(0));
      assert s'.commands[i] == s.commands[i];
    }
  }

  /** Process pid moves on to p' while row, draft, posts and commands are as the others left them. */
  lemma GoesKeeps(s: State, pid: nat, p: Proc)
    requires Inv(s) && !p.CommitIntent? && !p.CommitReply?
    requires ProcSound(s, pid, p)
    requires pid in s.procs && s.draft.Some? ==> s.draft.value.pid != pid
    requires Won(p) ==> pid in s.procs && Won(s.procs[pid])
    ensures Inv(Goes(s, pid, p))
  {
    var s' := Goes(s, pid, p);
    AppendKeepsOwn(s, s');
    assert ServiceSound(s');
    forall q | q in s'.procs ensures ProcSound(s', q, s'.procs[q]) {
      if q != pid { assert ProcSound(s, q, s.procs[q]); }
    }
  }

  lemma InsertKeeps(s: State, pid: nat)
    requires Inv(s) && pid in s.procs && s.procs[pid].Insert? && s.draft.None? && s.row.None?
    ensures Inv(Moves(s, pid))
  {
    var s' := Moves(s, pid);
    assert ServiceSound(s');
    forall q | q in s'.procs ensures ProcSound(s', q, s'.procs[q]) {
      if q != pid { assert ProcSound(s, q, s.procs[q]); }
    }
  }

  lemma CommitIntentKeeps(s: State, pid: nat)
    requires Inv(s) && pid in s.procs && s.procs[pid].CommitIntent?
    ensures Inv(Moves(s, pid))
  {
    var s' := Moves(s, pid);
    assert ProcSound(s, pid, s.procs[pid]);
    assert ServiceSound(s');
    forall q | q in s'.procs ensures ProcSound(s', q, s'.procs[q]) && (Won(s'.procs[q]) ==> q == pid) {
      if q != pid { assert ProcSound(s, q, s.procs[q]); }
    }
  }

  lemma PostKeeps(s: State, pid: nat)
    requires Inv(s) && pid in s.procs && s.procs[pid].Post?
    ensures Inv(Moves(s, pid))
  {
    var s' := Moves(s, pid);
    assert ProcSound(s, pid, s.procs[pid]);
    AppendKeepsOwn(s, s');
    assert ServiceSound(s');
    forall q | q in s'.procs ensures ProcSound(s', q, s'.procs[q]) {
      if q != pid { assert ProcSound(s, q, s.procs[q]); }
    }
  }

  lemma UpdateKeeps(s: State, pid: nat)
    requires Inv(s) && pid in s.procs && s.procs[pid].Update? && s.draft.None?
    ensures Inv(Moves(s, pid))
  {
    var s' := Moves(s, pid);
    assert ProcSound(s, pid, s.procs[pid]);
    AppendKeepsOwn(s, s');
    assert ServiceSound(s');
    forall q | q in s'.procs ensures ProcSound(s', q, s'.procs[q]) {
      if q != pid { assert ProcSound(s, q, s.procs[q]); }
    }
  }

  lemma CommitReplyKeeps(s: State, pid: nat)
    requires Inv(s) && pid in s.procs && s.procs[pid].CommitReply?
    ensures Inv(Moves(s, pid))
  {
    var s' := Moves(s, pid);
    assert ProcSound(s, pid, s.procs[pid]);
    AppendKeepsOwn(s, s');
    assert ServiceSound(s');
    forall q | q in s'.procs ensures ProcSound(s', q, s'.procs[q]) {
      if q != pid { assert ProcSound(s, q, s.procs[q]); }
    }
  }

  lemma MovesKeeps(s: State, pid: nat)
    requires Inv(s) && pid in s.procs
    ensures Inv(Moves(s, pid))
  {
    assert ProcSound(s, pid, s.procs[pid]);
    match s.procs[pid] {
      case Insert(_) =>
        if s.draft.Some? || s.row.Some? { GoesKeeps(s, pid, Ended); } else { InsertKeeps(s, pid); }
      case CommitIntent(_) => CommitIntentKeeps(s, pid);
      case Post(_) => PostKeeps(s, pid);
      case AwaitReply(_, _) =>
      case Update(_, _) => if s.draft.Some? { GoesKeeps(s, pid, Ended); } else { UpdateKeeps(s, pid); }
      case CommitReply(_, _) => CommitReplyKeeps(s, pid);
      case Select => GoesKeeps(s, pid, Moves(s, pid).procs[pid]);
      case Attached(_, _) => GoesKeeps(s, pid, Ended);
      case Ended =>
    }
  }

  lemma DiesKeeps(s: State, pid: nat)
    requires Inv(s) && pid in s.procs
    ensures Inv(Dies(s, pid))
  {
    var s' := Dies(s, pid);
    AppendKeepsOwn(s, s');
    assert ServiceSound(s');
    forall q | q in s'.procs ensures ProcSound(s', q, s'.procs[q]) {
      if q != pid { assert ProcSound(s, q, s.procs[q]); }
    }
  }

  lemma ServiceKeeps(s: State, e: Event)
    requires Inv(s) && (e.Arrive? || e.Foreign?)
    ensures Inv(Step(s, e))
  {
    var s' := Step(s, e);
    AppendKeepsOwn(s, s');
    assert ServiceSound(s');
    forall q | q in s'.procs ensures ProcSound(s', q, s'.procs[q]) {
      assert ProcSound(s, q, s.procs[q]);
    }
  }

  lemma ReplyKeeps(s: State, pid: nat, i: nat)
    requires Inv(s) && pid in s.procs && s.procs[pid].AwaitReply? && i < |s.commands|
    requires s.commands[i].ticket == Some(s.procs[pid].ticket)
    ensures Inv(Goes(s, pid, Update(s.procs[pid].sandbox, s.commands[i].id)))
  {
    assert ProcSound(s, pid, s.procs[pid]);
    assert s.commands[i] == Command(s.procs[pid].sandbox, s.commands[i].id, Some(0));
    assert Own(s, s.procs[pid].sandbox, s.commands[i].id);
    GoesKeeps(s, pid, Update(s.procs[pid].sandbox, s.commands[i].id));
  }

  lemma StepKeeps(s: State, e: Event)
    requires Inv(s)
    ensures Inv(Step(s, e))
  {
    match e {
      case Start(pid, sandbox) => if pid !in s.procs && sandbox != "" { GoesKeeps(s, pid, Insert(sandbox)); }
      case Observe(pid) => if pid !in s.procs { GoesKeeps(s, pid, Select); }
      case Advance(pid) => if pid in s.procs { MovesKeeps(s, pid); }
      case Reply(pid, i) => if Step(s, e) != s { ReplyKeeps(s, pid, i); }
      case Die(pid) => if pid in s.procs { DiesKeeps(s, pid); }
      case Arrive(_, _) => ServiceKeeps(s, e);
      case Foreign(_) => ServiceKeeps(s, e);
    }
  }

  lemma {:induction false} RunKeeps(s: State, events: seq<Event>)
    requires Inv(s)
    ensures Inv(Run(s, events))
  {
    if events != [] {
      RunKeeps(s, events[..|events| - 1]);
      StepKeeps(Run(s, events[..|events| - 1]), events[|events| - 1]);
    }
  }

  /**
   Among all processes that ever start, one submission at most; an observer is only ever attached to
   the command that submission made, in the sandbox it was sent to, and the row has said so.
   */
  lemma OneSubmission(s: State, events: seq<Event>)
    requires Empty(s)
    ensures var t := Run(s, events);
            && t.posts <= 1
            && (forall i, j | 0 <= i < j < |t.commands| :: t.commands[i].ticket.None? || t.commands[j].ticket.None?)
            && (forall pid | pid in t.procs && t.procs[pid].Attached? ::
                  && t.row == Some(Row(t.procs[pid].sandbox, Some(t.procs[pid].command), Acknowledged))
                  && Own(t, t.procs[pid].sandbox, t.procs[pid].command))
  {
    RunKeeps(s, events);
  }

  /** The row is written once, acknowledged at most once, and never taken back. */
  ghost predicate RowGrows(before: Option<Row>, after: Option<Row>) {
    before.None? || after == before
    || (before.value.command.None? && after.Some? && after.value.command.Some? && after.value.sandbox == before.value.sandbox)
  }

  lemma {:induction false} JournalOnlyGrows(s: State, events: seq<Event>, later: seq<Event>)
    requires Empty(s)
    ensures RowGrows(Run(s, events).row, Run(s, events + later).row)
    decreases |later|
  {
    if later == [] {
      assert events + later == events;
    } else {
      var k := |later| - 1;
      var all := events + later;
      assert all[..|all| - 1] == events + later[..k];
      JournalOnlyGrows(s, events, later[..k]);
      RunKeeps(s, events + later[..k]);
      StepGrows(Run(s, events + later[..k]), later[k]);
    }
  }

  lemma StepGrows(s: State, e: Event)
    requires Inv(s)
    ensures RowGrows(s.row, Step(s, e).row)
  {}

  // A run that comes to its end.

  lemma RunOn(s: State, events: seq<Event>, e: Event)
    ensures Run(s, events + [e]) == Step(Run(s, events), e)
  {
    assert (events + [e])[..|events|] == events;
  }

  function Nothing(): State {
    State(None, None, map[], map[], 0, [])
  }

  function Intent(sandbox: string): Option<Row> {
    Some(Row(sandbox, None, Submitting))
  }

  function Written(sandbox: string, id: string): Option<Row> {
    Some(Row(sandbox, Some(id), Acknowledged))
  }

  lemma Submits(sandbox: string) returns (events: seq<Event>)
    requires sandbox != ""
    ensures Run(Nothing(), events) ==
            State(Intent(sandbox), None, map[0 := AwaitReply(sandbox, 0)], map[0 := sandbox], 1, [])
  {
    var s := Nothing();
    events := [];
    RunOn(s, events, Start(0, sandbox));
    events := events + [Start(0, sandbox)];
    RunOn(s, events, Advance(0));
    events := events + [Advance(0)];
    assert Run(s, events) == State(None, Some(Draft(0, Intent(sandbox))), map[0 := CommitIntent(sandbox)], map[], 0, []);
    RunOn(s, events, Advance(0));
    events := events + [Advance(0)];
    assert Run(s, events) == State(Intent(sandbox), None, map[0 := Post(sandbox)], map[], 0, []);
    RunOn(s, events, Advance(0));
    events := events + [Advance(0)];
  }

  /**
   A start that is not disturbed submits, and writes down the command that is acknowledged; an observer
   is then attached to that command.
   */
  lemma RunAttaches(sandbox: string, id: string) returns (events: seq<Event>)
    requires sandbox != "" && id != ""
    ensures Empty(Nothing())
    ensures var s := Run(Nothing(), events);
            && s.row == Some(Row(sandbox, Some(id), Acknowledged)) && s.posts == 1
            && s.commands == [Command(sandbox, id, Some(0))]
            && 1 in s.procs && s.procs[1] == Attached(sandbox, id)
  {
    var s, c := Nothing(), Command(sandbox, id, Some(0));
    events := Submits(sandbox);
    RunOn(s, events, Arrive(0, id));
    events := events + [Arrive(0, id)];
    assert [] + [c] == [c];
    assert map[0 := sandbox] - {0} == map[];
    assert Run(s, events) == State(Intent(sandbox), None, map[0 := AwaitReply(sandbox, 0)], map[], 1, [c]);
    RunOn(s, events, Reply(0, 0));
    events := events + [Reply(0, 0)];
    assert Run(s, events) == State(Intent(sandbox), None, map[0 := Update(sandbox, id)], map[], 1, [c]);
    RunOn(s, events, Advance(0));
    events := events + [Advance(0)];
    assert Run(s, events) == State(Intent(sandbox), Some(Draft(0, Written(sandbox, id))), map[0 := CommitReply(sandbox, id)], map[], 1, [c]);
    RunOn(s, events, Advance(0));
    events := events + [Advance(0)];
    assert Run(s, events) == State(Written(sandbox, id), None, map[0 := Ended], map[], 1, [c]);
    RunOn(s, events, Observe(1));
    events := events + [Observe(1)];
    RunOn(s, events, Advance(1));
    events := events + [Advance(1)];
  }
}
