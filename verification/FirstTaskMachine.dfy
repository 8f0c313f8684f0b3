/**
 The onboarding task as one state machine: the service, the requests in flight, the saved record
 and the browser tab that runs runFirstTask (apps/web/src/first-sandbox.ts, lines 45 to 102).
 A run stops for good at any await (Crash: lost request, lost reply, abort or closed tab) and a
 later run starts from the saved record. Requests already sent may still arrive after that.
 */
module FirstTaskMachine {
  import opened Wrappers
  import opened FirstTaskRecord

  const FIRST_COMMAND := "printf 'Harakiri is ready\\n'"

  datatype Status = Waiting | Running | Succeeded | Failed | Killed

  predicate Terminal(status: Status) {
    status.Succeeded? || status.Failed? || status.Killed?
  }

  /** A command of a sandbox; ticket tells which of this task's submissions made it, if one did. */
  datatype Command = Command(
    sandbox: string, id: string, text: string, cwd: string, ticket: Option<nat>,
    status: Status, exitCode: Option<int>, stdout: string, stderr: string)

  datatype Submission = Submission(sandbox: string, cwd: string)

  /** Everything outside the tab's memory. */
  datatype Outside = Outside(
    byKey: map<string, string>,         // the service: idempotency key to sandbox
    provisioned: seq<string>,           // sandboxes made for this task's requests
    commands: seq<Command>,
    creates: set<string>,               // keys of create requests sent
    starts: map<nat, Submission>,       // submissions sent and not yet arrived
    posts: nat,                         // submissions ever sent
    saved: Stored)

  /** The awaits of runFirstTask, in program order. */
  datatype Await =
    | Created | Listed | Probed | ProbePaused | Posted(ticket: nat)
    | Observed | Logged(seen: Command) | ObservePaused

  datatype Driver = Idle | At(await: Await, task: Task)

  datatype World = World(out: Outside, driver: Driver)

  datatype Readiness = Starting | Ready(workdir: Option<string>) | NotRunning | Unsupported

  datatype Event =
    // the tab; aborted tells whether the signal is aborted when the code resumes
    | Launch(aborted: bool)
    | Crash
    | CreateReply(aborted: bool)
    | ListReply(aborted: bool)
    | ProbeReply(readiness: Readiness, aborted: bool)
    | PauseOver(aborted: bool)
    | SubmitReply(index: nat, aborted: bool)
    | StatusReply(index: nat, aborted: bool)
    | LogsReply(index: nat)
    // the rest of the world
    | AcceptCreate(key: string, id: string)
    | AcceptStart(ticket: nat, id: string)
    | Foreign(command: Command)
    | Progress(index: nat, status: Status, exitCode: Option<int>, stdout: string, stderr: string)

  predicate FreshId(commands: seq<Command>, id: string) {
    id != "" && forall i | 0 <= i < |commands| :: commands[i].id != id
  }

  /** Steps nobody asks the tab about. A step that cannot happen changes nothing. */
  function Elsewhere(o: Outside, e: Event): Outside {
    match e
    case AcceptCreate(key, id) =>
      // idempotent create: the key decides, a second request finds the first sandbox
      if key in o.creates && key !in o.byKey && id != "" && id !in o.byKey.Values
      then o.(byKey := o.byKey[key := id], provisioned := o.provisioned + [id])
      else o
    case AcceptStart(ticket, id) =>
      if ticket in o.starts && FreshId(o.commands, id) then
        var s := o.starts[ticket];
        o.(starts := o.starts - {ticket},
        commands := o.commands + [Command(s.sandbox, id, FIRST_COMMAND, s.cwd, Some(ticket), Waiting, None, "", "")])
      else o
    case Foreign(c) =>
      if FreshId(o.commands, c.id) && c.ticket.None? then o.(commands := o.commands + [c]) else o
    case Progress(i, status, exitCode, stdout, stderr) =>
      if i < |o.commands| && !Terminal(o.commands[i].status)
      then o.(commands := o.commands[i := o.commands[i].(status := status, exitCode := exitCode, stdout := stdout, stderr := stderr)])
      else o
    case _ => o
  }

  predicate FromTab(e: Event) {
    !(e.AcceptCreate? || e.AcceptStart? || e.Foreign? || e.Progress?)
  }

  function Save(o: Outside, task: Task): Outside {
    o.(saved := Write(task))
  }

  /** The listing, filtered as the recovery branch filters it. */
  function Matches(commands: seq<Command>, sandbox: string, cwd: string): seq<Command> {
    if commands == [] then []
    else
      var c := commands[|commands| - 1];
      Matches(commands[..|commands| - 1], sandbox, cwd)
      + if c.sandbox == sandbox && c.text == FIRST_COMMAND && c.cwd == cwd then [c] else []
  }

  function JoinLogs(c: Command): string {
    if c.stdout == "" then c.stderr else if c.stderr == "" then c.stdout else c.stdout + "\n" + c.stderr
  }

  // The code between two awaits.

  function Begin(o: Outside, task: Task, aborted: bool): World {
    if aborted || Set(task.complete) then World(o, Idle)
    else if !Given(task.sandboxId) then World(o.(creates := o.creates + {task.intent}), At(Created, task))
    else Recover(o, task, aborted)
  }

  function Recover(o: Outside, task: Task, aborted: bool): World {
    if Set(task.submitted) && !Given(task.commandId) then
      World(o, if aborted then Idle else At(Listed, task))
    else if !Set(task.submitted) then
      World(o, if aborted then Idle else At(Probed, task))
    else
      Observe(o, task, aborted)
  }

  function Observe(o: Outside, task: Task, aborted: bool): World {
    World(o, if aborted then Idle else At(Observed, task))
  }

  function Submit(o: Outside, before: Task, workdir: Option<string>, aborted: bool): World {
    if !(workdir.Some? && Rooted(workdir.value)) then World(o, Idle)
    else
      var task := before.(cwd := workdir.value);
      if aborted then World(Save(o, task), Idle)
      else
        var marked := task.(submitted := Some(true));
        var sandbox := if task.sandboxId.Some? then task.sandboxId.value else "";
        World(Save(o, marked).(posts := o.posts + 1, starts := o.starts[o.posts := Submission(sandbox, task.cwd)]),
              At(Posted(o.posts), marked))
  }

  function Finish(o: Outside, before: Task, seen: Command, logs: Command): World {
    var task := before.(output := Some(JoinLogs(logs)));
    if seen.status != Succeeded || seen.exitCode != Some(0) then World(Save(o, task), Idle)
    else World(Save(o, task.(complete := Some(true))), Idle)
  }

  function Acknowledge(o: Outside, before: Task, id: string, aborted: bool): World {
    var task := before.(commandId := Some(id));
    Observe(Save(o, task), task, aborted)
  }

  /** An answer about the saved command: index names it among all commands. */
  predicate Names(o: Outside, task: Task, index: nat) {
    && index < |o.commands|
    && task.sandboxId == Some(o.commands[index].sandbox)
    && task.commandId == Some(o.commands[index].id)
  }

  /** Whether e is something the await can resume on. */
  predicate Answers(o: Outside, await: Await, task: Task, e: Event) {
    match await
    case Created => e.CreateReply? && task.intent in o.byKey
    case Listed => e.ListReply? && task.sandboxId.Some?
    case Probed => e.ProbeReply?
    case ProbePaused => e.PauseOver?
    case Posted(ticket) => e.SubmitReply? && e.index < |o.commands| && o.commands[e.index].ticket == Some(ticket)
    case Observed => e.StatusReply? && Names(o, task, e.index)
    case Logged(_) => e.LogsReply? && Names(o, task, e.index)
    case ObservePaused => e.PauseOver?
  }

  /** What runFirstTask throws, other than what its client or its signal does. */
  datatype Why = Unconfirmed | NoDirectory | NotRunningAnyMore | NoReadiness | NotSucceeded

  /** Whether the answer to an await makes it throw. */
  function Throws(o: Outside, await: Await, task: Task, e: Event): Option<Why>
    requires Answers(o, await, task, e)
  {
    match await
    case Listed => if |Matches(o.commands, task.sandboxId.value, task.cwd)| != 1 then Some(Unconfirmed) else None
    case Probed =>
      (match e.readiness
       case Ready(workdir) => if workdir.Some? && Rooted(workdir.value) then None else Some(NoDirectory)
       case NotRunning => Some(NotRunningAnyMore)
       case Unsupported => Some(NoReadiness)
       case Starting => None)
    case Logged(seen) => if seen.status == Succeeded && seen.exitCode == Some(0) then None else Some(NotSucceeded)
    case _ => None
  }

  /** The signal is aborted when the code resumes. */
  predicate Aborts(e: Event) {
    match e
    case Launch(aborted) => aborted
    case CreateReply(aborted) => aborted
    case ListReply(aborted) => aborted
    case ProbeReply(_, aborted) => aborted
    case PauseOver(aborted) => aborted
    case SubmitReply(_, aborted) => aborted
    case _ => false
  }

  /** From one await to the next, or to the end of the run. */
  function Resume(o: Outside, await: Await, task: Task, e: Event): World
    requires Answers(o, await, task, e)
  {
    match await
    case Created =>
      var next := task.(sandboxId := Some(o.byKey[task.intent]));
      Recover(Save(o, next), next, e.aborted)
    case Listed =>
      var found := Matches(o.commands, task.sandboxId.value, task.cwd);
      if |found| != 1 then World(o, Idle) else Acknowledge(o, task, found[0].id, e.aborted)
    case Probed =>
      (match e.readiness
       case Ready(workdir) => Submit(o, task, workdir, e.aborted)
       case NotRunning => World(o, Idle)
       case Unsupported => World(o, Idle)
       case Starting => World(o, At(ProbePaused, task)))
    case ProbePaused => World(o, if e.aborted then Idle else At(Probed, task))
    case Posted(_) => Acknowledge(o, task, o.commands[e.index].id, e.aborted)
    case Observed =>
      World(o, At(if Terminal(o.commands[e.index].status) then Logged(o.commands[e.index]) else ObservePaused, task))
    case Logged(seen) => Finish(o, task, seen, o.commands[e.index])
    case ObservePaused => Observe(o, task, e.aborted)
  }

  function Step(w: World, e: Event): World {
    var o := w.out;
    if !FromTab(e) then World(Elsewhere(o, e), w.driver)
    else if e.Crash? then World(o, Idle)
    else
      match w.driver
      case Idle =>
        if e.Launch? && ReadFirstTask(o.saved).Some? then Begin(o, ReadFirstTask(o.saved).value, e.aborted) else w
      case At(await, task) =>
        if Answers(o, await, task, e) then Resume(o, await, task, e) else w
  }

  function Exec(w: World, events: seq<Event>): World {
    if events == [] then w else Step(Exec(w, events[..|events| - 1]), events[|events| - 1])
  }

  function NewTask(templateId: string, cwd: string, intent: string): Task {
    Task(templateId, cwd, intent, None, None, None, None, None)
  }

  /** The record is saved, nothing has been sent, other commands may exist anywhere. */
  ghost predicate Start(w: World, first: Task) {
    && w.driver == Idle
    && Rooted(first.cwd)
    && first == NewTask(first.templateId, first.cwd, first.intent)
    && w.out.saved == Write(first)
    && first.intent !in w.out.byKey
    && w.out.provisioned == [] && w.out.creates == {} && w.out.starts == map[] && w.out.posts == 0
    && (forall i | 0 <= i < |w.out.commands| :: w.out.commands[i].ticket == None && w.out.commands[i].id != "")
    && (forall i, j | 0 <= i < j < |w.out.commands| :: w.out.commands[i].id != w.out.commands[j].id)
    && (forall key | key in w.out.byKey :: w.out.byKey[key] != "")
  }
}
