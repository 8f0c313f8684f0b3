/** What every run of the onboarding task keeps, over any sequence of runs. */
module FirstTaskSafety {
  import opened Wrappers
  import opened FirstTaskRecord
  import opened FirstTaskMachine

  /** Command i is the one the record names, made of the task's text and directory. */
  ghost predicate Saved(o: Outside, task: Task, i: nat) {
    Names(o, task, i) && o.commands[i].text == FIRST_COMMAND && o.commands[i].cwd == task.cwd
  }

  ghost predicate SandboxSound(o: Outside, task: Task, intent: string) {
    && task.intent == intent
    && o.creates <= {intent}
    && o.provisioned == (if intent in o.byKey then [o.byKey[intent]] else [])
    && (forall key | key in o.byKey :: o.byKey[key] != "")
    && (task.sandboxId.Some? ==> intent in o.byKey && task.sandboxId.value == o.byKey[intent])
  }

  ghost predicate SubmissionSound(o: Outside, task: Task) {
    && o.posts == (if Set(task.submitted) then 1 else 0)
    && (Set(task.submitted) ==> task.sandboxId.Some?)
    && (forall k | k in o.starts :: k < o.posts && o.starts[k] == Submission(task.sandboxId.value, task.cwd))
    && (forall i | 0 <= i < |o.commands| && o.commands[i].ticket.Some? ::
          && o.commands[i].ticket.value < o.posts
          && o.commands[i].ticket.value !in o.starts
          && o.commands[i].sandbox == task.sandboxId.value
          && o.commands[i].text == FIRST_COMMAND
          && o.commands[i].cwd == task.cwd)
    && (forall i, j | 0 <= i < j < |o.commands| && o.commands[i].ticket.Some? :: o.commands[i].ticket != o.commands[j].ticket)
    && (Set(task.submitted) ==> 0 in o.starts || Arrived(o))
  }

  /** The submission has reached the service. */
  ghost predicate Arrived(o: Outside) {
    exists i :: 0 <= i < |o.commands| && o.commands[i].ticket == Some(0)
  }

  ghost predicate IdsSound(o: Outside) {
    && (forall i | 0 <= i < |o.commands| :: o.commands[i].id != "")
    && (forall i, j | 0 <= i < j < |o.commands| :: o.commands[i].id != o.commands[j].id)
  }

  ghost predicate RecordSound(o: Outside, task: Task) {
    && Rooted(task.cwd)
    && (task.commandId.Some? ==> Set(task.submitted) && exists i: nat :: Saved(o, task, i))
    && (Set(task.complete) ==>
          exists i: nat ::
            && Saved(o, task, i) && o.commands[i].status == Succeeded && o.commands[i].exitCode == Some(0)
            && task.output == Some(LogText(o.commands[i].stdout, o.commands[i].stderr)))
  }

  /** Both streams, with a line break between them if neither is empty. */
  function LogText(stdout: string, stderr: string): string {
    stdout + (if stdout != "" && stderr != "" then "\n" else "") + stderr
  }

  lemma LogTextIsJoined(c: Command)
    ensures JoinLogs(c) == LogText(c.stdout, c.stderr)
  {
    if c.stdout == "" {
      assert LogText(c.stdout, c.stderr) == c.stderr;
    } else if c.stderr == "" {
      assert LogText(c.stdout, c.stderr) == c.stdout;
    }
  }

  ghost predicate Sound(o: Outside, task: Task, intent: string) {
    SandboxSound(o, task, intent) && SubmissionSound(o, task) && IdsSound(o) && RecordSound(o, task)
  }

  /** The tab's copy is the saved record, and it waits where that record lets it wait. */
  ghost predicate DriverSound(o: Outside, driver: Driver, task: Task) {
    match driver
    case Idle => true
    case At(await, mine) =>
      && mine == task
      && !Set(task.complete)
      && match await
         case Created => task.sandboxId.None? && task.intent in o.creates
         case Listed => task.sandboxId.Some? && Set(task.submitted) && task.commandId.None?
         case Probed => task.sandboxId.Some? && !Set(task.submitted)
         case ProbePaused => task.sandboxId.Some? && !Set(task.submitted)
         case Posted(_) => Set(task.submitted) && task.commandId.None?
         case Observed => task.commandId.Some?
         case ObservePaused => task.commandId.Some?
         case Logged(seen) =>
           task.commandId.Some? && Terminal(seen.status) && exists i: nat :: Saved(o, task, i) && o.commands[i] == seen
  }

  /** The record is task, and everything agrees with it. */
  ghost predicate Holds(w: World, task: Task, intent: string) {
    w.out.saved == Write(task) && Sound(w.out, task, intent) && DriverSound(w.out, w.driver, task)
  }

  ghost predicate Inv(w: World, intent: string) {
    ReadFirstTask(w.out.saved).Some? && Holds(w, ReadFirstTask(w.out.saved).value, intent)
  }

  lemma HoldsIsInv(w: World, task: Task, intent: string)
    requires Holds(w, task, intent)
    ensures Inv(w, intent)
  {
    ReadOfWrite(task);
  }

  lemma MatchesAre(commands: seq<Command>, sandbox: string, cwd: string)
    ensures forall c :: c in Matches(commands, sandbox, cwd) <==>
                        c in commands && c.sandbox == sandbox && c.text == FIRST_COMMAND && c.cwd == cwd
  {
    if commands != [] {
      var k := |commands| - 1;
      MatchesAre(commands[..k], sandbox, cwd);
      assert commands == commands[..k] + [commands[k]];
    }
  }

  lemma StartIsSound(w: World, first: Task)
    requires Start(w, first)
    ensures Inv(w, first.intent)
  {
    HoldsIsInv(w, first, first.intent);
  }

  // Steps elsewhere.

  lemma ElsewhereSubmission(o: Outside, e: Event, task: Task)
    requires SubmissionSound(o, task) && IdsSound(o)
    ensures SubmissionSound(Elsewhere(o, e), task)
  {
    var o' := Elsewhere(o, e);
    if Arrived(o) {
      var i :| 0 <= i < |o.commands| && o.commands[i].ticket == Some(0);
      assert o'.commands[i].ticket == Some(0);
    } else if Set(task.submitted) && 0 !in o'.starts {
      assert o'.commands[|o'.commands| - 1].ticket == Some(0);
    }
  }

  lemma ElsewhereKeepsCommands(o: Outside, e: Event, i: nat)
    requires i < |o.commands|
    ensures var o' := Elsewhere(o, e);
            && i < |o'.commands|
            && (Terminal(o.commands[i].status) ==> o'.commands[i] == o.commands[i])
            && o'.commands[i].sandbox == o.commands[i].sandbox && o'.commands[i].id == o.commands[i].id
            && o'.commands[i].text == o.commands[i].text && o'.commands[i].cwd == o.commands[i].cwd
            && o'.commands[i].ticket == o.commands[i].ticket
  {}

  lemma ElsewhereIds(o: Outside, e: Event)
    requires IdsSound(o)
    ensures IdsSound(Elsewhere(o, e))
  {}

  lemma ElsewhereRecord(o: Outside, e: Event, driver: Driver, task: Task)
    requires RecordSound(o, task) && DriverSound(o, driver, task)
    ensures RecordSound(Elsewhere(o, e), task) && DriverSound(Elsewhere(o, e), driver, task)
  {
    var o' := Elsewhere(o, e);
    forall i: nat | Saved(o, task, i)
      ensures Saved(o', task, i) && (Terminal(o.commands[i].status) ==> o'.commands[i] == o.commands[i])
    {
      ElsewhereKeepsCommands(o, e, i);
    }
  }

  lemma ElsewhereKeeps(w: World, e: Event, intent: string)
    requires Inv(w, intent) && !FromTab(e)
    ensures Inv(Step(w, e), intent)
  {
    var task := ReadFirstTask(w.out.saved).value;
    assert SandboxSound(Elsewhere(w.out, e), task, intent);
    ElsewhereSubmission(w.out, e, task);
    ElsewhereIds(w.out, e);
    ElsewhereRecord(w.out, e, w.driver, task);
  }

  // Steps of the tab.

  lemma SubmitKeeps(o: Outside, task: Task, workdir: Option<string>, aborted: bool, intent: string)
    requires o.saved == Write(task) && Sound(o, task, intent) && task.sandboxId.Some? && !Set(task.submitted) && !Set(task.complete)
    ensures Inv(Submit(o, task, workdir, aborted), intent)
  {
    if workdir.Some? && Rooted(workdir.value) {
      var moved := task.(cwd := workdir.value);
      if aborted {
        HoldsIsInv(World(Save(o, moved), Idle), moved, intent);
      } else {
        var next := Submit(o, task, workdir, aborted);
        HoldsIsInv(next, moved.(submitted := Some(true)), intent);
      }
    } else {
      HoldsIsInv(World(o, Idle), task, intent);
    }
  }

  lemma AcknowledgeKeeps(o: Outside, task: Task, i: nat, aborted: bool, intent: string)
    requires Sound(o, task, intent) && Set(task.submitted) && task.commandId.None? && !Set(task.complete)
    requires i < |o.commands| && task.sandboxId == Some(o.commands[i].sandbox)
    requires o.commands[i].text == FIRST_COMMAND && o.commands[i].cwd == task.cwd
    ensures Inv(Acknowledge(o, task, o.commands[i].id, aborted), intent)
  {
    var next := task.(commandId := Some(o.commands[i].id));
    assert Saved(Save(o, next), next, i);
    HoldsIsInv(Acknowledge(o, task, o.commands[i].id, aborted), next, intent);
  }

  lemma SavedIsUnique(o: Outside, task: Task, i: nat, j: nat)
    requires IdsSound(o) && Names(o, task, i) && Names(o, task, j)
    ensures i == j
  {}

  lemma FinishKeeps(o: Outside, task: Task, seen: Command, i: nat, intent: string)
    requires Sound(o, task, intent) && DriverSound(o, At(Logged(seen), task), task)
    requires Names(o, task, i)
    ensures Inv(Finish(o, task, seen, o.commands[i]), intent)
  {
    var k: nat :| Saved(o, task, k) && o.commands[k] == seen;
    SavedIsUnique(o, task, i, k);
    var output := task.(output := Some(JoinLogs(seen)));
    LogTextIsJoined(seen);
    var done := if seen.status == Succeeded && seen.exitCode == Some(0) then output.(complete := Some(true)) else output;
    assert Saved(Save(o, done), done, i);
    HoldsIsInv(Finish(o, task, seen, o.commands[i]), done, intent);
  }

  lemma RecoverKeeps(o: Outside, task: Task, aborted: bool, intent: string)
    requires o.saved == Write(task) && Sound(o, task, intent) && task.sandboxId.Some? && !Set(task.complete)
    ensures Inv(Recover(o, task, aborted), intent)
  {
    HoldsIsInv(Recover(o, task, aborted), task, intent);
  }

  lemma BeginKeeps(w: World, aborted: bool, intent: string)
    requires Inv(w, intent) && w.driver.Idle?
    ensures Inv(Begin(w.out, ReadFirstTask(w.out.saved).value, aborted), intent)
  {
    var task := ReadFirstTask(w.out.saved).value;
    if !aborted && !Set(task.complete) && Given(task.sandboxId) {
      RecoverKeeps(w.out, task, aborted, intent);
    } else {
      HoldsIsInv(Begin(w.out, task, aborted), task, intent);
    }
  }

  lemma CreateReplyKeeps(o: Outside, task: Task, aborted: bool, intent: string)
    requires Sound(o, task, intent) && DriverSound(o, At(Created, task), task) && task.intent in o.byKey
    ensures var next := task.(sandboxId := Some(o.byKey[task.intent]));
            Inv(Recover(Save(o, next), next, aborted), intent)
  {
    var next := task.(sandboxId := Some(o.byKey[task.intent]));
    assert SandboxSound(Save(o, next), next, intent);
    assert SubmissionSound(Save(o, next), next);
    RecoverKeeps(Save(o, next), next, aborted, intent);
  }

  lemma ListReplyKeeps(o: Outside, task: Task, aborted: bool, intent: string)
    requires Sound(o, task, intent) && DriverSound(o, At(Listed, task), task)
    requires |Matches(o.commands, task.sandboxId.value, task.cwd)| == 1
    ensures Inv(Acknowledge(o, task, Matches(o.commands, task.sandboxId.value, task.cwd)[0].id, aborted), intent)
  {
    var found := Matches(o.commands, task.sandboxId.value, task.cwd);
    MatchesAre(o.commands, task.sandboxId.value, task.cwd);
    assert found[0] in found;
    var i: nat :| i < |o.commands| && o.commands[i] == found[0];
    AcknowledgeKeeps(o, task, i, aborted, intent);
  }

  /** A step that leaves the outside alone and waits again, or gives up. */
  lemma WaitKeeps(w: World, driver: Driver, intent: string)
    requires Inv(w, intent) && DriverSound(w.out, driver, ReadFirstTask(w.out.saved).value)
    ensures Inv(World(w.out, driver), intent)
  {}

  lemma StatusReplyKeeps(w: World, i: nat, intent: string)
    requires Inv(w, intent) && w.driver.At? && w.driver.await == Observed && Names(w.out, w.driver.task, i)
    ensures Terminal(w.out.commands[i].status) ==> Inv(World(w.out, At(Logged(w.out.commands[i]), w.driver.task)), intent)
  {
    var o, task := w.out, w.driver.task;
    var k: nat :| Saved(o, task, k);
    SavedIsUnique(o, task, i, k);
    if Terminal(o.commands[i].status) {
      WaitKeeps(w, At(Logged(o.commands[i]), task), intent);
    }
  }

  lemma EarlyReplyKeeps(w: World, e: Event, intent: string)
    requires Inv(w, intent) && w.driver.At? && FromTab(e) && !e.Crash?
    requires w.driver.await.Created? || w.driver.await.Listed? || w.driver.await.Probed? || w.driver.await.ProbePaused?
    ensures Inv(Step(w, e), intent)
  {
    var o, task := w.out, w.driver.task;
    match w.driver.await {
      case Created =>
        if e.CreateReply? && task.intent in o.byKey { CreateReplyKeeps(o, task, e.aborted, intent); }
      case Listed =>
        if e.ListReply? {
          if |Matches(o.commands, task.sandboxId.value, task.cwd)| == 1 {
            ListReplyKeeps(o, task, e.aborted, intent);
          } else {
            WaitKeeps(w, Idle, intent);
          }
        }
      case Probed =>
        if e.ProbeReply? {
          if e.readiness.Ready? {
            SubmitKeeps(o, task, e.readiness.workdir, e.aborted, intent);
          } else {
            WaitKeeps(w, if e.readiness.Starting? then At(ProbePaused, task) else Idle, intent);
          }
        }
      case ProbePaused =>
        if e.PauseOver? { WaitKeeps(w, if e.aborted then Idle else At(Probed, task), intent); }
    }
  }

  lemma LateReplyKeeps(w: World, e: Event, intent: string)
    requires Inv(w, intent) && w.driver.At? && FromTab(e) && !e.Crash?
    requires w.driver.await.Posted? || w.driver.await.Observed? || w.driver.await.Logged? || w.driver.await.ObservePaused?
    ensures Inv(Step(w, e), intent)
  {
    var o, task := w.out, w.driver.task;
    match w.driver.await {
      case ObservePaused =>
        if e.PauseOver? { WaitKeeps(w, if e.aborted then Idle else At(Observed, task), intent); }
      case Posted(ticket) =>
        if e.SubmitReply? && e.index < |o.commands| && o.commands[e.index].ticket == Some(ticket) {
          AcknowledgeKeeps(o, task, e.index, e.aborted, intent);
        }
      case Observed =>
        if e.StatusReply? && Names(o, task, e.index) {
          StatusReplyKeeps(w, e.index, intent);
          if !Terminal(o.commands[e.index].status) { WaitKeeps(w, At(ObservePaused, task), intent); }
        }
      case Logged(seen) =>
        if e.LogsReply? && Names(o, task, e.index) { FinishKeeps(o, task, seen, e.index, intent); }
    }
  }

  lemma TabKeeps(w: World, e: Event, intent: string)
    requires Inv(w, intent) && FromTab(e)
    ensures Inv(Step(w, e), intent)
  {
    if e.Crash? {
      WaitKeeps(w, Idle, intent);
    } else if w.driver.At? {
      match w.driver.await {
        case Created | Listed | Probed | ProbePaused => EarlyReplyKeeps(w, e, intent);
        case Posted(_) | Observed | Logged(_) | ObservePaused => LateReplyKeeps(w, e, intent);
      }
    } else if e.Launch? {
      BeginKeeps(w, e.aborted, intent);
    }
  }

  lemma StepKeeps(w: World, e: Event, intent: string)
    requires Inv(w, intent)
    ensures Inv(Step(w, e), intent)
  {
    if FromTab(e) { TabKeeps(w, e, intent); } else { ElsewhereKeeps(w, e, intent); }
  }

  lemma {:induction false} RunKeeps(w: World, events: seq<Event>, intent: string)
    requires Inv(w, intent)
    ensures Inv(Exec(w, events), intent)
  {
    if events != [] {
      RunKeeps(w, events[..|events| - 1], intent);
      StepKeeps(Exec(w, events[..|events| - 1]), events[|events| - 1], intent);
    }
  }

  // Main results, over every run of a fresh task.

  /** One submission and one sandbox at most, and the record is what the tab has in memory. */
  ghost predicate SubmittedOnce(w: World) {
    && w.out.posts <= 1
    && |w.out.provisioned| <= 1
    && (forall i, j | 0 <= i < j < |w.out.commands| ::
          w.out.commands[i].ticket.None? || w.out.commands[j].ticket.None?)
    && ReadFirstTask(w.out.saved).Some?
    && var task := ReadFirstTask(w.out.saved).value;
    && (w.driver.At? ==> w.driver.task == task)
    && (w.out.posts == 1 <==> Set(task.submitted))
    && (task.sandboxId.Some? ==> w.out.provisioned == [task.sandboxId.value])
  }

  /** Nobody else issued the task's text in its directory of its sandbox. */
  ghost predicate NoLookalike(o: Outside, task: Task) {
    forall i | 0 <= i < |o.commands| ::
      task.sandboxId == Some(o.commands[i].sandbox) && o.commands[i].text == FIRST_COMMAND && o.commands[i].cwd == task.cwd
      ==> o.commands[i].ticket.Some?
  }

  /** A saved command exists, and is the submitted one unless it has a lookalike; completion is earned. */
  ghost predicate RecordIsTrue(o: Outside, task: Task) {
    && (task.commandId.Some? ==>
          exists i: nat :: Saved(o, task, i) && (NoLookalike(o, task) ==> o.commands[i].ticket == Some(0)))
    && (Set(task.complete) ==>
          exists i: nat ::
            && Saved(o, task, i) && o.commands[i].status == Succeeded && o.commands[i].exitCode == Some(0)
            && task.output == Some(LogText(o.commands[i].stdout, o.commands[i].stderr)))
  }

  lemma InvTells(w: World, intent: string)
    requires Inv(w, intent)
    ensures SubmittedOnce(w) && RecordIsTrue(w.out, ReadFirstTask(w.out.saved).value)
  {
    InvTellsRecord(w, intent);
  }

  lemma InvTellsRecord(w: World, intent: string)
    requires Inv(w, intent)
    ensures RecordIsTrue(w.out, ReadFirstTask(w.out.saved).value)
  {
    var o, task := w.out, ReadFirstTask(w.out.saved).value;
    if task.commandId.Some? {
      var i: nat :| Saved(o, task, i);
      assert NoLookalike(o, task) ==> o.commands[i].ticket == Some(0);
    }
  }

  /**
   However often the task is run and wherever it is cut off, one command at most is submitted and one
   sandbox at most is made; the record always reads back as the tab's task, so the submitted mark is
   never lost; a saved command is the task's own; and completion means success with the saved output.
   */
  lemma EveryRunIsSafe(w: World, first: Task, events: seq<Event>)
    requires Start(w, first)
    ensures SubmittedOnce(Exec(w, events))
    ensures RecordIsTrue(Exec(w, events).out, ReadFirstTask(Exec(w, events).out.saved).value)
  {
    StartIsSound(w, first);
    RunKeeps(w, events, first.intent);
    InvTells(Exec(w, events), first.intent);
  }

  /** From submission on directory and sandbox are fixed, and so is an acknowledged command. */
  ghost predicate Frozen(before: Task, after: Task) {
    && after.intent == before.intent && after.templateId == before.templateId
    && (before.sandboxId.Some? ==> after.sandboxId == before.sandboxId)
    && (Set(before.submitted) ==> Set(after.submitted) && after.cwd == before.cwd)
    && (before.commandId.Some? ==> after.commandId == before.commandId)
    && (Set(before.complete) ==> after == before)
  }

  ghost predicate RecordFrozen(w: World, w': World) {
    && ReadFirstTask(w.out.saved).Some? && ReadFirstTask(w'.out.saved).Some?
    && Frozen(ReadFirstTask(w.out.saved).value, ReadFirstTask(w'.out.saved).value)
  }

  lemma SavedFrozen(w: World, w': World, after: Task)
    requires ReadFirstTask(w.out.saved).Some? && Rooted(after.cwd)
    requires Frozen(ReadFirstTask(w.out.saved).value, after)
    requires w'.out.saved == Write(after)
    ensures RecordFrozen(w, w')
  {
    ReadOfWrite(after);
  }

  lemma SubmitFreezes(w: World, workdir: Option<string>, aborted: bool, intent: string)
    requires Inv(w, intent) && w.driver.At? && w.driver.await.Probed?
    ensures RecordFrozen(w, Submit(w.out, w.driver.task, workdir, aborted))
  {
    if workdir.Some? && Rooted(workdir.value) {
      var moved := w.driver.task.(cwd := workdir.value);
      SavedFrozen(w, Submit(w.out, w.driver.task, workdir, aborted), if aborted then moved else moved.(submitted := Some(true)));
    }
  }

  lemma FinishFreezes(w: World, seen: Command, logs: Command, intent: string)
    requires Inv(w, intent) && w.driver.At? && w.driver.await.Logged?
    ensures RecordFrozen(w, Finish(w.out, w.driver.task, seen, logs))
  {
    var output := w.driver.task.(output := Some(JoinLogs(logs)));
    SavedFrozen(w, Finish(w.out, w.driver.task, seen, logs),
                if seen.status == Succeeded && seen.exitCode == Some(0) then output.(complete := Some(true)) else output);
  }

  lemma AcknowledgeFreezes(w: World, id: string, aborted: bool, intent: string)
    requires Inv(w, intent) && w.driver.At? && w.driver.task.commandId.None?
    ensures RecordFrozen(w, Acknowledge(w.out, w.driver.task, id, aborted))
  {
    SavedFrozen(w, Acknowledge(w.out, w.driver.task, id, aborted), w.driver.task.(commandId := Some(id)));
  }

  lemma CreateReplyFreezes(w: World, aborted: bool, intent: string)
    requires Inv(w, intent) && w.driver.At? && w.driver.await.Created? && w.driver.task.intent in w.out.byKey
    ensures RecordFrozen(w, Step(w, CreateReply(aborted)))
  {
    SavedFrozen(w, Step(w, CreateReply(aborted)), w.driver.task.(sandboxId := Some(w.out.byKey[w.driver.task.intent])));
  }

  lemma {:induction false} StepFreezes(w: World, e: Event, intent: string)
    requires Inv(w, intent)
    ensures RecordFrozen(w, Step(w, e))
  {
    if FromTab(e) && w.driver.At? {
      var o, task := w.out, w.driver.task;
      match w.driver.await {
        case Created =>
          if e.CreateReply? && task.intent in o.byKey { CreateReplyFreezes(w, e.aborted, intent); }
        case Listed =>
          if e.ListReply? {
            var found := Matches(o.commands, task.sandboxId.value, task.cwd);
            if |found| == 1 { AcknowledgeFreezes(w, found[0].id, e.aborted, intent); }
          }
        case Probed =>
          if e.ProbeReply? && e.readiness.Ready? { SubmitFreezes(w, e.readiness.workdir, e.aborted, intent); }
        case Posted(_) =>
          if e.SubmitReply? && e.index < |o.commands| { AcknowledgeFreezes(w, o.commands[e.index].id, e.aborted, intent); }
        case Logged(seen) =>
          if e.LogsReply? && e.index < |o.commands| { FinishFreezes(w, seen, o.commands[e.index], intent); }
        case _ =>
      }
    }
  }

  lemma FrozenTransitive(a: World, b: World, c: World)
    requires RecordFrozen(a, b) && RecordFrozen(b, c)
    ensures RecordFrozen(a, c)
  {}

  lemma FrozenItself(w: World, intent: string)
    requires Inv(w, intent)
    ensures RecordFrozen(w, w)
  {
    InvTells(w, intent);
  }

  lemma FreezesOn(a: World, b: World, e: Event, intent: string)
    requires RecordFrozen(a, b) && Inv(b, intent)
    ensures RecordFrozen(a, Step(b, e))
  {
    StepFreezes(b, e, intent);
    FrozenTransitive(a, b, Step(b, e));
  }

  lemma ExecMore(w: World, events: seq<Event>, later: seq<Event>)
    requires later != []
    ensures Exec(w, events + later) == Step(Exec(w, events + later[..|later| - 1]), later[|later| - 1])
  {
    var all := events + later;
    assert all[..|all| - 1] == events + later[..|later| - 1] && all[|all| - 1] == later[|later| - 1];
  }

  lemma {:induction false} FreezesAlong(a: World, w: World, events: seq<Event>, later: seq<Event>, intent: string)
    requires Inv(w, intent) && RecordFrozen(a, Exec(w, events))
    ensures RecordFrozen(a, Exec(w, events + later))
    decreases |later|
  {
    if later == [] {
      assert events + later == events;
    } else {
      var less := later[..|later| - 1];
      FreezesAlong(a, w, events, less, intent);
      RunKeeps(w, events + less, intent);
      FreezesOn(a, Exec(w, events + less), later[|later| - 1], intent);
      ExecMore(w, events, later);
    }
  }

  /** Once it holds, it holds for good: over every continuation of every run. */
  lemma {:induction false} EveryRunFreezes(w: World, first: Task, events: seq<Event>, later: seq<Event>)
    requires Start(w, first)
    ensures RecordFrozen(Exec(w, events), Exec(w, events + later))
  {
    StartIsSound(w, first);
    RunKeeps(w, events, first.intent);
    FrozenItself(Exec(w, events), first.intent);
    FreezesAlong(Exec(w, events), w, events, later, first.intent);
  }

  /**
   What the recovery branch attaches to. The single match is the task's own command exactly when the
   submission has arrived; otherwise it is somebody else's command with the same text and directory.
   */
  lemma {:induction false} SingleMatchIsOwnIffArrived(w: World, first: Task, events: seq<Event>)
    requires Start(w, first)
    requires var last := Exec(w, events); last.driver.At? && last.driver.await.Listed?
    ensures var last := Exec(w, events);
            && last.driver.task.sandboxId.Some?
            && var found := Matches(last.out.commands, last.driver.task.sandboxId.value, last.driver.task.cwd);
            && (|found| == 1 ==> (found[0].ticket == Some(0) <==> Arrived(last.out)))
            && (found == [] ==> !Arrived(last.out))
  {
    StartIsSound(w, first);
    RunKeeps(w, events, first.intent);
    ListedMatches(Exec(w, events), first.intent);
  }

  lemma ListedMatches(w: World, intent: string)
    requires Inv(w, intent) && w.driver.At? && w.driver.await.Listed?
    ensures var found := Matches(w.out.commands, w.driver.task.sandboxId.value, w.driver.task.cwd);
            && (|found| == 1 ==> (found[0].ticket == Some(0) <==> Arrived(w.out)))
            && (found == [] ==> !Arrived(w.out))
  {
    var o, task := w.out, w.driver.task;
    var found := Matches(o.commands, task.sandboxId.value, task.cwd);
    MatchesAre(o.commands, task.sandboxId.value, task.cwd);
    if Arrived(o) {
      var i :| 0 <= i < |o.commands| && o.commands[i].ticket == Some(0);
      assert o.commands[i] in found;
      if |found| == 1 { assert found[0] == o.commands[i]; }
    } else if |found| == 1 {
      assert found[0] in found;
    }
  }
}
