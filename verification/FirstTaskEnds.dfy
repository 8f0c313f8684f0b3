/** When and how runs of the onboarding task end, and that they can (apps/web/src/first-sandbox.ts, lines 55 to 101). */
module FirstTaskEnds {
  import opened Wrappers
  import opened FirstTaskRecord
  import opened FirstTaskMachine
  import opened FirstTaskSafety
  import opened FirstTaskRuns

  /** The record is complete, with the output of a command that succeeded. */
  ghost predicate CompleteRecord(o: Outside) {
    && ReadFirstTask(o.saved).Some?
    && var task := ReadFirstTask(o.saved).value;
    && Set(task.complete)
    && exists i: nat ::
         && Saved(o, task, i) && o.commands[i].status == Succeeded && o.commands[i].exitCode == Some(0)
         && task.output == Some(LogText(o.commands[i].stdout, o.commands[i].stderr))
  }

  /** The last answer of a run: the logs of a command that has succeeded. */
  predicate LastAnswer(await: Await) {
    await.Logged? && await.seen.status == Succeeded && await.seen.exitCode == Some(0)
  }

  /** After "starting" the signal is not looked at before the pause is over. */
  predicate StillStarting(await: Await, e: Event) {
    await.Probed? && e.ProbeReply? && e.readiness.Starting?
  }

  /**
   An answer ends the run exactly when the signal is aborted, when it makes the program throw, or when
   it is the last one; no other answer does.
   */
  lemma EndsExactly(o: Outside, await: Await, task: Task, e: Event)
    requires Answers(o, await, task, e)
    ensures Resume(o, await, task, e).driver.Idle? <==>
            (Aborts(e) && !StillStarting(await, e)) || Throws(o, await, task, e).Some? || LastAnswer(await)
    ensures StillStarting(await, e) ==> Resume(o, await, task, e) == World(o, At(ProbePaused, task))
  {}

  /**
   In every run from a fresh task: a run that ends without a crash, without an abort and without one of
   the throws of the program has left a complete record, with the output of its command.
   */
  lemma EndsComplete(w: World, first: Task, events: seq<Event>, e: Event)
    requires Start(w, first) && Exec(w, events).driver.At? && Step(Exec(w, events), e).driver.Idle?
    requires !e.Crash? && !Aborts(e)
    ensures var last := Exec(w, events);
            && Answers(last.out, last.driver.await, last.driver.task, e)
            && (Throws(last.out, last.driver.await, last.driver.task, e).None? ==> CompleteRecord(Step(last, e).out))
  {
    StartIsSound(w, first);
    RunKeeps(w, events, first.intent);
    EndOfStep(Exec(w, events), e, first.intent);
  }

  lemma EndOfStep(last: World, e: Event, intent: string)
    requires Inv(last, intent) && last.driver.At? && Step(last, e).driver.Idle? && !e.Crash? && !Aborts(e)
    ensures Answers(last.out, last.driver.await, last.driver.task, e)
    ensures Throws(last.out, last.driver.await, last.driver.task, e).None? ==> CompleteRecord(Step(last, e).out)
  {
    if Throws(last.out, last.driver.await, last.driver.task, e).None? {
      assert last.driver.await.Logged?;
      var task := last.driver.task.(output := Some(JoinLogs(last.out.commands[e.index])), complete := Some(true));
      ReadOfWrite(task);
      StepKeeps(last, e, intent);
      InvTells(Step(last, e), intent);
    }
  }

  // A run that completes.

  function Waits(box: string, cwd: string, id: string): Command {
    Command(box, id, FIRST_COMMAND, cwd, Some(0), Waiting, None, "", "")
  }

  /** The world once the submission has arrived, with the command as it is by then. */
  function Accepted(first: Task, box: string, cwd: string, c: Command): Outside {
    Sent(first, box, cwd).(starts := map[], commands := [c])
  }

  function Acknowledged(first: Task, box: string, cwd: string, id: string): Task {
    FirstTaskRuns.Submitted(first, box, cwd).(commandId := Some(id))
  }

  predicate New(first: Task) {
    Rooted(first.cwd) && first == NewTask(first.templateId, first.cwd, first.intent)
  }

  /** From the launch to the wait for readiness. */
  lemma Provisions(first: Task, box: string) returns (events: seq<Event>)
    requires New(first) && box != ""
    ensures Exec(Fresh(first), events) ==
            World(Provisioned(first, box).(saved := Write(first.(sandboxId := Some(box)))), At(Probed, first.(sandboxId := Some(box))))
  {
    var w := Fresh(first);
    events := [];
    ExecOn(w, events, Launch(false));
    events := events + [Launch(false)];
    Launches(first);
    ExecOn(w, events, AcceptCreate(first.intent, box));
    events := events + [AcceptCreate(first.intent, box)];
    Creates(first, box);
    ExecOn(w, events, CreateReply(false));
    events := events + [CreateReply(false)];
    Replies(first, box);
  }

  lemma Rests(o: Outside, task: Task)
    ensures Step(World(o, At(Probed, task)), ProbeReply(Starting, false)) == World(o, At(ProbePaused, task))
    ensures Step(World(o, At(ProbePaused, task)), PauseOver(false)) == World(o, At(Probed, task))
  {}

  lemma Arrives(first: Task, box: string, cwd: string, id: string)
    requires id != ""
    ensures Step(World(Sent(first, box, cwd), At(Posted(0), FirstTaskRuns.Submitted(first, box, cwd))), AcceptStart(0, id)) ==
            World(Accepted(first, box, cwd, Waits(box, cwd, id)), At(Posted(0), FirstTaskRuns.Submitted(first, box, cwd)))
  {
    assert [] + [Waits(box, cwd, id)] == [Waits(box, cwd, id)];
    assert map[0 := Submission(box, cwd)] - {0} == map[];
  }

  lemma Acknowledges(first: Task, box: string, cwd: string, id: string)
    ensures var task := Acknowledged(first, box, cwd, id);
            var o := Accepted(first, box, cwd, Waits(box, cwd, id));
            Step(World(o, At(Posted(0), FirstTaskRuns.Submitted(first, box, cwd))), SubmitReply(0, false)) ==
            World(o.(saved := Write(task)), At(Observed, task))
  {}

  lemma Observes(o: Outside, task: Task, c: Command)
    requires o.commands == [c] && task.sandboxId == Some(c.sandbox) && task.commandId == Some(c.id)
    ensures !Terminal(c.status) ==> Step(World(o, At(Observed, task)), StatusReply(0, false)) == World(o, At(ObservePaused, task))
    ensures Terminal(c.status) ==> Step(World(o, At(Observed, task)), StatusReply(0, false)) == World(o, At(Logged(c), task))
    ensures Step(World(o, At(ObservePaused, task)), PauseOver(false)) == World(o, At(Observed, task))
  {}

  lemma Progresses(o: Outside, driver: Driver, c: Command, stdout: string, stderr: string)
    requires o.commands == [c] && !Terminal(c.status)
    ensures Step(World(o, driver), Progress(0, Succeeded, Some(0), stdout, stderr)) ==
            World(o.(commands := [c.(status := Succeeded, exitCode := Some(0), stdout := stdout, stderr := stderr)]), driver)
  {}

  lemma Finishes(o: Outside, task: Task, c: Command)
    requires o.commands == [c] && task.sandboxId == Some(c.sandbox) && task.commandId == Some(c.id)
    requires c.status == Succeeded && c.exitCode == Some(0)
    ensures var done := task.(output := Some(LogText(c.stdout, c.stderr)), complete := Some(true));
            Step(World(o, At(Logged(c), task)), LogsReply(0)) == World(o.(saved := Write(done)), Idle)
  {
    LogTextIsJoined(c);
  }

  /**
   From a fresh task to a complete record: the sandbox starts, becomes ready, the command is accepted,
   goes on for a while, and succeeds with any output.
   */
  lemma RunCompletes(first: Task, box: string, cwd: string, id: string, stdout: string, stderr: string) returns (events: seq<Event>)
    requires New(first) && Rooted(cwd) && box != "" && id != ""
    ensures Start(Fresh(first), first)
    ensures var last := Exec(Fresh(first), events);
            && last.driver == Idle
            && ReadFirstTask(last.out.saved) ==
               Some(Task(first.templateId, cwd, first.intent, Some(box), Some(true), Some(id),
                         Some(LogText(stdout, stderr)), Some(true)))
  {
    var w := Fresh(first);
    events := Provisions(first, box);
    var o, next := Provisioned(first, box).(saved := Write(first.(sandboxId := Some(box)))), first.(sandboxId := Some(box));
    ExecOn(w, events, ProbeReply(Starting, false));
    events := events + [ProbeReply(Starting, false)];
    Rests(o, next);
    ExecOn(w, events, PauseOver(false));
    events := events + [PauseOver(false)];
    ExecOn(w, events, ProbeReply(Ready(Some(cwd)), false));
    events := events + [ProbeReply(Ready(Some(cwd)), false)];
    Submits(first, box, cwd);
    events := SubmittedCompletes(first, box, cwd, id, stdout, stderr, events);
    ReadOfWrite(Acknowledged(first, box, cwd, id).(output := Some(LogText(stdout, stderr)), complete := Some(true)));
  }

  lemma SubmittedCompletes(first: Task, box: string, cwd: string, id: string, stdout: string, stderr: string, before: seq<Event>)
    returns (events: seq<Event>)
    requires id != "" && Exec(Fresh(first), before) == World(Sent(first, box, cwd), At(Posted(0), FirstTaskRuns.Submitted(first, box, cwd)))
    ensures var done := Acknowledged(first, box, cwd, id).(output := Some(LogText(stdout, stderr)), complete := Some(true));
            var last := Exec(Fresh(first), events);
            last.driver == Idle && last.out.saved == Write(done)
  {
    var w, task, c := Fresh(first), Acknowledged(first, box, cwd, id), Waits(box, cwd, id);
    var o := Accepted(first, box, cwd, c).(saved := Write(task));
    var done := c.(status := Succeeded, exitCode := Some(0), stdout := stdout, stderr := stderr);
    var o' := o.(commands := [done]);
    events := before;
    ExecOn(w, events, AcceptStart(0, id));
    events := events + [AcceptStart(0, id)];
    Arrives(first, box, cwd, id);
    ExecOn(w, events, SubmitReply(0, false));
    events := events + [SubmitReply(0, false)];
    Acknowledges(first, box, cwd, id);
    ExecOn(w, events, StatusReply(0, false));
    events := events + [StatusReply(0, false)];
    Observes(o, task, c);
    ExecOn(w, events, Progress(0, Succeeded, Some(0), stdout, stderr));
    events := events + [Progress(0, Succeeded, Some(0), stdout, stderr)];
    Progresses(o, At(ObservePaused, task), c, stdout, stderr);
    ExecOn(w, events, PauseOver(false));
    events := events + [PauseOver(false)];
    Observes(o', task, done);
    ExecOn(w, events, StatusReply(0, false));
    events := events + [StatusReply(0, false)];
    ExecOn(w, events, LogsReply(0));
    events := events + [LogsReply(0)];
    Finishes(o', task, done);
  }
}
