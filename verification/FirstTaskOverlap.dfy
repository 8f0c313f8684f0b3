/**
 Runs of the onboarding task that overlap in one tab (apps/web/src/first-sandbox.ts, lines 45 to 102).
 createSandbox, commands and startCommand take no signal: a run that is left at one of them, when its
 panel is unmounted (apps/web/src/components/first-sandbox-task.tsx, line 42), goes on when the reply
 comes, saves what it has got, and only then notices that it has been aborted. By then another run may
 have been started from the record.
 */
module FirstTaskOverlap {
  import opened Wrappers
  import opened FirstTaskRecord
  import Machine = FirstTaskMachine
  import Runs = FirstTaskRuns

  /** A run that has been left, and what it still waits for. */
  datatype Left = Left(await: Machine.Await, task: Task)

  datatype State = State(world: Machine.World, left: seq<Left>)

  datatype Event =
    | Now(e: Machine.Event)                 // a step of the present run or of the world
    | Leave                                 // the panel is unmounted
    | Late(i: nat, e: Machine.Event)        // the reply to a run that has been left

  predicate WithoutSignal(await: Machine.Await) {
    await.Created? || await.Listed? || await.Posted?
  }

  /** The run that has been left resumes, and is aborted. */
  predicate Resumes(s: State, i: nat, e: Machine.Event) {
    && i < |s.left| && WithoutSignal(s.left[i].await)
    && Machine.Answers(s.world.out, s.left[i].await, s.left[i].task, e) && e.aborted
  }

  function Step(s: State, event: Event): State {
    match event
    case Now(e) => s.(world := Machine.Step(s.world, e))
    case Leave =>
      (match s.world.driver
       case Idle => s
       case At(await, task) =>
         State(Machine.World(s.world.out, Machine.Idle), s.left + if WithoutSignal(await) then [Left(await, task)] else []))
    case Late(i, e) =>
      if !Resumes(s, i, e) then s
      else
        var out := Machine.Resume(s.world.out, s.left[i].await, s.left[i].task, e).out;
        State(s.world.(out := out), s.left[..i] + s.left[i + 1..])
  }

  function Run(s: State, events: seq<Event>): State {
    if events == [] then s else Step(Run(s, events[..|events| - 1]), events[|events| - 1])
  }

  /** One submission at most, and the record says so: marked exactly when it has been sent. */
  ghost predicate MarkIsTrue(s: State) {
    var o := s.world.out;
    && o.posts <= 1 && ReadFirstTask(o.saved).Some?
    && (o.posts == 1 <==> Set(ReadFirstTask(o.saved).value.submitted))
  }

  /** The reply to a create request whose run began before the submission that is on record. */
  ghost predicate LosesMark(s: State, event: Event) {
    && event.Late? && Resumes(s, event.i, event.e) && s.left[event.i].await.Created?
    && ReadFirstTask(s.world.out.saved).Some? && Set(ReadFirstTask(s.world.out.saved).value.submitted)
  }

  // The invariant.

  /** A task in memory or on record. */
  ghost predicate TaskSound(task: Task, submitted: bool) {
    Rooted(task.cwd) && (Set(task.submitted) <==> submitted) && (submitted ==> Given(task.sandboxId))
  }

  /** Before the submission a run waits at these awaits, after it at the others. */
  predicate Unsubmitted(await: Machine.Await) {
    await.Created? || await.Probed? || await.ProbePaused?
  }

  ghost predicate RunSound(await: Machine.Await, task: Task) {
    && TaskSound(task, !Unsubmitted(await))
    && (await.Probed? || await.ProbePaused? ==> Given(task.sandboxId))
  }

  ghost predicate ServiceSound(o: Machine.Outside) {
    && (forall key | key in o.byKey :: o.byKey[key] != "")
    && forall i | 0 <= i < |o.commands| :: o.commands[i].id != ""
  }

  ghost predicate DriverSound(w: Machine.World) {
    w.driver.At? ==> RunSound(w.driver.await, w.driver.task) && (w.out.posts == 1 <==> !Unsubmitted(w.driver.await))
  }

  ghost predicate RecordSound(o: Machine.Outside) {
    && o.posts <= 1 && ReadFirstTask(o.saved).Some?
    && TaskSound(ReadFirstTask(o.saved).value, o.posts == 1)
  }

  ghost predicate LeftSound(left: seq<Left>, posts: nat) {
    forall i | 0 <= i < |left| ::
      && WithoutSignal(left[i].await) && RunSound(left[i].await, left[i].task)
      && (!left[i].await.Created? ==> posts > 0)
  }

  ghost predicate WorldSound(w: Machine.World) {
    RecordSound(w.out) && ServiceSound(w.out) && DriverSound(w)
  }

  ghost predicate Inv(s: State) {
    WorldSound(s.world) && LeftSound(s.left, s.world.out.posts)
  }

  lemma SavedSound(o: Machine.Outside, task: Task)
    requires ServiceSound(o) && o.posts <= 1 && TaskSound(task, o.posts == 1)
    ensures RecordSound(Machine.Save(o, task)) && ServiceSound(Machine.Save(o, task))
  {
    ReadOfWrite(task);
  }

  lemma ElsewhereSound(w: Machine.World, e: Machine.Event)
    requires WorldSound(w) && !Machine.FromTab(e)
    ensures WorldSound(Machine.Step(w, e))
  {}

  lemma BeginSound(o: Machine.Outside, aborted: bool)
    requires RecordSound(o) && ServiceSound(o)
    ensures WorldSound(Machine.Begin(o, ReadFirstTask(o.saved).value, aborted))
  {}

  lemma CreatedSound(o: Machine.Outside, task: Task, e: Machine.Event)
    requires RecordSound(o) && ServiceSound(o) && RunSound(Machine.Created, task) && o.posts == 0
    requires Machine.Answers(o, Machine.Created, task, e)
    ensures WorldSound(Machine.Resume(o, Machine.Created, task, e))
  {
    SavedSound(o, task.(sandboxId := Some(o.byKey[task.intent])));
  }

  lemma AcknowledgeSound(o: Machine.Outside, task: Task, id: string, aborted: bool)
    requires RecordSound(o) && ServiceSound(o) && TaskSound(task, true) && o.posts == 1
    ensures WorldSound(Machine.Acknowledge(o, task, id, aborted))
  {
    SavedSound(o, task.(commandId := Some(id)));
  }

  lemma SubmitSound(o: Machine.Outside, task: Task, workdir: Option<string>, aborted: bool)
    requires RecordSound(o) && ServiceSound(o) && RunSound(Machine.Probed, task) && o.posts == 0
    ensures WorldSound(Machine.Submit(o, task, workdir, aborted))
  {
    if workdir.Some? && Rooted(workdir.value) {
      var moved := task.(cwd := workdir.value);
      ReadOfWrite(moved);
      ReadOfWrite(moved.(submitted := Some(true)));
    }
  }

  lemma FinishSound(o: Machine.Outside, task: Task, seen: Machine.Command, logs: Machine.Command)
    requires RecordSound(o) && ServiceSound(o) && TaskSound(task, true) && o.posts == 1
    ensures WorldSound(Machine.Finish(o, task, seen, logs))
  {
    var output := task.(output := Some(Machine.JoinLogs(logs)));
    SavedSound(o, output);
    SavedSound(o, output.(complete := Some(true)));
  }

  lemma ResumeSound(w: Machine.World, e: Machine.Event)
    requires WorldSound(w) && w.driver.At? && Machine.Answers(w.out, w.driver.await, w.driver.task, e)
    ensures WorldSound(Machine.Resume(w.out, w.driver.await, w.driver.task, e))
  {
    var o, task := w.out, w.driver.task;
    match w.driver.await {
      case Created => CreatedSound(o, task, e);
      case Listed =>
        var found := Machine.Matches(o.commands, task.sandboxId.value, task.cwd);
        if |found| == 1 { AcknowledgeSound(o, task, found[0].id, e.aborted); }
      case Probed => if e.readiness.Ready? { SubmitSound(o, task, e.readiness.workdir, e.aborted); }
      case Posted(_) => AcknowledgeSound(o, task, o.commands[e.index].id, e.aborted);
      case Logged(seen) => FinishSound(o, task, seen, o.commands[e.index]);
      case _ =>
    }
  }

  lemma NowSound(w: Machine.World, e: Machine.Event)
    requires WorldSound(w)
    ensures WorldSound(Machine.Step(w, e))
  {
    if !Machine.FromTab(e) {
      ElsewhereSound(w, e);
    } else if w.driver.Idle? {
      if e.Launch? { BeginSound(w.out, e.aborted); }
    } else if !e.Crash? && Machine.Answers(w.out, w.driver.await, w.driver.task, e) {
      ResumeSound(w, e);
    }
  }

  /** A late reply that saves a submitted task, or comes before the submission, does no harm. */
  lemma LateSound(s: State, i: nat, e: Machine.Event)
    requires Inv(s) && Resumes(s, i, e) && !LosesMark(s, Late(i, e))
    ensures Inv(Step(s, Late(i, e)))
  {
    var o, run := s.world.out, s.left[i];
    LateRecordSound(o, run, e);
    var out := Machine.Resume(o, run.await, run.task, e).out;
    assert out.posts == o.posts;
    assert WorldSound(s.world.(out := out));
  }

  lemma LateRecordSound(o: Machine.Outside, run: Left, e: Machine.Event)
    requires RecordSound(o) && ServiceSound(o) && WithoutSignal(run.await) && RunSound(run.await, run.task)
    requires Machine.Answers(o, run.await, run.task, e) && e.aborted
    requires run.await.Created? <==> o.posts == 0
    ensures var out := Machine.Resume(o, run.await, run.task, e).out;
            RecordSound(out) && ServiceSound(out) && out.posts == o.posts
  {
    match run.await {
      case Created => CreatedSound(o, run.task, e);
      case Listed =>
        var found := Machine.Matches(o.commands, run.task.sandboxId.value, run.task.cwd);
        if |found| == 1 { AcknowledgeSound(o, run.task, found[0].id, true); }
      case Posted(_) => AcknowledgeSound(o, run.task, o.commands[e.index].id, true);
    }
  }

  lemma PostsGrow(w: Machine.World, e: Machine.Event)
    ensures Machine.Step(w, e).out.posts >= w.out.posts
  {}

  lemma StepSound(s: State, event: Event)
    requires Inv(s) && !LosesMark(s, event)
    ensures Inv(Step(s, event))
  {
    match event {
      case Now(e) =>
        NowSound(s.world, e);
        PostsGrow(s.world, e);
      case Leave =>
      case Late(i, e) => if Resumes(s, i, e) { LateSound(s, i, e); }
    }
  }

  lemma InvTells(s: State)
    requires Inv(s)
    ensures MarkIsTrue(s)
  {}

  /** Such a reply saves the task as it was before the submission. */
  lemma MarkIsLost(s: State, event: Event)
    requires Inv(s) && LosesMark(s, event)
    ensures !MarkIsTrue(Step(s, event))
  {
    var o, run := s.world.out, s.left[event.i];
    var next := run.task.(sandboxId := Some(o.byKey[run.task.intent]));
    ReadOfWrite(next);
    assert Machine.Resume(o, run.await, run.task, event.e).out == Machine.Save(o, next);
  }

  // Runs.

  ghost predicate TrueAlong(s: State, events: seq<Event>) {
    MarkIsTrue(Run(s, events)) && (events != [] ==> TrueAlong(s, events[..|events| - 1]))
  }

  ghost predicate SomeLost(s: State, events: seq<Event>) {
    events != [] &&
    var less := events[..|events| - 1];
    LosesMark(Run(s, less), events[|events| - 1]) || SomeLost(s, less)
  }

  lemma {:induction false} SoundUnlessLost(s: State, events: seq<Event>)
    requires Inv(s)
    ensures TrueAlong(s, events) <==> !SomeLost(s, events)
    ensures !SomeLost(s, events) ==> Inv(Run(s, events))
    decreases |events|
  {
    if events == [] {
      InvTells(s);
    } else {
      var less, e := events[..|events| - 1], events[|events| - 1];
      SoundUnlessLost(s, less);
      if !SomeLost(s, less) {
        if LosesMark(Run(s, less), e) {
          MarkIsLost(Run(s, less), e);
        } else {
          StepSound(Run(s, less), e);
          InvTells(Step(Run(s, less), e));
        }
      }
    }
  }

  function Begun(w: Machine.World): State {
    State(w, [])
  }

  /**
   However runs overlap, at most one command is submitted and the record says at every point whether it
   has been, exactly when no reply to a create request comes to a run that was left before the submission
   on record.
   */
  lemma OverlapIsSafeExactly(w: Machine.World, first: Task, events: seq<Event>)
    requires Machine.Start(w, first)
    ensures TrueAlong(Begun(w), events) <==> !SomeLost(Begun(w), events)
  {
    ReadOfWrite(first);
    SoundUnlessLost(Begun(w), events);
  }

  // The run that submits twice.

  lemma RunOn(s: State, events: seq<Event>, e: Event)
    ensures Run(s, events + [e]) == Step(Run(s, events), e)
  {
    assert (events + [e])[..|events|] == events;
  }

  lemma LaunchesAfterLeaving(first: Task)
    requires Rooted(first.cwd) && first == Machine.NewTask(first.templateId, first.cwd, first.intent)
    ensures var o := Runs.Fresh(first).out.(creates := {first.intent});
            Machine.Step(Machine.World(o, Machine.Idle), Machine.Launch(false)) == Machine.World(o, Machine.At(Machine.Created, first))
  {
    ReadOfWrite(first);
  }

  /** The late reply saves the sandbox over the mark. */
  lemma SavesLate(first: Task, box: string, cwd: string)
    requires Rooted(cwd) && box != "" && first == Machine.NewTask(first.templateId, first.cwd, first.intent)
    ensures var s := State(Machine.World(Runs.Sent(first, box, cwd), Machine.Idle), [Left(Machine.Created, first)]);
            Step(s, Late(0, Machine.CreateReply(true))) ==
            Begun(Machine.World(Runs.Sent(first, box, cwd).(saved := Write(first.(sandboxId := Some(box)))), Machine.Idle))
  {
    var s := State(Machine.World(Runs.Sent(first, box, cwd), Machine.Idle), [Left(Machine.Created, first)]);
    assert s.left[..0] + s.left[1..] == [];
  }

  lemma SubmitsAgain(first: Task, box: string, cwd: string)
    requires Rooted(first.cwd) && Rooted(cwd) && box != ""
    requires first == Machine.NewTask(first.templateId, first.cwd, first.intent)
    ensures var next := first.(sandboxId := Some(box));
            var w := Machine.World(Runs.Sent(first, box, cwd).(saved := Write(next)), Machine.Idle);
            var probing := Machine.Step(w, Machine.Launch(false));
            Machine.Step(probing, Machine.ProbeReply(Machine.Ready(Some(cwd)), false)).out.posts == 2
  {
    ReadOfWrite(first.(sandboxId := Some(box)));
  }

  /**
   A run is left while its create request is out, the next one creates the same sandbox and submits, and
   then the first reply comes: the run after that submits again.
   */
  lemma SubmitsTwice(first: Task, box: string, cwd: string) returns (events: seq<Event>)
    requires Rooted(first.cwd) && Rooted(cwd) && box != ""
    requires first == Machine.NewTask(first.templateId, first.cwd, first.intent)
    ensures Machine.Start(Runs.Fresh(first), first)
    ensures Run(Begun(Runs.Fresh(first)), events).world.out.posts == 2
  {
    var s := Begun(Runs.Fresh(first));
    events := [];
    RunOn(s, events, Now(Machine.Launch(false)));
    events := events + [Now(Machine.Launch(false))];
    Runs.Launches(first);
    RunOn(s, events, Leave);
    events := events + [Leave];
    var left := [Left(Machine.Created, first)];
    assert [] + left == left;
    RunOn(s, events, Now(Machine.Launch(false)));
    events := events + [Now(Machine.Launch(false))];
    LaunchesAfterLeaving(first);
    RunOn(s, events, Now(Machine.AcceptCreate(first.intent, box)));
    events := events + [Now(Machine.AcceptCreate(first.intent, box))];
    Runs.Creates(first, box);
    RunOn(s, events, Now(Machine.CreateReply(false)));
    events := events + [Now(Machine.CreateReply(false))];
    Runs.Replies(first, box);
    RunOn(s, events, Now(Machine.ProbeReply(Machine.Ready(Some(cwd)), false)));
    events := events + [Now(Machine.ProbeReply(Machine.Ready(Some(cwd)), false))];
    Runs.Submits(first, box, cwd);
    RunOn(s, events, Now(Machine.Crash));
    events := events + [Now(Machine.Crash)];
    assert Run(s, events) == State(Machine.World(Runs.Sent(first, box, cwd), Machine.Idle), left);
    RunOn(s, events, Late(0, Machine.CreateReply(true)));
    events := events + [Late(0, Machine.CreateReply(true))];
    SavesLate(first, box, cwd);
    RunOn(s, events, Now(Machine.Launch(false)));
    events := events + [Now(Machine.Launch(false))];
    RunOn(s, events, Now(Machine.ProbeReply(Machine.Ready(Some(cwd)), false)));
    events := events + [Now(Machine.ProbeReply(Machine.Ready(Some(cwd)), false))];
    SubmitsAgain(first, box, cwd);
  }
}
