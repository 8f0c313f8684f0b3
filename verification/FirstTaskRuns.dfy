/** A run in which the recovery branch takes somebody else's command for the task's own. */
module FirstTaskRuns {
  import opened Wrappers
  import opened FirstTaskRecord
  import opened FirstTaskMachine
  import opened FirstTaskSafety

  function Fresh(first: Task): World {
    World(Outside(map[], [], [], {}, map[], 0, Write(first)), Idle)
  }

  /** The same command, typed by hand into the same sandbox and directory. */
  function Lookalike(box: string, cwd: string, id: string): Command {
    Command(box, id, FIRST_COMMAND, cwd, None, Waiting, None, "", "")
  }

  lemma ExecOn(w: World, events: seq<Event>, e: Event)
    ensures Exec(w, events + [e]) == Step(Exec(w, events), e)
  {
    assert (events + [e])[..|events|] == events;
  }

  // The world and the record from step to step.

  function Submitted(first: Task, box: string, cwd: string): Task {
    first.(sandboxId := Some(box), cwd := cwd, submitted := Some(true))
  }

  function Provisioned(first: Task, box: string): Outside {
    Outside(map[first.intent := box], [box], [], {first.intent}, map[], 0, Write(first))
  }

  function Sent(first: Task, box: string, cwd: string): Outside {
    Provisioned(first, box).(starts := map[0 := Submission(box, cwd)], posts := 1, saved := Write(Submitted(first, box, cwd)))
  }

  lemma Launches(first: Task)
    requires Rooted(first.cwd) && first == NewTask(first.templateId, first.cwd, first.intent)
    ensures Step(Fresh(first), Launch(false)) == World(Fresh(first).out.(creates := {first.intent}), At(Created, first))
  {
    ReadOfWrite(first);
  }

  lemma Creates(first: Task, box: string)
    requires box != "" && first == NewTask(first.templateId, first.cwd, first.intent)
    ensures Step(World(Fresh(first).out.(creates := {first.intent}), At(Created, first)), AcceptCreate(first.intent, box)) ==
            World(Provisioned(first, box), At(Created, first))
  {}

  lemma Replies(first: Task, box: string)
    requires box != "" && first == NewTask(first.templateId, first.cwd, first.intent)
    ensures var next := first.(sandboxId := Some(box));
            Step(World(Provisioned(first, box), At(Created, first)), CreateReply(false)) ==
            World(Provisioned(first, box).(saved := Write(next)), At(Probed, next))
  {}

  lemma Submits(first: Task, box: string, cwd: string)
    requires Rooted(cwd)
    ensures var next := first.(sandboxId := Some(box));
            Step(World(Provisioned(first, box).(saved := Write(next)), At(Probed, next)), ProbeReply(Ready(Some(cwd)), false)) ==
            World(Sent(first, box, cwd), At(Posted(0), Submitted(first, box, cwd)))
  {}

  lemma LaunchesAgain(first: Task, box: string, cwd: string, o: Outside)
    requires box != "" && Rooted(cwd) && o.saved == Write(Submitted(first, box, cwd))
    requires first == NewTask(first.templateId, first.cwd, first.intent)
    ensures Step(World(o, Idle), Launch(false)) == World(o, At(Listed, Submitted(first, box, cwd)))
  {
    ReadOfWrite(Submitted(first, box, cwd));
  }

  lemma Attaches(first: Task, box: string, cwd: string, c: Command, o: Outside)
    requires Rooted(cwd) && o.commands == [c] && c == Lookalike(box, cwd, c.id)
    ensures var task := Submitted(first, box, cwd);
            && Matches(o.commands, box, cwd) == [c]
            && Step(World(o, At(Listed, task)), ListReply(false)).out.saved == Write(task.(commandId := Some(c.id)))
  {
    assert o.commands[..0] == [];
    assert Matches(o.commands, box, cwd) == [] + [c];
  }

  /**
   The tab dies with its submission on the way, the lookalike is started, and the next run attaches to
   that, although the task's own submission has not arrived.
   */
  lemma LookalikeIsTaken(first: Task, box: string, cwd: string, id: string) returns (events: seq<Event>)
    requires Rooted(first.cwd) && Rooted(cwd) && box != "" && id != ""
    requires first == NewTask(first.templateId, first.cwd, first.intent)
    ensures Start(Fresh(first), first)
    ensures var last := Exec(Fresh(first), events);
            && last.driver.At? && last.driver.await == Listed
            && Matches(last.out.commands, box, cwd) == [Lookalike(box, cwd, id)] && !Arrived(last.out)
            && Step(last, ListReply(false)).out.saved == Write(Submitted(first, box, cwd).(commandId := Some(id)))
  {
    var w, c := Fresh(first), Lookalike(box, cwd, id);
    events := [];
    ExecOn(w, events, Launch(false));
    events := events + [Launch(false)];
    Launches(first);
    ExecOn(w, events, AcceptCreate(first.intent, box));
    events := events + [AcceptCreate(first.intent, box)];
    Creates(first, box);
    ExecOn(w, events, CreateReply(false));
    events := events + [CreateReply(false)];
    Replies(first, box);
    ExecOn(w, events, ProbeReply(Ready(Some(cwd)), false));
    events := events + [ProbeReply(Ready(Some(cwd)), false)];
    Submits(first, box, cwd);
    ExecOn(w, events, Crash);
    events := events + [Crash];
    ExecOn(w, events, Foreign(c));
    events := events + [Foreign(c)];
    var o := Sent(first, box, cwd).(commands := [c]);
    assert Exec(w, events) == World(o, Idle) by { assert [] + [c] == [c]; }
    ExecOn(w, events, Launch(false));
    events := events + [Launch(false)];
    LaunchesAgain(first, box, cwd, o);
    Attaches(first, box, cwd, c, o);
  }
}
