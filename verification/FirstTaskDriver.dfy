/**
 runFirstTask as the program it is (apps/web/src/first-sandbox.ts, lines 45 to 102), run against a
 world that answers, stays silent or changes while the tab waits. What the program does to that
 world is what the state machine does, so FirstTaskSafety speaks of the program.
 */
module FirstTaskDriver {
  import opened Wrappers
  import opened FirstTaskRecord
  import opened FirstTaskMachine
  import opened FirstTaskSafety

  /** How a run ends: with the task, at an await that never resumes, or with what it throws. */
  datatype Outcome = Completed(task: Task) | Cut | Aborted | Threw(why: Why)

  /** A run that goes on, perhaps only up to the next look at the signal, or is over. */
  datatype Progress = Under(task: Task, stop: bool) | Over(outcome: Outcome)

  class Tab {
    var out: Outside              // service, requests in flight, session storage
    var script: seq<Event>        // what is still going to happen
    ghost const origin: World
    ghost const future: seq<Event>
    ghost var trace: seq<Event>   // what has happened
    ghost var world: World        // where the machine stands after trace

    ghost predicate Valid()
      reads this
    {
      world == Exec(origin, trace) && trace + script == future
    }

    /** The machine is at this await of this task. */
    ghost predicate Awaiting(await: Await, task: Task)
      reads this
    {
      Valid() && world == World(out, At(await, task))
    }

    /** The run is over, or nothing more will ever happen to it. */
    ghost predicate Stopped()
      reads this
    {
      Valid() && world.out == out && (world.driver.Idle? || script == [])
    }

    constructor (o: Outside, events: seq<Event>)
      ensures Stopped() && out == o && script == future == events && origin == World(o, Idle)
    {
      out, script := o, events;
      origin, future := World(o, Idle), events;
      trace, world := [], World(o, Idle);
    }

    /** What the last event was, and where it found the machine. */
    ghost predicate LastWas(before: World, e: Event)
      reads this
    {
      trace != [] && trace[|trace| - 1] == e && Exec(origin, trace[..|trace| - 1]) == before
    }

    /** The outcome of a run is what the last event made of it. */
    ghost predicate EndedBy(outcome: Outcome)
      reads this
    {
      match outcome
      case Completed(task) => ReadFirstTask(out.saved) == Some(task) && Set(task.complete)
      case Cut => (script == [] && world.driver.At?) || (trace != [] && trace[|trace| - 1].Crash?)
      case Aborted => trace != [] && Aborts(trace[|trace| - 1])
      case Threw(why) => HasThrown(why)
    }

    ghost predicate HasThrown(why: Why)
      reads this
    {
      exists w, e ::
        LastWas(w, e) && w.driver.At? && Answers(w.out, w.driver.await, w.driver.task, e)
        && Throws(w.out, w.driver.await, w.driver.task, e) == Some(why)
    }

    /** The next thing happens; the machine takes it in, the program has not looked at it yet. */
    method Next() returns (e: Event)
      requires Valid() && script != []
      modifies `script, `trace, `world
      ensures Valid() && e == old(script)[0] && world == Step(old(world), e) && script == old(script)[1..]
      ensures LastWas(old(world), e)
    {
      e := script[0];
      script, trace, world := script[1..], trace + [e], Step(world, e);
      assert trace[..|trace| - 1] == old(trace);
      assert trace + script == old(trace + script);
    }

    /** Waits until the await resumes; None means that it never does. */
    method Wait(await: Await, task: Task) returns (reply: Option<Event>)
      requires Awaiting(await, task)
      modifies this
      ensures reply.None? ==> Stopped() && |script| <= |old(script)| && EndedBy(Cut)
      ensures reply.Some? ==>
                && Valid() && |script| < |old(script)|
                && Answers(out, await, task, reply.value)
                && world == Resume(out, await, task, reply.value)
                && LastWas(World(out, At(await, task)), reply.value)
    {
      while script != []
        invariant Awaiting(await, task) && |script| <= |old(script)|
        decreases |script|
      {
        var e := Next();
        if !FromTab(e) {
          out := Elsewhere(out, e);
        } else if e.Crash? {
          return None;
        } else if Answers(out, await, task, e) {
          return Some(e);
        }
      }
      return None;
    }

    method Save(task: Task)
      modifies `out
      ensures out == FirstTaskMachine.Save(old(out), task)
    {
      out := out.(saved := Write(task));
    }

    /** Lines 55 to 68: the sandbox, then the recovery of an unacknowledged submission. */
    method Prepare(initial: Task) returns (run: Progress)
      requires Valid() && world == Begin(out, initial, false) && Rooted(initial.cwd) && !Set(initial.complete)
      modifies this
      ensures |script| <= |old(script)|
      ensures run.Over? ==> Stopped() && !run.outcome.Completed? && EndedBy(run.outcome)
      ensures run.Under? ==>
                && Valid() && Rooted(run.task.cwd) && (run.stop ==> EndedBy(Aborted))
                && world == (if Set(run.task.submitted) then Observe(out, run.task, run.stop)
                             else World(out, if run.stop then Idle else At(Probed, run.task)))
    {
      var task, stop := initial, false;
      if !Given(task.sandboxId) {
        out := out.(creates := out.creates + {task.intent});
        var created := Wait(Created, task);
        if created.None? { return Over(Cut); }
        stop := created.value.aborted;
        task := task.(sandboxId := Some(out.byKey[task.intent]));
        Save(task);
      }
      if Set(task.submitted) && !Given(task.commandId) {
        if stop { return Over(Aborted); }
        var listed := Wait(Listed, task);
        if listed.None? { return Over(Cut); }
        var matches := Matches(out.commands, task.sandboxId.value, task.cwd);
        if |matches| != 1 { return Over(Threw(Unconfirmed)); }
        stop := listed.value.aborted;
        task := task.(commandId := Some(matches[0].id));
        Save(task);
      }
      return Under(task, stop);
    }

    /** Lines 70 to 86: readiness, the durable mark, and the one submission. */
    method SubmitOnce(before: Task, aborted: bool) returns (run: Progress)
      requires Valid() && world == World(out, if aborted then Idle else At(Probed, before)) && (aborted ==> EndedBy(Aborted))
      modifies this
      ensures |script| <= |old(script)|
      ensures run.Over? ==> Stopped() && !run.outcome.Completed? && EndedBy(run.outcome)
      ensures run.Under? ==>
                && Valid() && Rooted(run.task.cwd) && (run.stop ==> EndedBy(Aborted))
                && world == Observe(out, run.task, run.stop)
    {
      var ready := AwaitReadiness(before, aborted);
      if ready.Over? { return ready; }
      run := Post(before, ready.task, ready.stop);
    }

    /** Lines 75 to 86: the directory, the mark, and the request. */
    method Post(before: Task, ready: Task, stop: bool) returns (run: Progress)
      requires Valid() && Rooted(ready.cwd) && ready == before.(cwd := ready.cwd) && (stop ==> EndedBy(Aborted))
      requires world == Submit(out, before, Some(ready.cwd), stop)
      modifies this
      ensures |script| <= |old(script)|
      ensures run.Over? ==> Stopped() && !run.outcome.Completed? && EndedBy(run.outcome)
      ensures run.Under? ==>
                && Valid() && Rooted(run.task.cwd) && (run.stop ==> EndedBy(Aborted))
                && world == Observe(out, run.task, run.stop)
    {
      Save(ready);
      if stop { return Over(Aborted); }
      var task := ready.(submitted := Some(true));
      Save(task);
      var ticket := out.posts;
      out := out.(
        posts := ticket + 1,
        starts := out.starts[ticket := Submission(if task.sandboxId.Some? then task.sandboxId.value else "", task.cwd)]);
      var started := Wait(Posted(ticket), task);
      if started.None? { return Over(Cut); }
      task := task.(commandId := Some(out.commands[started.value.index].id));
      Save(task);
      return Under(task, started.value.aborted);
    }

    /** The loop that waits for readiness, up to its break. */
    method AwaitReadiness(before: Task, aborted: bool) returns (run: Progress)
      requires Valid() && world == World(out, if aborted then Idle else At(Probed, before)) && (aborted ==> EndedBy(Aborted))
      modifies this
      ensures |script| <= |old(script)|
      ensures run.Over? ==> Stopped() && !run.outcome.Completed? && EndedBy(run.outcome)
      ensures run.Under? ==>
                && Valid() && Rooted(run.task.cwd) && (run.stop ==> EndedBy(Aborted))
                && run.task == before.(cwd := run.task.cwd)
                && world == Submit(out, before, Some(run.task.cwd), run.stop)
    {
      var stop := aborted;
      while true
        invariant Valid() && world == World(out, if stop then Idle else At(Probed, before))
        invariant |script| <= |old(script)| && (stop ==> EndedBy(Aborted))
        decreases |script|
      {
        if stop { return Over(Aborted); }
        var probed := Wait(Probed, before);
        if probed.None? { return Over(Cut); }
        match probed.value.readiness {
          case Ready(workdir) =>
            if !(workdir.Some? && Rooted(workdir.value)) { return Over(Threw(NoDirectory)); }
            return Under(before.(cwd := workdir.value), probed.value.aborted);
          case NotRunning => return Over(Threw(NotRunningAnyMore));
          case Unsupported => return Over(Threw(NoReadiness));
          case Starting =>
        }
        var rested := Wait(ProbePaused, before);
        if rested.None? { return Over(Cut); }
        stop := rested.value.aborted;
      }
    }

    /** Lines 88 to 101: observation to the end. */
    method ObserveToEnd(before: Task, aborted: bool) returns (outcome: Outcome)
      requires Valid() && world == Observe(out, before, aborted) && Rooted(before.cwd) && (aborted ==> EndedBy(Aborted))
      modifies this
      ensures Stopped() && |script| <= |old(script)| && EndedBy(outcome)
    {
      var stop := aborted;
      while true
        invariant Valid() && world == Observe(out, before, stop)
        invariant |script| <= |old(script)| && (stop ==> EndedBy(Aborted))
        decreases |script|
      {
        if stop { return Aborted; }
        var observed := Wait(Observed, before);
        if observed.None? { return Cut; }
        var command := out.commands[observed.value.index];
        if Terminal(command.status) {
          outcome := Finish(before, command);
          return;
        }
        var rested := Wait(ObservePaused, before);
        if rested.None? { return Cut; }
        stop := rested.value.aborted;
      }
    }

    /** Lines 91 to 98: the logs of the command as it was seen, and the end. */
    method Finish(before: Task, seen: Command) returns (outcome: Outcome)
      requires Awaiting(Logged(seen), before) && Rooted(before.cwd)
      modifies this
      ensures Stopped() && |script| <= |old(script)| && EndedBy(outcome)
      ensures outcome == Cut || outcome == Threw(NotSucceeded)
              || (outcome.Completed? && seen.status == Succeeded && seen.exitCode == Some(0))
    {
      var logged := Wait(Logged(seen), before);
      if logged.None? { return Cut; }
      var task := before.(output := Some(JoinLogs(out.commands[logged.value.index])));
      Save(task);
      if seen.status != Succeeded || seen.exitCode != Some(0) { return Threw(NotSucceeded); }
      task := task.(complete := Some(true));
      Save(task);
      ReadOfWrite(task);
      return Completed(task);
    }

    /**
     The run is completed and the record says so, or a reason is given: it was cut off at an await, the
     signal was aborted, or the last answer was one that makes the program throw.
     */
    method RunFirstTask(initial: Task, aborted: bool) returns (outcome: Outcome)
      requires Valid() && ReadFirstTask(out.saved) == Some(initial) && world == Begin(out, initial, aborted)
      requires aborted ==> EndedBy(Aborted)
      modifies this
      ensures Stopped() && |script| <= |old(script)| && EndedBy(outcome)
    {
      if aborted { return Aborted; }
      if Set(initial.complete) { return Completed(initial); }
      var run := Prepare(initial);
      if run.Under? && !Set(run.task.submitted) {
        run := SubmitOnce(run.task, run.stop);
      }
      if run.Over? { return run.outcome; }
      outcome := ObserveToEnd(run.task, run.stop);
    }

    /** Visit after visit: each launch reads the record again and runs the task. */
    method RunAll()
      requires Stopped()
      modifies this
      ensures world == Exec(origin, future) && out == world.out
    {
      while script != []
        invariant Stopped()
        decreases |script|
      {
        var e := Next();
        if !FromTab(e) {
          out := Elsewhere(out, e);
        } else if e.Launch? {
          var record := ReadFirstTask(out.saved);
          if record.Some? {
            var _ := RunFirstTask(record.value, e.aborted);
          }
        }
      }
      assert trace == future;
    }
  }

  /** The safety results, for the program. */
  method EveryVisitIsSafe(first: Task, o: Outside, events: seq<Event>) returns (final: Outside)
    requires Start(World(o, Idle), first)
    ensures final == Exec(World(o, Idle), events).out
    ensures final.posts <= 1 && |final.provisioned| <= 1 && ReadFirstTask(final.saved).Some?
    ensures RecordIsTrue(final, ReadFirstTask(final.saved).value)
  {
    var tab := new Tab(o, events);
    tab.RunAll();
    EveryRunIsSafe(World(o, Idle), first, events);
    final := tab.out;
  }
}
