/**
 The pre-pull loop (apps/api/src/template-builder.ts, lines 380 to 463): one pod a node, one shared
 start time, and a cleanup on every way out. The cluster's answers and the time each call takes come
 from a script; a call past its end fails.
 */
module Prepull {
  import opened Wrappers
  import opened PodNames

  datatype Node = Node(name: Option<string>, unschedulable: bool, ready: Option<bool>)

  /** What runtimePullPreflightState makes of a pod's status. */
  datatype PullState = Pulling | Pulled(imageId: Option<string>) | PullFailed(reason: string)

  datatype Call = ListNodes | Delete(name: string) | Create(name: string) | Read(name: string) | Sleep

  /** The answer to a call: how long it took, and whether it failed. */
  datatype Answer = Answer(took: nat, failed: bool, nodes: seq<Node>, state: PullState)

  datatype Outcome =
    | Skipped(reason: string)
    | Done(podNames: seq<string>, imageIds: seq<Option<string>>)
    | NotDone(podNames: seq<string>, imageIds: seq<Option<string>>, reason: string)
    | Thrown(reason: string)

  function Prepullable(nodes: seq<Node>): seq<string> {
    if nodes == [] then []
    else
      var n := nodes[0];
      (if !n.unschedulable && (n.ready.None? || n.ready.value) && n.name.Some? && n.name.value != "" then [n.name.value] else [])
      + Prepullable(nodes[1..])
  }

  function Names(buildId: string, nodes: seq<string>, count: nat): seq<string>
    requires count <= |nodes|
  {
    seq(count, i requires 0 <= i < count => PrepullPodName(buildId, nodes[i], i))
  }

  /** Math.ceil(timeoutMs / 1000) */
  function Seconds(timeoutMs: nat): nat {
    (timeoutMs + 999) / 1000
  }

  /** The nodes a pre-pull works on: none when it is off or not wanted or cannot list them. */
  function ReadyNodes(wanted: bool, script: seq<Answer>): seq<string> {
    if wanted && script != [] && !script[0].failed then Prepullable(script[0].nodes) else []
  }

  ghost predicate Cleaned(log: seq<Call>) {
    forall i | 0 <= i < |log| && log[i].Create? :: exists j :: i < j < |log| && log[j] == Delete(log[i].name)
  }

  function Reads(log: seq<Call>): nat {
    if log == [] then 0 else Reads(log[..|log| - 1]) + if log[|log| - 1].Read? then 1 else 0
  }

  /** Every pod created so far is one of the named ones. */
  ghost predicate CreatedAmong(log: seq<Call>, names: seq<string>) {
    forall i | 0 <= i < |log| && log[i].Create? :: log[i].name in names
  }

  ghost predicate AllCreated(log: seq<Call>, names: seq<string>) {
    forall k | 0 <= k < |names| :: Create(names[k]) in log
  }

  lemma StillAmong(before: seq<Call>, after: seq<Call>, names: seq<string>)
    requires CreatedAmong(before, names) && before <= after && forall i | |before| <= i < |after| :: !after[i].Create?
    ensures CreatedAmong(after, names)
  {
    assert forall i | 0 <= i < |before| :: after[i] == before[i];
  }

  lemma OneMoreCreated(before: seq<Call>, after: seq<Call>, names: seq<string>, name: string)
    requires AllCreated(before, names) && before <= after && Create(name) in after
    ensures AllCreated(after, names + [name])
  {
    forall k | 0 <= k < |names| ensures Create(names[k]) in after {
      var i :| 0 <= i < |before| && before[i] == Create(names[k]);
      assert after[i] == before[i];
    }
  }

  lemma OneMoreName(buildId: string, nodes: seq<string>, count: nat)
    requires count < |nodes|
    ensures Names(buildId, nodes, count + 1) == Names(buildId, nodes, count) + [PrepullPodName(buildId, nodes[count], count)]
  {}

  lemma MoreNames(log: seq<Call>, names: seq<string>, name: string)
    requires CreatedAmong(log, names)
    ensures CreatedAmong(log, names + [name])
  {}

  /** A call and what came back. */
  type Heard = (Call, Answer)

  predicate IsPulled(h: Heard, name: string, imageId: Option<string>) {
    h.0 == Read(name) && !h.1.failed && h.1.state == Pulled(imageId)
  }

  /** A pod that goes on pulling. */
  predicate IsPulling(h: Heard, name: string) {
    h.0 == Read(name) && !h.1.failed && h.1.state == Pulling
  }

  /** A call, other than a delete, that failed, or a pod that says that the pull has. */
  predicate IsTrouble(h: Heard) {
    !h.0.Delete? && (h.1.failed || (h.0.Read? && h.1.state.PullFailed?))
  }

  ghost predicate SomePulled(heard: seq<Heard>, name: string, imageId: Option<string>) {
    exists i :: 0 <= i < |heard| && IsPulled(heard[i], name, imageId)
  }

  ghost predicate SomeTrouble(heard: seq<Heard>) {
    exists i :: 0 <= i < |heard| && IsTrouble(heard[i])
  }

  /** Each image id is what the pod of that name said when its pull was done. */
  ghost predicate AllPulled(heard: seq<Heard>, names: seq<string>, imageIds: seq<Option<string>>) {
    |names| == |imageIds| && forall k | 0 <= k < |names| :: SomePulled(heard, names[k], imageIds[k])
  }

  lemma OneMorePulled(before: seq<Heard>, after: seq<Heard>, names: seq<string>, imageIds: seq<Option<string>>, name: string, imageId: Option<string>)
    requires AllPulled(before, names, imageIds) && before <= after && SomePulled(after, name, imageId)
    ensures AllPulled(after, names + [name], imageIds + [imageId])
  {
    StillHeard(before, after);
  }

  lemma StillPulled(before: seq<Heard>, after: seq<Heard>, names: seq<string>, imageIds: seq<Option<string>>)
    requires AllPulled(before, names, imageIds) && before <= after
    ensures AllPulled(after, names, imageIds)
  {
    StillHeard(before, after);
  }

  /** Deletes of all names at the end clean up after every pod created among them. */
  lemma DeletesClean(before: seq<Call>, after: seq<Call>, names: seq<string>)
    requires CreatedAmong(before, names) && before <= after && |after| == |before| + |names|
    requires forall k | |before| <= k < |after| :: after[k] == Delete(names[k - |before|])
    ensures Cleaned(after)
  {
    forall i | 0 <= i < |after| && after[i].Create? ensures exists j :: i < j < |after| && after[j] == Delete(after[i].name) {
      assert i < |before| && after[i] == before[i];
      var k :| 0 <= k < |names| && names[k] == after[i].name;
      assert after[|before| + k] == Delete(after[i].name);
    }
  }

  lemma TroubleLater(before: seq<Heard>, after: seq<Heard>)
    requires before <= after && SomeTrouble(after[|before|..])
    ensures SomeTrouble(after)
  {
    var i :| 0 <= i < |after| - |before| && IsTrouble(after[|before|..][i]);
    assert after[|before| + i] == after[|before|..][i];
  }

  lemma LastHeard(heard: seq<Heard>, name: string, imageId: Option<string>)
    requires heard != []
    ensures IsTrouble(heard[|heard| - 1]) ==> SomeTrouble(heard)
    ensures IsPulled(heard[|heard| - 1], name, imageId) ==> SomePulled(heard, name, imageId)
  {}

  lemma StillHeard(before: seq<Heard>, after: seq<Heard>)
    requires before <= after
    ensures SomeTrouble(before) ==> SomeTrouble(after)
    ensures forall name, imageId | SomePulled(before, name, imageId) :: SomePulled(after, name, imageId)
  {
    assert forall i | 0 <= i < |before| :: after[i] == before[i];
  }

  class Cluster {
    var now: nat
    var log: seq<Call>
    var script: seq<Answer>
    ghost var sleeps: nat
    ghost var heard: seq<Heard>

    constructor (start: nat, answers: seq<Answer>)
      ensures now == start && log == [] && script == answers && sleeps == 0 && heard == []
    {
      now, log, script, sleeps, heard := start, [], answers, 0, [];
    }

    method Ask(call: Call) returns (answer: Answer)
      requires !call.Sleep?
      modifies `now, `log, `script, `heard
      ensures log == old(log) + [call] && now >= old(now) && heard == old(heard) + [(call, answer)]
      ensures answer == if old(script) == [] then Answer(0, true, [], Pulling) else old(script)[0]
      ensures Reads(log) == Reads(old(log)) + if call.Read? then 1 else 0
    {
      answer := if script == [] then Answer(0, true, [], Pulling) else script[0];
      script := if script == [] then [] else script[1..];
      now, log, heard := now + answer.took, log + [call], heard + [(call, answer)];
      assert log[..|log| - 1] == old(log);
    }

    /** sleepMs(1000) takes at least as long as it says. */
    method SleepSecond()
      modifies `now, `log, `script, `sleeps
      ensures log == old(log) + [Sleep] && now >= old(now) + 1000 && sleeps == old(sleeps) + 1
      ensures Reads(log) == Reads(old(log))
    {
      var extra := if script == [] then 0 else script[0].took;
      script := if script == [] then [] else script[1..];
      now, log, sleeps := now + 1000 + extra, log + [Sleep], sleeps + 1;
      assert log[..|log| - 1] == old(log);
    }

    /** Sleeps fill whole seconds of the shared time, and every other read ended a wait. */
    ghost predicate Paced(started: nat, timeoutMs: nat, waits: nat)
      reads this
    {
      started + 1000 * sleeps <= now && sleeps <= Seconds(timeoutMs) && Reads(log) <= sleeps + waits
    }

    /** Ok exactly when the last read found the pull done; every read before that found it still going on. */
    method WaitForPod(name: string, started: nat, timeoutMs: nat, ghost waits: nat) returns (result: Result<Option<string>, string>)
      requires Paced(started, timeoutMs, waits)
      modifies this
      ensures Paced(started, timeoutMs, waits + 1)
      ensures old(log) <= log && forall i | |old(log)| <= i < |log| :: log[i] == Read(name) || log[i] == Sleep
      ensures old(heard) <= heard && forall i | |old(heard)| <= i < |heard| - 1 :: IsPulling(heard[i], name)
      ensures result.Ok? ==> |old(heard)| < |heard| && IsPulled(heard[|heard| - 1], name, result.value)
      ensures result.Err? ==>
                || (|old(heard)| < |heard| && heard[|heard| - 1].0 == Read(name) && IsTrouble(heard[|heard| - 1]))
                || (now - started >= timeoutMs && forall i | |old(heard)| <= i < |heard| :: IsPulling(heard[i], name))
    {
      while now - started < timeoutMs
        invariant Paced(started, timeoutMs, waits)
        invariant old(log) <= log && forall i | |old(log)| <= i < |log| :: log[i] == Read(name) || log[i] == Sleep
        invariant old(heard) <= heard && forall i | |old(heard)| <= i < |heard| :: IsPulling(heard[i], name)
        decreases started + timeoutMs - now
      {
        assert sleeps < Seconds(timeoutMs);
        var pod := Ask(Read(name));
        if pod.failed { return Err("read failed"); }
        match pod.state {
          case Pulled(imageId) => return Ok(imageId);
          case PullFailed(reason) => return Err(reason);
          case Pulling =>
        }
        SleepSecond();
      }
      return Err("timed out");
    }

    /** Delete what is left of an earlier pod of the name, and create the pod. */
    method CreateAfresh(name: string, ghost names: seq<string>) returns (ok: bool)
      requires CreatedAmong(log, names) && name in names
      modifies `now, `log, `script, `heard
      ensures log == old(log) + [Delete(name), Create(name)] && CreatedAmong(log, names)
      ensures Reads(log) == Reads(old(log)) && now >= old(now)
      ensures old(heard) <= heard && (ok <==> !SomeTrouble(heard[|old(heard)|..]))
    {
      var _ := Ask(Delete(name));
      var created := Ask(Create(name));
      ok := !created.failed;
      ghost var last := heard[|old(heard)|..];
      assert |last| == 2 && last[0].0 == Delete(name) && last[1] == (Create(name), created);
      LastHeard(last, name, None);
    }

    /** One pass of the loop over the nodes, once the name has been noted. */
    method PullOn(name: string, started: nat, timeoutMs: nat, ghost waits: nat, ghost names: seq<string>)
      returns (result: Result<Option<string>, string>)
      requires Paced(started, timeoutMs, waits) && CreatedAmong(log, names) && name in names
      modifies this
      ensures Paced(started, timeoutMs, waits + 1) && CreatedAmong(log, names)
      ensures old(log) <= log && (result.Ok? ==> Create(name) in log)
      ensures old(heard) <= heard && (result.Ok? ==> SomePulled(heard, name, result.value))
      ensures result.Err? ==> SomeTrouble(heard) || now - started >= timeoutMs
    {
      ghost var listened := heard;
      var ok := CreateAfresh(name, names);
      if !ok {
        TroubleLater(listened, heard);
        return Err("create failed");
      }
      ghost var before := log;
      result := WaitForPod(name, started, timeoutMs, waits);
      assert log[|before| - 1] == before[|before| - 1] == Create(name);
      StillAmong(before, log, names);
      if heard != [] { LastHeard(heard, name, if result.Ok? then result.value else None); }
    }

    /** The try block, up to where it ends or throws. */
    method PullEach(buildId: string, nodes: seq<string>, started: nat, timeoutMs: nat)
      returns (podNames: seq<string>, imageIds: seq<Option<string>>, error: Option<string>)
      requires Paced(started, timeoutMs, 0) && CreatedAmong(log, [])
      modifies this
      ensures Paced(started, timeoutMs, |nodes|) && CreatedAmong(log, podNames)
      ensures |podNames| <= |nodes| && podNames == Names(buildId, nodes, |podNames|)
      ensures |imageIds| <= |podNames| && AllPulled(heard, podNames[..|imageIds|], imageIds)
      ensures error.None? ==> |podNames| == |imageIds| == |nodes| && AllCreated(log, podNames)
      ensures error.Some? ==> SomeTrouble(heard) || now - started >= timeoutMs
    {
      podNames, imageIds, error := [], [], None;
      for index := 0 to |nodes|
        invariant Paced(started, timeoutMs, index) && CreatedAmong(log, podNames)
        invariant |podNames| == |imageIds| == index && podNames == Names(buildId, nodes, index)
        invariant AllCreated(log, podNames) && AllPulled(heard, podNames, imageIds) && error.None?
      {
        var name := PrepullPodName(buildId, nodes[index], index);
        ghost var before, listened := log, heard;
        MoreNames(log, podNames, name);
        OneMoreName(buildId, nodes, index);
        podNames := podNames + [name];
        var state := PullOn(name, started, timeoutMs, index, podNames);
        assert podNames[..index] == podNames[..|podNames| - 1];
        if state.Err? {
          StillPulled(listened, heard, podNames[..index], imageIds);
          error := Some(state.error);
          return;
        }
        OneMoreCreated(before, log, podNames[..index], name);
        OneMorePulled(listened, heard, podNames[..index], imageIds, name, state.value);
        imageIds := imageIds + [state.value];
      }
      assert podNames[..|imageIds|] == podNames;
    }

    /** The finally block. */
    method DeleteAll(podNames: seq<string>)
      requires CreatedAmong(log, podNames)
      modifies this
      ensures Cleaned(log) && Reads(log) == Reads(old(log)) && old(log) <= log && old(heard) <= heard && now >= old(now)
    {
      ghost var before := log;
      for i := 0 to |podNames|
        invariant before <= log && |log| == |before| + i && Reads(log) == Reads(before)
        invariant old(heard) <= heard && now >= old(now)
        invariant forall k | |before| <= k < |log| :: log[k] == Delete(podNames[k - |before|])
      {
        var _ := Ask(Delete(podNames[i]));
      }
      DeletesClean(before, log, podNames);
    }

    /**
     A pre-pull is done when every pod has said that its pull is done, with its image id; it fails only
     after a failed call, a pod whose pull failed, or when the shared time is up.
     */
    method PrepullTemplateImage(enabled: bool, hot: bool, failOnError: bool, buildId: string, timeoutMs: nat)
      returns (outcome: Outcome)
      requires log == [] && sleeps == 0 && heard == []
      modifies this
      ensures Cleaned(log)
      ensures var nodes := ReadyNodes(enabled && hot, old(script));
              && Reads(log) <= Seconds(timeoutMs) + |nodes|
              && match outcome
                 case Skipped(_) => nodes == [] && Reads(log) == 0
                 case Done(podNames, imageIds) =>
                   podNames == Names(buildId, nodes, |nodes|) && |imageIds| == |nodes| > 0
                   && AllCreated(log, podNames) && AllPulled(heard, podNames, imageIds)
                 case NotDone(podNames, imageIds, _) =>
                   !failOnError && |podNames| <= |nodes| && podNames == Names(buildId, nodes, |podNames|)
                   && |imageIds| <= |podNames| && AllPulled(heard, podNames[..|imageIds|], imageIds)
                 case Thrown(_) => failOnError
      ensures outcome.NotDone? || outcome.Thrown? ==> SomeTrouble(heard) || now - old(now) >= timeoutMs
      ensures !enabled || !hot ==> outcome.Skipped? && log == []
    {
      if !enabled { return Skipped("disabled"); }
      if !hot { return Skipped("not_hot_template"); }
      var started := now;
      var listed := Ask(ListNodes);
      var podNames, imageIds, error := [], [], Some("list failed");
      if listed.failed {
        assert IsTrouble(heard[0]);
      } else {
        var names := Prepullable(listed.nodes);
        if names == [] { return Skipped("no_ready_nodes"); }
        podNames, imageIds, error := PullEach(buildId, names, started, timeoutMs);
      }
      ghost var listened := heard;
      DeleteAll(podNames);
      StillHeard(listened, heard);
      if error.None? {
        assert podNames[..|imageIds|] == podNames;
        return Done(podNames, imageIds);
      }
      if failOnError { return Thrown(error.value); }
      return NotDone(podNames, imageIds, error.value);
    }
  }
}
