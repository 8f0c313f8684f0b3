/** Latest-request-wins state of the capacity hook (apps/web/src/capacity.tsx, lines 7 to 42). */
module CapacityState {
  import opened Wrappers

  datatype Mount = Before | Mounted | Unmounted

  /** The message shown: none, reporting is unavailable (404), or the refresh failed. */
  datatype Message = NoError | Unavailable | NotRefreshed

  /** An observation of the organization's capacity. */
  type Capacity = nat

  datatype State = State(
    mount: Mount,
    revision: nat,
    outstanding: set<nat>,                  // requests that have not settled
    capacity: Option<Capacity>,
    loading: bool,
    error: Message,
    applied: seq<(nat, Capacity)>)          // the updates shown so far, with their revisions

  datatype Event =
    | MountEffect
    | Refresh                               // timer, visibility, event or button
    | Succeed(request: nat, capacity: Capacity)
    | Fail(request: nat, notFound: bool)
    | AcceptPayload(capacity: Capacity)     // a conflict that carries the current capacity
    | AcceptOther
    | Unmount

  function Begin(): State {
    State(Before, 0, {}, None, true, NoError, [])
  }

  function Refreshed(s: State): State {
    s.(revision := s.revision + 1, loading := true, outstanding := s.outstanding + {s.revision + 1})
  }

  function Step(s: State, e: Event): State {
    match e
    case MountEffect => if s.mount == Before then Refreshed(s).(mount := Mounted) else s
    case Refresh => if s.mount == Before then s else Refreshed(s)
    case Succeed(request, capacity) =>
      if request !in s.outstanding then s
      else
        var settled := s.(outstanding := s.outstanding - {request});
        if s.revision != request then settled
        else settled.(capacity := Some(capacity), error := NoError, loading := false, applied := s.applied + [(request, capacity)])
    case Fail(request, notFound) =>
      if request !in s.outstanding then s
      else
        var settled := s.(outstanding := s.outstanding - {request});
        if s.revision != request then settled
        else settled.(error := if notFound then Unavailable else NotRefreshed, loading := false)
    case AcceptPayload(capacity) =>
      if s.mount == Before then s
      else s.(revision := s.revision + 1, capacity := Some(capacity), error := NoError, loading := false,
             applied := s.applied + [(s.revision + 1, capacity)])
    case AcceptOther => if s.mount == Before then s else Refreshed(s)
    case Unmount => if s.mount == Mounted then s.(mount := Unmounted, revision := s.revision + 1) else s
  }

  function Run(events: seq<Event>): State {
    if events == [] then Begin() else Step(Run(events[..|events| - 1]), events[|events| - 1])
  }

  ghost predicate AppliedSound(s: State) {
    && (forall r | r in s.outstanding :: 0 < r <= s.revision)
    && (forall i | 0 <= i < |s.applied| :: 0 < s.applied[i].0 <= s.revision && s.applied[i].0 !in s.outstanding)
    && (forall i, j | 0 <= i < j < |s.applied| :: s.applied[i].0 < s.applied[j].0)
    && s.capacity == (if s.applied == [] then None else Some(s.applied[|s.applied| - 1].1))
  }

  ghost predicate Inv(s: State) {
    && AppliedSound(s)
    && (s.mount == Before ==> s == Begin())
    && (s.mount == Mounted ==> (s.loading <==> s.revision in s.outstanding))
  }

  /** An update is shown with the newest revision, which no shown update has. */
  lemma ShowKeeps(s: State, t: State, shown: Capacity)
    requires AppliedSound(s) && t.applied == s.applied + [(t.revision, shown)] && t.capacity == Some(shown)
    requires s.revision < t.revision || (s.revision == t.revision && s.revision in s.outstanding)
    requires t.outstanding <= s.outstanding && t.revision !in t.outstanding
    ensures AppliedSound(t)
  {
    assert forall i | 0 <= i < |s.applied| :: t.applied[i] == s.applied[i] && s.applied[i].0 < t.revision;
  }

  lemma AppliedKeeps(s: State, e: Event)
    requires AppliedSound(s)
    ensures AppliedSound(Step(s, e))
  {
    var t := Step(s, e);
    if e.Succeed? && t.applied != s.applied {
      ShowKeeps(s, t, e.capacity);
    } else if e.AcceptPayload? && t.applied != s.applied {
      ShowKeeps(s, t, e.capacity);
    }
  }

  lemma StepKeeps(s: State, e: Event)
    requires Inv(s)
    ensures Inv(Step(s, e))
  {
    AppliedKeeps(s, e);
  }

  lemma {:induction false} RunKeeps(events: seq<Event>)
    ensures Inv(Run(events))
  {
    if events != [] {
      RunKeeps(events[..|events| - 1]);
      StepKeeps(Run(events[..|events| - 1]), events[|events| - 1]);
    }
  }

  /**
   In every interleaving the shown updates have strictly increasing revisions, what is shown is the
   last of them, and a mounted hook is loading exactly while its newest request is outstanding.
   */
  lemma LatestWins(events: seq<Event>)
    ensures var s := Run(events);
            && (forall i, j | 0 <= i < j < |s.applied| :: s.applied[i].0 < s.applied[j].0)
            && s.capacity == (if s.applied == [] then None else Some(s.applied[|s.applied| - 1].1))
            && (s.mount == Mounted ==> (s.loading <==> s.revision in s.outstanding))
  {
    RunKeeps(events);
  }

  /** A response changes what is shown exactly when its request is the newest and the hook has not been left. */
  lemma OlderResponsesAreIgnored(events: seq<Event>, request: nat, capacity: Capacity)
    requires var s := Run(events); request in s.outstanding && s.mount == Mounted
    ensures var s, t := Run(events), Step(Run(events), Succeed(request, capacity));
            && (t.applied != s.applied <==> request == s.revision)
            && (t.applied == s.applied ==> t == s.(outstanding := s.outstanding - {request}))
            && (t.applied != s.applied ==> forall u | u in s.applied :: u.0 < request)
  {
    RunKeeps(events);
    var s := Run(events);
    forall u | u in s.applied ensures u.0 <= s.revision && u.0 !in s.outstanding {
      var i :| 0 <= i < |s.applied| && s.applied[i] == u;
    }
  }

  /** Every update from here on is newer than revision r, and what was shown before stays part of the history. */
  ghost predicate OnlyNewer(before: seq<(nat, Capacity)>, r: nat, s: State) {
    && s.mount == Unmounted && r <= s.revision && before <= s.applied
    && forall i | |before| <= i < |s.applied| :: s.applied[i].0 >= r
  }

  lemma StepOnlyNewer(before: seq<(nat, Capacity)>, r: nat, s: State, e: Event)
    requires OnlyNewer(before, r, s)
    ensures OnlyNewer(before, r, Step(s, e))
  {}

  lemma {:induction false} NewerAlong(before: seq<(nat, Capacity)>, r: nat, events: seq<Event>, later: seq<Event>)
    requires OnlyNewer(before, r, Run(events))
    ensures OnlyNewer(before, r, Run(events + later))
    decreases |later|
  {
    if later == [] {
      assert events + later == events;
    } else {
      var less, e := later[..|later| - 1], later[|later| - 1];
      var all := events + later;
      assert all[..|all| - 1] == events + less && all[|all| - 1] == e;
      NewerAlong(before, r, events, less);
      StepOnlyNewer(before, r, Run(events + less), e);
    }
  }

  /**
   A request that is outstanding when the hook is left is never shown, however the run goes on: leaving
   takes a revision, and whatever is shown afterwards has that one or a newer one.
   */
  lemma LeftRequestsAreNeverShown(events: seq<Event>, later: seq<Event>, request: nat)
    requires Run(events).mount == Mounted && request in Run(events).outstanding
    ensures var s, t := Run(events), Run(events + [Unmount] + later);
            && t.mount == Unmounted && s.applied <= t.applied
            && (forall i | |s.applied| <= i < |t.applied| :: t.applied[i].0 > s.revision)
            && forall u | u in t.applied :: u.0 != request
  {
    var s, left := Run(events), events + [Unmount];
    RunKeeps(events);
    assert left[..|left| - 1] == events;
    assert Run(left) == Step(s, Unmount);
    NewerAlong(s.applied, s.revision + 1, left, later);
    var t := Run(left + later);
    forall u | u in t.applied ensures u.0 != request {
      var i :| 0 <= i < |t.applied| && t.applied[i] == u;
      if i < |s.applied| { assert s.applied[i] == u; }
    }
  }

  /** The hook's state, its revision counter, and the callbacks that change them. */
  class Hook {
    var mount: Mount
    var revision: nat
    var outstanding: set<nat>
    var capacity: Option<Capacity>
    var loading: bool
    var error: Message
    ghost var applied: seq<(nat, Capacity)>

    ghost function View(): State
      reads this
    {
      State(mount, revision, outstanding, capacity, loading, error, applied)
    }

    constructor ()
      ensures View() == Begin()
    {
      mount, revision, outstanding := Before, 0, {};
      capacity, loading, error := None, true, NoError;
      applied := [];
    }

    /** refresh, up to its await */
    method StartRefresh() returns (request: nat)
      modifies this
      ensures View() == Refreshed(old(View())) && request == revision
    {
      revision := revision + 1;
      request := revision;
      loading := true;
      outstanding := outstanding + {request};
    }

    method OnMount() returns (request: nat)
      requires mount == Before
      modifies this
      ensures View() == Step(old(View()), MountEffect)
    {
      mount := Mounted;
      request := StartRefresh();
    }

    method OnResult(request: nat, result: Capacity)
      requires request in outstanding
      modifies this
      ensures View() == Step(old(View()), Succeed(request, result))
    {
      outstanding := outstanding - {request};
      if revision == request {
        capacity, error := Some(result), NoError;
        applied := applied + [(request, result)];
      }
      if revision == request { loading := false; }
    }

    method OnCause(request: nat, notFound: bool)
      requires request in outstanding
      modifies this
      ensures View() == Step(old(View()), Fail(request, notFound))
    {
      outstanding := outstanding - {request};
      if revision == request { error := if notFound then Unavailable else NotRefreshed; }
      if revision == request { loading := false; }
    }

    method AcceptError(payload: Option<Capacity>)
      requires mount != Before
      modifies this
      ensures View() == Step(old(View()), if payload.Some? then AcceptPayload(payload.value) else AcceptOther)
    {
      if payload.Some? {
        revision := revision + 1;
        capacity, error, loading := payload, NoError, false;
        applied := applied + [(revision, payload.value)];
      } else {
        var _ := StartRefresh();
      }
    }

    method OnUnmount()
      requires mount == Mounted
      modifies this
      ensures View() == Step(old(View()), Unmount)
    {
      mount := Unmounted;
      revision := revision + 1;
    }

    predicate Possible(e: Event)
      reads this
    {
      match e
      case MountEffect => mount == Before
      case Succeed(request, _) => request in outstanding
      case Fail(request, _) => request in outstanding
      case Unmount => mount == Mounted
      case _ => mount != Before
    }

    /** Whatever happens to a new hook, one after the other; what cannot happen is passed over. */
    method Play(events: seq<Event>)
      requires View() == Begin()
      modifies this
      ensures View() == Run(events)
    {
      for k := 0 to |events|
        invariant View() == Run(events[..k])
      {
        assert events[..k + 1][..k] == events[..k] && events[..k + 1][k] == events[k];
        var e := events[k];
        if Possible(e) {
          match e {
            case MountEffect => var _ := OnMount();
            case Refresh => var _ := StartRefresh();
            case Succeed(request, result) => OnResult(request, result);
            case Fail(request, notFound) => OnCause(request, notFound);
            case AcceptPayload(payload) => AcceptError(Some(payload));
            case AcceptOther => AcceptError(None);
            case Unmount => OnUnmount();
          }
        }
      }
      assert events[..|events|] == events;
    }

    /** The results, for the program. */
    method PlayedLatestWins(events: seq<Event>)
      requires View() == Begin()
      modifies this
      ensures mount == Mounted ==> (loading <==> revision in outstanding)
      ensures forall i, j | 0 <= i < j < |applied| :: applied[i].0 < applied[j].0
      ensures capacity == if applied == [] then None else Some(applied[|applied| - 1].1)
    {
      Play(events);
      LatestWins(events);
    }
  }
}
