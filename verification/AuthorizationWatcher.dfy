/**
 The watcher of a terminal's authorization (apps/api/src/live-authorization.ts): an interval, one
 deadline per check, an expiry timer and two flags. Times are whole milliseconds and timers fire at
 the instant they are due; what is due at the same instant may fire in any order.
 */
module AuthorizationWatcher {
  import opened Wrappers

  const MAX_TIMEOUT := 0x7fff_ffff

  /** The date of the credential, by the time that remains to it. */
  datatype Expiry = Never | In(remaining: int) | NotADate

  datatype Params = Params(start: nat, interval: nat, timeout: nat, credential: Expiry)

  /** What revalidatePrincipal comes back with. */
  datatype Verdict = Valid | Invalid | Failure

  datatype Watch = Watch(
    now: nat,
    stopped: bool,
    checking: bool,
    outstanding: seq<nat>,     // start times of the checks that have not answered
    tick: Option<nat>,         // due times of the armed timers
    deadline: Option<nat>,
    expiry: Option<nat>,
    disconnects: nat,
    stops: nat)                // calls of the returned stop function

  datatype Event =
    | Pass(until: nat)
    | Tick
    | Answer(index: nat, verdict: Verdict)
    | Deadline
    | Expire
    | Stop

  /** From when on the credential is expired; what is no date is expired from the start. */
  function CutOff(p: Params): Option<nat> {
    match p.credential
    case Never => None
    case In(remaining) => Some(p.start + if remaining < 0 then 0 else remaining)
    case NotADate => Some(p.start)
  }

  function ExpiryTimer(p: Params): Option<nat> {
    if p.credential.In? && p.credential.remaining <= MAX_TIMEOUT then CutOff(p) else None
  }

  /**
   revalidatePrincipal refuses a credential that is expired when the check begins (apps/api/src/auth.ts,
   line 171; apps/api/src/services/api-key-principals.ts, lines 16 to 25).
   */
  predicate MayBeValid(p: Params, begun: nat) {
    CutOff(p).Some? ==> begun < CutOff(p).value
  }

  function Begin(p: Params): Watch {
    Watch(p.start, false, false, [], Some(p.start + p.interval), None, ExpiryTimer(p), 0, 0)
  }

  function Halt(w: Watch): Watch {
    w.(stopped := true, tick := None, expiry := None, deadline := None)
  }

  function Reject(w: Watch): Watch {
    if w.stopped then w else Halt(w).(disconnects := w.disconnects + 1)
  }

  function Ticked(w: Watch, p: Params): Watch {
    var next := w.(tick := Some(w.now + p.interval));
    if w.checking || w.stopped then next
    else next.(checking := true, deadline := Some(w.now + p.timeout), outstanding := w.outstanding + [w.now])
  }

  function Answered(w: Watch, index: nat, verdict: Verdict): Watch
    requires index < |w.outstanding|
  {
    var rest := w.(outstanding := w.outstanding[..index] + w.outstanding[index + 1..]);
    (if verdict == Valid then rest else Reject(rest)).(deadline := None, checking := false)
  }

  predicate Due(timer: Option<nat>, now: nat) {
    timer == Some(now)
  }

  /** A timer may not be overslept. */
  predicate NotBefore(timer: Option<nat>, until: nat) {
    timer.Some? ==> until <= timer.value
  }

  predicate Enabled(w: Watch, p: Params, e: Event) {
    match e
    case Pass(until) => w.now <= until && NotBefore(w.tick, until) && NotBefore(w.deadline, until) && NotBefore(w.expiry, until)
    case Tick => Due(w.tick, w.now)
    case Answer(index, verdict) => index < |w.outstanding| && (verdict == Valid ==> MayBeValid(p, w.outstanding[index]))
    case Deadline => Due(w.deadline, w.now)
    case Expire => Due(w.expiry, w.now)
    case Stop => true
  }

  function Step(w: Watch, p: Params, e: Event): Watch
    requires Enabled(w, p, e)
  {
    match e
    case Pass(until) => w.(now := until)
    case Tick => Ticked(w, p)
    case Answer(index, verdict) => Answered(w, index, verdict)
    case Deadline => Reject(w.(deadline := None))
    case Expire => Reject(w.(expiry := None))
    case Stop => Halt(w).(stops := w.stops + 1)
  }

  /** The state after events, None when one of them was not possible when its turn came. */
  function Exec(p: Params, events: seq<Event>): Option<Watch> {
    if events == [] then Some(Begin(p))
    else
      var before := Exec(p, events[..|events| - 1]);
      var e := events[|events| - 1];
      if before.Some? && Enabled(before.value, p, e) then Some(Step(before.value, p, e)) else None
  }

  ghost predicate Reaches(p: Params, events: seq<Event>, w: Watch) {
    Exec(p, events) == Some(w)
  }

  ghost predicate Inv(w: Watch, p: Params) {
    && |w.outstanding| <= 1 && (w.checking <==> |w.outstanding| == 1)
    && w.disconnects <= 1
    && (w.stopped <==> w.disconnects == 1 || w.stops > 0)
    && (w.stopped ==> w.tick.None? && w.deadline.None? && w.expiry.None?)
    && (!w.stopped ==>
          && w.tick.Some? && w.now <= w.tick.value <= w.now + p.interval
          && (w.deadline.Some? <==> w.checking)
          && (w.checking ==> w.outstanding[0] <= w.now <= w.outstanding[0] + p.timeout == w.deadline.value)
          && w.expiry == ExpiryTimer(p) && NotBefore(w.expiry, w.now))
  }

  lemma StepKeeps(w: Watch, p: Params, e: Event)
    requires Inv(w, p) && Enabled(w, p, e)
    ensures Inv(Step(w, p, e), p)
  {}

  lemma {:induction false} RunKeeps(p: Params, events: seq<Event>, w: Watch)
    requires Reaches(p, events, w)
    ensures Inv(w, p)
    decreases |events|
  {
    if events != [] {
      var v := Exec(p, events[..|events| - 1]).value;
      RunKeeps(p, events[..|events| - 1], v);
      StepKeeps(v, p, events[|events| - 1]);
    }
  }

  /**
   In every run: one check at a time, one disconnect at most, and a watcher has stopped exactly when
   it has disconnected or has been told to stop. A disarmed watcher has no timer left.
   */
  lemma OneCheckOneDisconnect(p: Params, events: seq<Event>, w: Watch)
    requires Reaches(p, events, w)
    ensures |w.outstanding| <= 1 && w.disconnects <= 1
    ensures w.stopped <==> w.disconnects == 1 || w.stops > 0
    ensures w.stopped ==> w.tick.None? && w.deadline.None? && w.expiry.None?
  {
    RunKeeps(p, events, w);
  }

  lemma StepStaysStopped(w: Watch, p: Params, e: Event)
    requires Inv(w, p) && w.stopped && Enabled(w, p, e)
    ensures var v := Step(w, p, e);
            v.stopped && v.disconnects == w.disconnects && |v.outstanding| <= |w.outstanding|
  {}

  /** After stop, by whichever side, nothing disconnects any more and no further check begins, however the run goes on. */
  lemma {:induction false} StoppedForGood(p: Params, events: seq<Event>, w: Watch, later: seq<Event>, v: Watch)
    requires Reaches(p, events, w) && w.stopped && Reaches(p, events + later, v)
    ensures v.stopped && v.disconnects == w.disconnects && |v.outstanding| <= |w.outstanding|
    decreases |later|
  {
    if later == [] {
      assert events + later == events;
    } else {
      var less, e := later[..|later| - 1], later[|later| - 1];
      var all := events + later;
      assert all[..|all| - 1] == events + less && all[|all| - 1] == e;
      var u := Exec(p, events + less).value;
      StoppedForGood(p, events, w, less, u);
      RunKeeps(p, events + less, u);
      StepStaysStopped(u, p, e);
    }
  }

  // The bound on a disconnect after revocation.

  /** No check begun at time r or later ever comes back with a valid principal. */
  ghost predicate Revoked(p: Params, events: seq<Event>, r: nat) {
    forall k | 0 <= k < |events| && events[k].Answer? && events[k].verdict == Valid ::
      var v := Exec(p, events[..k]);
      v.Some? && events[k].index < |v.value.outstanding| ==> v.value.outstanding[events[k].index] < r
  }

  ghost predicate Bounded(w: Watch, p: Params, r: nat) {
    && (!w.stopped && w.checking ==> |w.outstanding| == 1 && w.outstanding[0] <= r + p.timeout + p.interval)
    && (!w.stopped && !w.checking ==> w.tick.Some? && w.tick.value <= r + p.timeout + p.interval)
  }

  lemma StepBounded(w: Watch, p: Params, e: Event, r: nat)
    requires Inv(w, p) && Bounded(w, p, r) && Enabled(w, p, e)
    requires e.Answer? && e.verdict == Valid ==> w.outstanding[e.index] < r
    ensures Bounded(Step(w, p, e), p, r)
  {}

  lemma {:induction false} RunBounded(p: Params, events: seq<Event>, w: Watch, r: nat)
    requires Reaches(p, events, w) && Revoked(p, events, r) && p.start <= r
    ensures Bounded(w, p, r)
    decreases |events|
  {
    if events != [] {
      var k := |events| - 1;
      var v := Exec(p, events[..k]).value;
      RunKeeps(p, events[..k], v);
      assert forall j | 0 <= j < k :: events[..k][..j] == events[..j];
      RunBounded(p, events[..k], v, r);
      StepBounded(v, p, events[k], r);
    }
  }

  /**
   The disconnect is bounded: once every check begun at r or later fails to find a valid principal,
   the watcher has disconnected, unless it was stopped, before time passes r + interval + 2 * timeout.
   */
  lemma DisconnectsInTime(p: Params, events: seq<Event>, w: Watch, r: nat)
    requires Reaches(p, events, w) && Revoked(p, events, r) && p.start <= r
    requires w.now > r + p.interval + 2 * p.timeout
    ensures w.disconnects == 1 || w.stops > 0
  {
    RunKeeps(p, events, w);
    RunBounded(p, events, w, r);
  }

  // Why a watcher disconnects.

  /** A failed check, a check that has had its whole time, or the date of the credential, before the watcher has stopped. */
  predicate Cause(p: Params, w: Watch, e: Event) {
    && !w.stopped
    && match e
       case Answer(_, verdict) => verdict != Valid
       case Deadline => |w.outstanding| == 1 && w.now == w.outstanding[0] + p.timeout
       case Expire => CutOff(p) == Some(w.now)
       case _ => false
  }

  ghost predicate SomeCause(p: Params, events: seq<Event>) {
    events != [] &&
    var before, e := Exec(p, events[..|events| - 1]), events[|events| - 1];
    SomeCause(p, events[..|events| - 1]) || (before.Some? && Cause(p, before.value, e))
  }

  lemma StepDisconnectsForCause(w: Watch, p: Params, e: Event)
    requires Inv(w, p) && Enabled(w, p, e)
    ensures Step(w, p, e).disconnects == w.disconnects + if Cause(p, w, e) then 1 else 0
  {}

  /**
   In every run the watcher has disconnected exactly when there has been a cause: a valid answer in time
   never disconnects, with an armed expiry timer or without.
   */
  lemma {:induction false} DisconnectsForCauseOnly(p: Params, events: seq<Event>, w: Watch)
    requires Reaches(p, events, w)
    ensures w.disconnects == if SomeCause(p, events) then 1 else 0
    decreases |events|
  {
    if events != [] {
      var less := events[..|events| - 1];
      var v := Exec(p, less).value;
      DisconnectsForCauseOnly(p, less, v);
      RunKeeps(p, less, v);
      RunKeeps(p, events, w);
      StepDisconnectsForCause(v, p, events[|events| - 1]);
    }
  }

  /** While every check is answered in time with a valid principal and the date has not come, nobody is cut off. */
  lemma StaysConnected(p: Params, events: seq<Event>, w: Watch)
    requires Reaches(p, events, w) && !SomeCause(p, events)
    ensures w.disconnects == 0 && (w.stopped ==> w.stops > 0)
    ensures !w.stopped ==> w.tick.Some? && w.now <= w.tick.value <= w.now + p.interval
  {
    RunKeeps(p, events, w);
    DisconnectsForCauseOnly(p, events, w);
  }

  // Expiry.

  /** A credential whose remaining time fits a timer is cut off when that time is up. */
  lemma ExpiryInTime(p: Params, events: seq<Event>, w: Watch)
    requires Reaches(p, events, w) && ExpiryTimer(p).Some? && w.now > CutOff(p).value
    ensures w.disconnects == 1 || w.stops > 0
  {
    RunKeeps(p, events, w);
  }

  /** No check begun at the cut-off or later finds a valid principal. */
  lemma ExpiredIsRevoked(p: Params, events: seq<Event>, w: Watch)
    requires Reaches(p, events, w) && CutOff(p).Some?
    ensures Revoked(p, events, CutOff(p).value)
  {
    forall k | 0 <= k < |events| && events[k].Answer? && events[k].verdict == Valid
      ensures var v := Exec(p, events[..k]);
              v.Some? && events[k].index < |v.value.outstanding| ==> v.value.outstanding[events[k].index] < CutOff(p).value
    {
      Prefix(p, events, w, k + 1);
      assert events[..k + 1][..k] == events[..k] && events[..k + 1][k] == events[k];
    }
  }

  lemma {:induction false} Prefix(p: Params, events: seq<Event>, w: Watch, k: nat)
    requires Reaches(p, events, w) && k <= |events|
    ensures Exec(p, events[..k]).Some?
    decreases |events|
  {
    if k == |events| {
      assert events[..k] == events;
    } else {
      var less := events[..|events| - 1];
      Prefix(p, less, Exec(p, less).value, k);
      assert less[..k] == events[..k];
    }
  }

  /**
   Every credential with a date is cut off, armed timer or not, and so is one whose date cannot be read:
   at the latest when time passes interval + 2 * timeout after the date.
   */
  lemma EveryDatedCredentialIsCutOff(p: Params, events: seq<Event>, w: Watch)
    requires Reaches(p, events, w) && CutOff(p).Some?
    requires w.now > CutOff(p).value + if ExpiryTimer(p).Some? then 0 else p.interval + 2 * p.timeout
    ensures w.disconnects == 1 || w.stops > 0
  {
    if ExpiryTimer(p).Some? {
      ExpiryInTime(p, events, w);
    } else {
      ExpiredIsRevoked(p, events, w);
      DisconnectsInTime(p, events, w, CutOff(p).value);
    }
  }

  /** Without an expiry timer checks before the date keep the terminal open up to the n-th tick. */
  lemma {:induction false} OpenUpToTick(p: Params, n: nat) returns (events: seq<Event>, w: Watch)
    requires ExpiryTimer(p).None? && MayBeValid(p, p.start + n * p.interval)
    ensures Reaches(p, events, w) && w.now == p.start + n * p.interval
    ensures !w.stopped && !w.checking && w.tick == Some(w.now + p.interval) && w.deadline.None?
  {
    if n == 0 {
      events, w := [], Begin(p);
    } else {
      assert n * p.interval == (n - 1) * p.interval + p.interval;
      events, w := OpenUpToTick(p, n - 1);
      RunKeeps(p, events, w);
      events, w := Extend(p, events, w, Pass(w.tick.value));
      events, w := Extend(p, events, w, Tick);
      events, w := Extend(p, events, w, Answer(0, Valid));
    }
  }

  /**
   Without an expiry timer the cut-off can come later than the date: the terminal is still connected at
   the first tick at the date or after it.
   */
  lemma LateWithoutTimer(p: Params, n: nat) returns (events: seq<Event>, w: Watch)
    requires p.credential.In? && p.credential.remaining > MAX_TIMEOUT
    requires n * p.interval < p.credential.remaining <= (n + 1) * p.interval
    ensures Reaches(p, events, w) && w.now == p.start + (n + 1) * p.interval >= CutOff(p).value
    ensures w.disconnects == 0 && w.stops == 0 && !w.stopped
  {
    events, w := OpenUpToTick(p, n);
    RunKeeps(p, events, w);
    events, w := Extend(p, events, w, Pass(w.tick.value));
    assert (n + 1) * p.interval == n * p.interval + p.interval;
    RunKeeps(p, events, w);
  }

  lemma Extend(p: Params, events: seq<Event>, w: Watch, e: Event) returns (events': seq<Event>, w': Watch)
    requires Reaches(p, events, w) && Enabled(w, p, e)
    ensures w' == Step(w, p, e) && Reaches(p, events', w') && events' == events + [e]
  {
    events', w' := events + [e], Step(w, p, e);
    assert events'[..|events'| - 1] == events && events'[|events'| - 1] == e;
  }

  /** The closure variables of watchTerminalAuthorization, its timers, and what they call. */
  class Watcher {
    const params: Params
    var now: nat
    var stopped: bool
    var checking: bool
    var deadline: Option<nat>
    var timer: Option<nat>
    var expiry: Option<nat>
    var outstanding: seq<nat>
    var disconnects: nat
    var stops: nat

    function State(): Watch
      reads this
    {
      Watch(now, stopped, checking, outstanding, timer, deadline, expiry, disconnects, stops)
    }

    constructor (p: Params)
      ensures params == p && State() == Begin(p)
    {
      params := p;
      now := p.start;
      stopped, checking, outstanding := false, false, [];
      deadline := None;
      timer := Some(p.start + p.interval);
      expiry := if p.credential.In? && p.credential.remaining <= MAX_TIMEOUT
      then Some(p.start + if 0 < p.credential.remaining then p.credential.remaining else 0)
      else None;
      disconnects, stops := 0, 0;
    }

    method ClearAll()
      modifies `stopped, `timer, `expiry, `deadline
      ensures State() == Halt(old(State()))
    {
      stopped := true;
      timer := None;
      expiry := None;
      deadline := None;
    }

    method RejectNow()
      modifies this
      ensures State() == Reject(old(State()))
    {
      if !stopped {
        ClearAll();
        disconnects := disconnects + 1;
      }
    }

    method StopWatching()
      modifies this
      ensures State() == Step(old(State()), params, Stop)
    {
      ClearAll();
      stops := stops + 1;
    }

    /** The interval's callback, up to its await. */
    method OnInterval()
      requires Enabled(State(), params, Tick)
      modifies this
      ensures State() == Step(old(State()), params, Tick)
    {
      timer := Some(now + params.interval);
      if checking || stopped { return; }
      checking := true;
      deadline := Some(now + params.timeout);
      outstanding := outstanding + [now];
    }

    /** The rest of the callback: try, catch and finally. */
    method OnAnswer(index: nat, verdict: Verdict)
      requires Enabled(State(), params, Answer(index, verdict))
      modifies this
      ensures State() == Step(old(State()), params, Answer(index, verdict))
    {
      outstanding := outstanding[..index] + outstanding[index + 1..];
      if verdict != Valid { RejectNow(); }
      deadline := None;
      checking := false;
    }

    method OnDeadline()
      requires Enabled(State(), params, Deadline)
      modifies this
      ensures State() == Step(old(State()), params, Deadline)
    {
      deadline := None;
      RejectNow();
    }

    method OnExpiry()
      requires Enabled(State(), params, Expire)
      modifies this
      ensures State() == Step(old(State()), params, Expire)
    {
      expiry := None;
      RejectNow();
    }

    /** Any possible events, one after the other. */
    method Play(events: seq<Event>) returns (played: seq<Event>)
      requires State() == Begin(params)
      modifies this
      ensures played <= events && Reaches(params, played, State())
      ensures played == events || !Enabled(State(), params, events[|played|])
    {
      played := [];
      while |played| < |events| && Enabled(State(), params, events[|played|])
        invariant played <= events && Reaches(params, played, State())
        decreases |events| - |played|
      {
        var e := events[|played|];
        ghost var before := State();
        match e {
          case Pass(until) => now := until;
          case Tick => OnInterval();
          case Answer(index, verdict) => OnAnswer(index, verdict);
          case Deadline => OnDeadline();
          case Expire => OnExpiry();
          case Stop => StopWatching();
        }
        ghost var longer, after := Extend(params, played, before, e);
        played := played + [e];
        assert longer == played;
      }
    }
  }
}
