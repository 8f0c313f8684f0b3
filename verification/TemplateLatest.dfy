/**
 What becomes of a template's latest version: whether it is ready and whether the template shows it, in
 runs with any number of pinners (apps/api/src/templates.ts, lines 92 to 139) and promotions
 (apps/api/src/services/templates.ts, lines 250 to 293).
 */
module TemplateLatest {
  import opened Wrappers
  import opened TemplateQueue
  import opened TemplateQueueSafety

  ghost predicate LatestReady(s: State) {
    LatestSound(s) && AllReady(s)
  }

  ghost predicate LatestShown(s: State) {
    LatestSound(s) && AllShown(s)
  }

  /** A promotion's last update, when the version it found ready has been retired since. */
  ghost predicate PromotesRetired(s: State, e: Event) {
    && LatestSound(s) && e.PromoteNext? && e.promoter in s.promotions && s.promotions[e.promoter].stage == Relabelled
    && s.promotions[e.promoter].template in s.templates
    && !s.versions[s.promotions[e.promoter].version].ready
  }

  /** A promotion's last update, when the template does not show the version already. */
  ghost predicate PromotesUnshown(s: State, e: Event) {
    && LatestSound(s) && e.PromoteNext? && e.promoter in s.promotions && s.promotions[e.promoter].stage == Relabelled
    && s.promotions[e.promoter].template in s.templates
    && !ShowsOrWill(s, s.promotions[e.promoter].template, s.promotions[e.promoter].version)
  }

  /** A second update that passes its guard although the version has been written over by a pinner who is gone. */
  ghost predicate PinsOverwritten(s: State, e: Event) {
    && LatestSound(s) && e.PinNext? && e.pinner in s.pins && s.pins[e.pinner].stage == BeforeTemplate
    && s.pins[e.pinner].template in s.templates
    && s.templates[s.pins[e.pinner].template].latest == Some(s.pins[e.pinner].version)
    && !SomeDue(s, s.pins[e.pinner].template, s.pins[e.pinner].version)
  }

  /** A pinner that dies between its updates when nobody else is about to do its second one. */
  ghost predicate DiesHalfway(s: State, e: Event) {
    && LatestSound(s) && e.PinDie? && e.pinner in s.pins
    && var p := s.pins[e.pinner];
    && p.template in s.templates && s.templates[p.template].latest == Some(p.version)
    && Due(s, e.pinner, p.template, p.version) && !Shows(s.templates[p.template], s.versions[p.version])
    && forall q :: Due(s, q, p.template, p.version) ==> q == e.pinner
  }

  ghost predicate Tears(s: State, e: Event) {
    PromotesUnshown(s, e) || PinsOverwritten(s, e) || DiesHalfway(s, e)
  }

  // Readiness, step by step.

  lemma ReadyFrame(s: State, t: State)
    requires LatestReady(s) && LatestSound(t) && |s.versions| == |t.versions|
    requires forall x | x in t.templates && t.templates[x].latest.Some? :: x in s.templates && t.templates[x].latest == s.templates[x].latest
    requires forall i | 0 <= i < |s.versions| :: t.versions[i].ready == s.versions[i].ready
    ensures AllReady(t)
  {}

  lemma ReadyAfterBuildEvent(s: State, e: Event)
    requires LatestReady(s) && LatestSound(Step(s, e)) && OfBuilds(e)
    ensures AllReady(Step(s, e))
  {
    BuildEventsFrame(s, e);
    ReadyFrame(s, Step(s, e));
  }

  lemma ReadyAfterCompletion(s: State, e: Event)
    requires LatestReady(s) && LatestSound(Step(s, e)) && e.Complete?
    ensures AllReady(Step(s, e))
  {}

  lemma ReadyAfterRetirement(s: State, e: Event)
    requires LatestReady(s) && LatestSound(Step(s, e)) && e.RetireVersions?
    ensures AllReady(Step(s, e))
  {
    var t := Step(s, e);
    forall x | x in t.templates && t.templates[x].latest.Some? ensures t.versions[t.templates[x].latest.value].ready {
      assert Kept(s, s.templates[x].latest.value, e.used);
    }
  }

  lemma ReadyAfterTemplateEvent(s: State, e: Event)
    requires LatestReady(s) && LatestSound(Step(s, e)) && (e.CreateTemplate? || e.Archive?)
    ensures AllReady(Step(s, e))
  {
    TemplateEventsFrame(s, e);
    ReadyFrame(s, Step(s, e));
  }

  /** Templates come without a latest version, and archiving changes nothing but the status. */
  lemma TemplateEventsFrame(s: State, e: Event)
    requires e.CreateTemplate? || e.Archive?
    ensures var t := Step(s, e);
            && t.versions == s.versions && t.pins == s.pins
            && forall x | x in t.templates && t.templates[x].latest.Some? ::
                 x in s.templates && t.templates[x].(status := s.templates[x].status) == s.templates[x]
  {}

  lemma ReadyAfterRelabel(s: State, i: nat, aliases: seq<string>)
    requires LatestReady(s) && LatestSound(Step(s, Relabel(i, aliases)))
    ensures AllReady(Step(s, Relabel(i, aliases)))
  {
    ReadyFrame(s, Step(s, Relabel(i, aliases)));
  }

  lemma ReadyAfterPinner(s: State, e: Event)
    requires LatestReady(s) && LatestSound(Step(s, e)) && (e.PinStart? || e.PinDie?)
    ensures AllReady(Step(s, e))
  {
    ReadyFrame(s, Step(s, e));
  }

  lemma ReadyAfterUpdate(s: State, p: nat)
    requires LatestReady(s) && p in s.pins && LatestSound(Pinned(s, p))
    ensures AllReady(Pinned(s, p))
  {
    ReadyFrame(s, Pinned(s, p));
  }

  lemma ReadyAfterPromotion(s: State, p: nat)
    requires LatestReady(s) && p in s.promotions && LatestSound(Promoted(s, p))
    ensures AllReady(Promoted(s, p)) <==> !PromotesRetired(s, PromoteNext(p))
  {
    var t := Promoted(s, p);
    if s.promotions[p].stage != Relabelled {
      ReadyFrame(s, t);
    } else if PromotesRetired(s, PromoteNext(p)) {
      assert t.templates[s.promotions[p].template].latest == Some(s.promotions[p].version);
    } else {
      forall x | x in t.templates && t.templates[x].latest.Some? ensures t.versions[t.templates[x].latest.value].ready {
        assert t.versions == s.versions;
      }
    }
  }

  lemma ReadyStep(s: State, e: Event)
    requires LatestReady(s)
    ensures LatestReady(Step(s, e)) <==> !PromotesRetired(s, e)
  {
    LatestKeeps(s, e);
    match e {
      case Complete(_, _, _) => ReadyAfterCompletion(s, e);
      case RetireVersions(_, _) => ReadyAfterRetirement(s, e);
      case PinNext(p) => if p in s.pins { ReadyAfterUpdate(s, p); }
      case PromoteNext(p) => if p in s.promotions { ReadyAfterPromotion(s, p); }
      case PinStart(_, _, _, _) => ReadyAfterPinner(s, e);
      case PinDie(_) => ReadyAfterPinner(s, e);
      case Promote(_, _, _, _) =>
      case PromoteDie(_) =>
      case CreateTemplate(_, _) => ReadyAfterTemplateEvent(s, e);
      case Archive(_) => ReadyAfterTemplateEvent(s, e);
      case Relabel(i, aliases) => ReadyAfterRelabel(s, i, aliases);
      case _ => ReadyAfterBuildEvent(s, e);
    }
  }

  // What is shown, step by step.

  lemma ShownFrame(s: State, t: State)
    requires LatestShown(s) && LatestSound(t) && |s.versions| <= |t.versions|
    requires forall x | x in t.templates && t.templates[x].latest.Some? ::
               x in s.templates && t.templates[x].(status := s.templates[x].status) == s.templates[x]
    requires forall i | 0 <= i < |s.versions| ::
               t.versions[i].image == s.versions[i].image && t.versions[i].digest == s.versions[i].digest
    requires forall p | p in s.pins && s.pins[p].stage == BeforeTemplate :: p in t.pins && t.pins[p] == s.pins[p]
    ensures AllShown(t)
  {
    forall x | x in t.templates && t.templates[x].latest.Some? ensures ShowsOrWill(t, x, t.templates[x].latest.value) {
      CarryShown(s, t, x, t.templates[x].latest.value);
    }
  }

  /** A template keeps showing a version when neither row changes its picture and nobody due goes away. */
  lemma CarryShown(s: State, t: State, x: string, v: nat)
    requires x in s.templates && x in t.templates && v < |s.versions| && v < |t.versions| && ShowsOrWill(s, x, v)
    requires t.templates[x].image == s.templates[x].image && t.templates[x].digest == s.templates[x].digest
    requires t.versions[v].image == s.versions[v].image && t.versions[v].digest == s.versions[v].digest
    requires forall p | Due(s, p, x, v) :: p in t.pins && t.pins[p] == s.pins[p]
    ensures ShowsOrWill(t, x, v)
  {
    if !Shows(s.templates[x], s.versions[v]) {
      var p :| Due(s, p, x, v);
      assert Due(t, p, x, v);
    }
  }

  lemma ShownAfterBuildEvent(s: State, e: Event)
    requires LatestShown(s) && LatestSound(Step(s, e)) && OfBuilds(e)
    ensures AllShown(Step(s, e))
  {
    BuildEventsFrame(s, e);
    ShownFrame(s, Step(s, e));
  }

  lemma ShownAfterCompletion(s: State, e: Event)
    requires LatestShown(s) && LatestSound(Step(s, e)) && e.Complete?
    ensures AllShown(Step(s, e))
  {
    var t := Step(s, e);
    if t.versions != s.versions {
      forall x | x in t.templates && t.templates[x].latest.Some? ensures ShowsOrWill(t, x, t.templates[x].latest.value) {
        if t.templates[x].latest.value < |s.versions| { CarryShown(s, t, x, t.templates[x].latest.value); }
      }
    } else {
      ShownFrame(s, t);
    }
  }

  lemma VersionEventsFrame(s: State, e: Event)
    requires e.RetireVersions? || e.Relabel?
    ensures var t := Step(s, e);
            && t.templates == s.templates && t.pins == s.pins && |t.versions| == |s.versions|
            && forall i | 0 <= i < |s.versions| ::
                 t.versions[i].image == s.versions[i].image && t.versions[i].digest == s.versions[i].digest
  {}

  lemma ShownAfterVersionEvent(s: State, e: Event)
    requires LatestShown(s) && LatestSound(Step(s, e)) && (e.RetireVersions? || e.Relabel?)
    ensures AllShown(Step(s, e))
  {
    VersionEventsFrame(s, e);
    ShownFrame(s, Step(s, e));
  }

  lemma ShownAfterTemplateEvent(s: State, e: Event)
    requires LatestShown(s) && LatestSound(Step(s, e)) && (e.CreateTemplate? || e.Archive?)
    ensures AllShown(Step(s, e))
  {
    TemplateEventsFrame(s, e);
    ShownFrame(s, Step(s, e));
  }

  lemma ReadingFrame(s: State, e: Event)
    requires e.PinStart? || e.Promote? || e.PromoteDie?
    ensures var t := Step(s, e);
            && t.versions == s.versions && t.templates == s.templates
            && forall p | p in s.pins :: p in t.pins && t.pins[p] == s.pins[p]
  {}

  lemma ShownAfterReading(s: State, e: Event)
    requires LatestShown(s) && LatestSound(Step(s, e)) && (e.PinStart? || e.Promote? || e.PromoteDie?)
    ensures AllShown(Step(s, e))
  {
    ReadingFrame(s, e);
    ShownFrame(s, Step(s, e));
  }

  /** The first update never tears: its pinner is due. */
  lemma ShownAfterFirstUpdate(s: State, p: nat)
    requires LatestShown(s) && p in s.pins && s.pins[p].stage == BeforeVersion && LatestSound(Pinned(s, p))
    ensures AllShown(Pinned(s, p))
  {
    var t := Pinned(s, p);
    forall x | x in t.templates && t.templates[x].latest.Some? ensures ShowsOrWill(t, x, t.templates[x].latest.value) {
      var v := t.templates[x].latest.value;
      if v == s.pins[p].version {
        assert NamesVersion(s, x, v) && NamesVersion(s, s.pins[p].template, v);
        assert Due(t, p, x, v);
      } else {
        CarryShown(s, t, x, v);
      }
    }
  }

  lemma ShownAfterSecondUpdate(s: State, p: nat)
    requires LatestShown(s) && p in s.pins && s.pins[p].stage == BeforeTemplate && LatestSound(Pinned(s, p))
    ensures AllShown(Pinned(s, p)) <==> !PinsOverwritten(s, PinNext(p))
  {
    var t, pin := Pinned(s, p), s.pins[p];
    forall x | x in t.templates && t.templates[x].latest.Some? && (x != pin.template || t.templates[x].latest != Some(pin.version))
      ensures ShowsOrWill(t, x, t.templates[x].latest.value)
    {
      CarryShown(s, t, x, t.templates[x].latest.value);
    }
    if pin.template in s.templates && s.templates[pin.template].latest == Some(pin.version) {
      OwnSecondUpdate(s, p);
    }
  }

  lemma OwnSecondUpdate(s: State, p: nat)
    requires p in s.pins && s.pins[p].stage == BeforeTemplate && s.pins[p].version < |s.versions|
    requires s.pins[p].template in s.templates && s.templates[s.pins[p].template].latest == Some(s.pins[p].version)
    ensures ShowsOrWill(Pinned(s, p), s.pins[p].template, s.pins[p].version) <==>
            SomeDue(s, s.pins[p].template, s.pins[p].version)
  {
    var t, x, v := Pinned(s, p), s.pins[p].template, s.pins[p].version;
    if Shows(t.templates[x], t.versions[v]) { assert Due(s, p, x, v); }
    if q :| Due(t, q, x, v) { assert Due(s, q, x, v); }
    if q :| Due(s, q, x, v) {
      if q == p { assert Shows(t.templates[x], t.versions[v]); } else { assert Due(t, q, x, v); }
    }
  }

  lemma ShownAfterDeath(s: State, p: nat)
    requires LatestShown(s) && LatestSound(Step(s, PinDie(p)))
    ensures AllShown(Step(s, PinDie(p))) <==> !DiesHalfway(s, PinDie(p))
  {
    var t := s.(pins := s.pins - {p});
    assert Step(s, PinDie(p)) == t;
    if DiesHalfway(s, PinDie(p)) {
      var x, v := s.pins[p].template, s.pins[p].version;
      forall q ensures !Due(t, q, x, v) {
        assert Due(t, q, x, v) ==> Due(s, q, x, v);
      }
      assert !ShowsOrWill(t, x, v);
    } else {
      forall x | x in t.templates && t.templates[x].latest.Some? ensures ShowsOrWill(t, x, t.templates[x].latest.value) {
        var v := t.templates[x].latest.value;
        if !Shows(s.templates[x], s.versions[v]) {
          var q :| Due(s, q, x, v) && (p in s.pins && Due(s, p, x, v) ==> q != p);
          assert Due(t, q, x, v);
        }
      }
    }
  }

  lemma ShownAfterPromotion(s: State, p: nat)
    requires LatestShown(s) && p in s.promotions && LatestSound(Promoted(s, p))
    ensures AllShown(Promoted(s, p)) <==> !PromotesUnshown(s, PromoteNext(p))
  {
    var t, promotion := Promoted(s, p), s.promotions[p];
    if promotion.stage != Relabelled || promotion.template !in s.templates {
      ShownFrame(s, t);
    } else {
      forall x | x in t.templates && t.templates[x].latest.Some? && x != promotion.template
        ensures ShowsOrWill(t, x, t.templates[x].latest.value)
      {
        CarryShown(s, t, x, t.templates[x].latest.value);
      }
      SameDue(s, t, promotion.template, promotion.version);
      assert t.templates[promotion.template].latest == Some(promotion.version);
    }
  }

  lemma SameDue(s: State, t: State, x: string, v: nat)
    requires s.pins == t.pins && s.versions == t.versions && v < |s.versions|
    ensures SomeDue(s, x, v) <==> SomeDue(t, x, v)
  {
    forall p ensures Due(s, p, x, v) <==> Due(t, p, x, v) {}
  }

  /** The step leaves every latest version shown, or about to be, exactly when it does not tear. */
  ghost predicate ShownExactly(s: State, e: Event) {
    LatestShown(Step(s, e)) <==> !Tears(s, e)
  }

  lemma ShownByPinner(s: State, e: Event)
    requires LatestShown(s) && LatestSound(Step(s, e)) && (e.PinNext? || e.PinDie?)
    ensures ShownExactly(s, e)
  {
    if e.PinDie? {
      ShownAfterDeath(s, e.pinner);
    } else if e.pinner in s.pins {
      assert Step(s, e) == Pinned(s, e.pinner);
      if s.pins[e.pinner].stage == BeforeVersion {
        ShownAfterFirstUpdate(s, e.pinner);
      } else {
        ShownAfterSecondUpdate(s, e.pinner);
      }
    }
  }

  lemma ShownByPromotion(s: State, p: nat)
    requires LatestShown(s) && LatestSound(Step(s, PromoteNext(p)))
    ensures ShownExactly(s, PromoteNext(p))
  {
    if p in s.promotions {
      assert Step(s, PromoteNext(p)) == Promoted(s, p);
      ShownAfterPromotion(s, p);
    }
  }

  lemma ShownByOthers(s: State, e: Event)
    requires LatestShown(s) && LatestSound(Step(s, e)) && !(e.PinNext? || e.PinDie? || e.PromoteNext?)
    ensures AllShown(Step(s, e))
  {
    if OfBuilds(e) {
      ShownAfterBuildEvent(s, e);
    } else if e.Complete? {
      ShownAfterCompletion(s, e);
    } else if e.RetireVersions? || e.Relabel? {
      ShownAfterVersionEvent(s, e);
    } else if e.CreateTemplate? || e.Archive? {
      ShownAfterTemplateEvent(s, e);
    } else {
      ShownAfterReading(s, e);
    }
  }

  lemma ShownStep(s: State, e: Event)
    requires LatestShown(s)
    ensures ShownExactly(s, e)
  {
    LatestKeeps(s, e);
    if e.PinNext? || e.PinDie? {
      ShownByPinner(s, e);
    } else if e.PromoteNext? {
      ShownByPromotion(s, e.promoter);
    } else {
      ShownByOthers(s, e);
    }
  }

  // Runs.

  /** After every prefix of the run. */
  ghost predicate GoodAlong(s: State, events: seq<Event>, good: State -> bool) {
    good(Run(s, events)) && (events != [] ==> GoodAlong(s, events[..|events| - 1], good))
  }

  /** At some step of the run. */
  ghost predicate BadOnce(s: State, events: seq<Event>, bad: (State, Event) -> bool) {
    events != [] &&
    var less := events[..|events| - 1];
    bad(Run(s, less), events[|events| - 1]) || BadOnce(s, less, bad)
  }

  /** What only bad steps lose holds all along exactly in the runs without a bad step. */
  lemma {:induction false} AllAlong(s: State, events: seq<Event>, good: State -> bool, bad: (State, Event) -> bool)
    requires good(s) && forall u, e | good(u) :: good(Step(u, e)) <==> !bad(u, e)
    ensures GoodAlong(s, events, good) <==> !BadOnce(s, events, bad)
  {
    if events != [] {
      var less, e := events[..|events| - 1], events[|events| - 1];
      AllAlong(s, less, good, bad);
      GoodInTheEnd(s, less, good);
      assert good(Run(s, less)) ==> (good(Step(Run(s, less), e)) <==> !bad(Run(s, less), e));
    }
  }

  lemma GoodInTheEnd(s: State, events: seq<Event>, good: State -> bool)
    ensures GoodAlong(s, events, good) ==> good(Run(s, events))
  {}

  /** In a run every latest version is ready all along exactly when no promotion ends with a version retired meanwhile. */
  lemma ReadyExactly(s: State, events: seq<Event>)
    requires Start(s)
    ensures GoodAlong(s, events, LatestReady) <==> !BadOnce(s, events, PromotesRetired)
  {
    forall u, e | LatestReady(u) ensures LatestReady(Step(u, e)) <==> !PromotesRetired(u, e) { ReadyStep(u, e); }
    AllAlong(s, events, LatestReady, PromotesRetired);
  }

  /**
   In a run every template shows its latest version all along, or has a pinner about to make it do so,
   exactly when no step tears: no promotion of a version that is not shown, no second update over a
   version that somebody else has written meanwhile, no pinner that dies halfway.
   */
  lemma ShownAllAlongExactly(s: State, events: seq<Event>)
    requires Start(s)
    ensures GoodAlong(s, events, LatestShown) <==> !BadOnce(s, events, Tears)
  {
    forall u, e | LatestShown(u) ensures LatestShown(Step(u, e)) <==> !Tears(u, e) { ShownStep(u, e); }
    AllAlong(s, events, LatestShown, Tears);
  }

  /** With no pinner at work, promoting keeps what is shown right exactly when both versions look the same. */
  lemma PromotionTearsExactly(s: State, p: nat)
    requires LatestShown(s) && s.pins == map[] && p in s.promotions && s.promotions[p].stage == Relabelled
    requires s.promotions[p].template in s.templates && s.templates[s.promotions[p].template].latest.Some?
    ensures var latest, promoted := s.versions[s.templates[s.promotions[p].template].latest.value], s.versions[s.promotions[p].version];
            Tears(s, PromoteNext(p)) <==> (latest.image, latest.digest) != (promoted.image, promoted.digest)
  {
    var x, v := s.promotions[p].template, s.promotions[p].version;
    assert !SomeDue(s, x, v) && !SomeDue(s, x, s.templates[x].latest.value);
    assert ShowsOrWill(s, x, s.templates[x].latest.value);
  }

  // Runs of the service's own statements, which add aliases and never take one away.

  /** Ready, and with one of the aliases that retention spares. */
  ghost predicate AllProtected(s: State) {
    forall i | 0 <= i < |s.versions| :: s.versions[i].ready && Protected(s.versions[i].aliases)
  }

  lemma ProtectedAfterUpdate(s: State, p: nat)
    requires AllProtected(s)
    ensures AllProtected(Step(s, PinNext(p)))
  {
    if p in s.pins { assert Step(s, PinNext(p)) == Pinned(s, p); }
  }

  lemma ProtectedAfterPromotion(s: State, p: nat)
    requires AllProtected(s)
    ensures AllProtected(Step(s, PromoteNext(p)))
  {
    if p in s.promotions {
      assert Step(s, PromoteNext(p)) == Promoted(s, p);
      var v := s.promotions[p].version;
      assert v < |s.versions| ==> s.versions[v].ready && Protected(s.versions[v].aliases);
    }
  }

  lemma ProtectedAfterRetention(s: State, aged: set<nat>, used: set<nat>)
    requires AllProtected(s)
    ensures Step(s, RetireVersions(aged, used)) == s
  {
    assert Retired(s, aged, used) == s.versions by {
      forall i | 0 <= i < |s.versions| ensures Kept(s, i, used) {}
    }
  }

  lemma ProtectedAfterCompletion(s: State, e: Event)
    requires AllProtected(s) && e.Complete?
    ensures AllProtected(Step(s, e))
  {
    var t := Step(s, e);
    assert |t.versions| > |s.versions| ==> t.versions[|s.versions|].aliases[0] == "latest";
  }

  lemma ProtectedStep(s: State, e: Event)
    requires AllProtected(s) && !e.Relabel?
    ensures AllProtected(Step(s, e))
  {
    match e {
      case Complete(_, _, _) => ProtectedAfterCompletion(s, e);
      case PinNext(p) => ProtectedAfterUpdate(s, p);
      case PromoteNext(p) => ProtectedAfterPromotion(s, p);
      case RetireVersions(aged, used) => ProtectedAfterRetention(s, aged, used);
      case _ => VersionsStay(s, e);
    }
  }

  lemma VersionsStay(s: State, e: Event)
    requires !(e.Complete? || e.PinNext? || e.PromoteNext? || e.RetireVersions? || e.Relabel?)
    ensures Step(s, e).versions == s.versions
  {}

  /**
   Builds give their version the alias latest, promotions only add aliases, and retention spares it. So
   in every run without changes by hand no version is ever retired, and every latest version is ready.
   */
  lemma {:induction false} NeverRetired(s: State, events: seq<Event>)
    requires Start(s) && AllProtected(s) && forall k | 0 <= k < |events| :: !events[k].Relabel?
    ensures AllProtected(Run(s, events)) && LatestReady(Run(s, events))
    ensures forall aged, used :: Step(Run(s, events), RetireVersions(aged, used)) == Run(s, events)
    decreases |events|
  {
    if events != [] {
      var less := events[..|events| - 1];
      NeverRetired(s, less);
      ProtectedStep(Run(s, less), events[|events| - 1]);
    }
    StartIsSound(s);
    RunKeeps(s, events);
    forall aged, used ensures Step(Run(s, events), RetireVersions(aged, used)) == Run(s, events) {
      ProtectedAfterRetention(Run(s, events), aged, used);
    }
  }

  // Runs with one pinner that does not die, and no promotion that gets to an end.

  predicate Calm(e: Event) {
    && !e.PromoteNext? && !e.PinDie?
    && (e.PinStart? || e.PinNext? ==> e.pinner == 0)
  }

  ghost predicate OnePinner(s: State) {
    && LatestSound(s)
    && (forall p | p in s.pins :: p == 0)
    && (0 in s.pins && s.pins[0].stage == BeforeTemplate ==> Due(s, 0, s.pins[0].template, s.pins[0].version))
  }

  lemma CalmNeverTears(s: State, e: Event)
    requires OnePinner(s) && Calm(e)
    ensures !Tears(s, e)
  {
    if e.PinNext? && 0 in s.pins && s.pins[0].stage == BeforeTemplate {
      assert SomeDue(s, s.pins[0].template, s.pins[0].version);
    }
  }

  lemma CalmVersions(s: State, e: Event)
    requires Calm(e) && !e.PinNext?
    ensures var t := Step(s, e);
            && |s.versions| <= |t.versions|
            && forall i | 0 <= i < |s.versions| :: Shows(Template(Usable, None, t.versions[i].image, t.versions[i].digest), s.versions[i])
  {}

  lemma CalmPins(s: State, e: Event)
    requires Calm(e) && !e.PinNext?
    ensures var t := Step(s, e);
            forall p | p in t.pins :: (p in s.pins && t.pins[p] == s.pins[p]) || (p == 0 && t.pins[p].stage == BeforeVersion)
  {}

  lemma CalmKeepsOnePinner(s: State, e: Event)
    requires OnePinner(s) && Calm(e)
    ensures OnePinner(Step(s, e))
  {
    LatestKeeps(s, e);
    if e.PinNext? {
      if 0 in s.pins {
        assert Step(s, e) == Pinned(s, 0);
        UpdateKeepsOnePinner(s);
      }
    } else {
      CalmVersions(s, e);
      CalmPins(s, e);
      OthersKeepOnePinner(s, Step(s, e));
    }
  }

  lemma UpdateKeepsOnePinner(s: State)
    requires OnePinner(s) && 0 in s.pins && LatestSound(Pinned(s, 0))
    ensures OnePinner(Pinned(s, 0))
  {
    assert NamesVersion(s, s.pins[0].template, s.pins[0].version);
  }

  lemma OthersKeepOnePinner(s: State, t: State)
    requires OnePinner(s) && LatestSound(t) && |s.versions| <= |t.versions|
    requires forall i | 0 <= i < |s.versions| :: Shows(Template(Usable, None, t.versions[i].image, t.versions[i].digest), s.versions[i])
    requires forall p | p in t.pins :: (p in s.pins && t.pins[p] == s.pins[p]) || (p == 0 && t.pins[p].stage == BeforeVersion)
    ensures OnePinner(t)
  {
    if 0 in t.pins && t.pins[0].stage == BeforeTemplate { assert NamesVersion(s, s.pins[0].template, s.pins[0].version); }
  }

  /**
   One pinner whose two updates are interleaved with any number of completions and everything else but
   promotions: once it is not at work, every template shows its latest version, which is ready.
   */
  lemma {:induction false} OnePinnerLeavesLatestShown(s: State, events: seq<Event>)
    requires Start(s) && forall k | 0 <= k < |events| :: Calm(events[k])
    ensures var t := Run(s, events);
            && OnePinner(t) && LatestShown(t) && LatestReady(t)
            && (t.pins == map[] ==> forall x | x in t.templates && t.templates[x].latest.Some? ::
                  Shows(t.templates[x], t.versions[t.templates[x].latest.value]))
    decreases |events|
  {
    if events != [] {
      var less, e := events[..|events| - 1], events[|events| - 1];
      OnePinnerLeavesLatestShown(s, less);
      var u := Run(s, less);
      CalmNeverTears(u, e);
      CalmKeepsOnePinner(u, e);
      ShownStep(u, e);
      ReadyStep(u, e);
    }
    NobodyDue(Run(s, events));
  }

  lemma NobodyDue(s: State)
    requires LatestShown(s)
    ensures s.pins == map[] ==> forall x | x in s.templates && s.templates[x].latest.Some? ::
              Shows(s.templates[x], s.versions[s.templates[x].latest.value])
  {
    forall x | x in s.templates && s.templates[x].latest.Some? && s.pins == map[]
      ensures Shows(s.templates[x], s.versions[s.templates[x].latest.value])
    {
      assert ShowsOrWill(s, x, s.templates[x].latest.value);
    }
  }
}
