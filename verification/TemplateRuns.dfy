/**
 Runs in which a template's latest version is not what it shows, within the reach of the service's own
 statements, and one in which it is not ready, which needs aliases taken away by hand as well.
 */
module TemplateRuns {
  import opened Wrappers
  import opened TemplateQueue
  import opened TemplateQueueSafety
  import opened TemplateLatest
  import ImageReference

  const NOTHING := State(map[], 0, map[], [], map[], map[], map[])

  /** An image and its digest. */
  type Picture = (string, string)

  /** No worker is busy and no build waits. */
  ghost predicate Quiet(s: State) {
    s.workers == map[] && forall b | b in s.builds :: b < s.created && s.builds[b].status != Queued
  }

  lemma RunOn(s: State, events: seq<Event>, e: Event)
    ensures Run(s, events + [e]) == Step(Run(s, events), e)
  {
    assert (events + [e])[..|events|] == events;
  }

  lemma {:induction false} RunAppend(s: State, events: seq<Event>, more: seq<Event>)
    ensures Run(s, events + more) == Run(Run(s, events), more)
    decreases |more|
  {
    if more == [] {
      assert events + more == events;
    } else {
      var less, e := more[..|more| - 1], more[|more| - 1];
      RunAppend(s, events, less);
      RunOn(s, events + less, e);
      assert events + more == events + less + [e];
    }
  }

  lemma RunOne(s: State, a: Event)
    ensures Run(s, [a]) == Step(s, a)
  {
    RunOn(s, [], a);
    assert [] + [a] == [a];
  }

  lemma RunTwo(s: State, a: Event, b: Event)
    ensures Run(s, [a, b]) == Step(Step(s, a), b)
  {
    RunOne(s, a);
    RunOn(s, [a], b);
    assert [a] + [b] == [a, b];
  }

  lemma RunThree(s: State, a: Event, b: Event, c: Event)
    ensures Run(s, [a, b, c]) == Step(Step(Step(s, a), b), c)
  {
    RunTwo(s, a, b);
    RunOn(s, [a, b], c);
    assert [a, b] + [c] == [a, b, c];
  }

  // A build from the queue to its commit.

  function BuildEvents(t: string, picture: Picture): seq<Event> {
    [Enqueue(t, FromImage), Claim(0, FromImage, {}), Complete(0, picture.0, picture.1)]
  }

  function Waiting(s: State, t: string, status: BuildStatus): State {
    s.(builds := s.builds[s.created := Build(t, FromImage, false, status)], created := s.created + 1)
  }

  function Built(s: State, t: string, picture: Picture): State
    requires t in s.templates
  {
    Waiting(s, t, Success).(
    versions := s.versions + [Version(t, Some(s.created), MaxNumber(s.versions, t) + 1, picture.0, Some(picture.1), true, ["latest"])],
    templates := s.templates[t := Template(Usable, Some(|s.versions|), picture.0, Some(picture.1))])
  }

  lemma ClaimStep(s: State, t: string)
    requires Quiet(s)
    ensures Step(Waiting(s, t, Queued), Claim(0, FromImage, {})) == Waiting(s, t, Building).(workers := map[0 := s.created])
  {
    var u := Waiting(s, t, Queued);
    OldestIs(u, s.created);
    assert u.builds[s.created := Build(t, FromImage, false, Building)] == s.builds[s.created := Build(t, FromImage, false, Building)];
  }

  /** The only build that waits is the one that is claimed. */
  lemma OldestIs(s: State, b: nat)
    requires b in s.builds && b < s.created && Claimable(s.builds[b], FromImage)
    requires forall c | c in s.builds && c != b :: s.builds[c].status != Queued
    ensures Oldest(s, FromImage, {}, 0) == Some(b)
  {
    var found := Oldest(s, FromImage, {}, 0);
  }

  lemma CompleteStep(s: State, t: string, picture: Picture)
    requires Quiet(s) && t in s.templates && s.templates[t].status != Archived
    ensures Step(Waiting(s, t, Building).(workers := map[0 := s.created]), Complete(0, picture.0, picture.1)) == Built(s, t, picture)
  {
    var u := Waiting(s, t, Building).(workers := map[0 := s.created]);
    assert Completed(u, s.created, picture.0, picture.1).builds == Waiting(s, t, Success).builds;
    assert u.workers - {0} == map[];
  }

  lemma BuildOnce(s: State, t: string, picture: Picture)
    requires Quiet(s) && t in s.templates && s.templates[t].status != Archived
    ensures Run(s, BuildEvents(t, picture)) == Built(s, t, picture) && Quiet(Built(s, t, picture))
  {
    var e := BuildEvents(t, picture);
    RunThree(s, e[0], e[1], e[2]);
    ClaimStep(s, t);
    CompleteStep(s, t, picture);
  }

  function TwoBuildEvents(t: string, image: string, first: Picture, second: Picture): seq<Event> {
    [CreateTemplate(t, image)] + BuildEvents(t, first) + BuildEvents(t, second)
  }

  function TwoVersions(t: string, first: Picture, second: Picture): seq<Version> {
    [Version(t, Some(0), 1, first.0, Some(first.1), true, ["latest"]), Version(t, Some(1), 2, second.0, Some(second.1), true, ["latest"])]
  }

  lemma FirstBuild(t: string, image: string, first: Picture)
    ensures var s := Run(NOTHING, [CreateTemplate(t, image)] + BuildEvents(t, first));
            && Quiet(s) && s.pins == map[] && s.promotions == map[] && s.created == 1
            && s.templates == map[t := Template(Usable, Some(0), first.0, Some(first.1))]
            && s.versions == [Version(t, Some(0), 1, first.0, Some(first.1), true, ["latest"])]
  {
    RunOne(NOTHING, CreateTemplate(t, image));
    RunAppend(NOTHING, [CreateTemplate(t, image)], BuildEvents(t, first));
    var s := NOTHING.(templates := map[t := Template(Preparing, None, image, None)]);
    assert Step(NOTHING, CreateTemplate(t, image)) == s;
    BuildOnce(s, t, first);
    assert MaxNumber([], t) == 0;
  }

  lemma OneIsMax(versions: seq<Version>, t: string)
    requires |versions| == 1 && versions[0].template == t && versions[0].number == 1
    ensures MaxNumber(versions, t) == 1
  {
    assert versions[..0] == [] && MaxNumber([], t) == 0;
  }

  /** Two builds of one template. */
  lemma TwoBuilds(t: string, image: string, first: Picture, second: Picture)
    ensures var s := Run(NOTHING, TwoBuildEvents(t, image, first, second));
            && s.pins == map[] && s.promotions == map[]
            && s.templates == map[t := Template(Usable, Some(1), second.0, Some(second.1))]
            && s.versions == TwoVersions(t, first, second)
  {
    var events := [CreateTemplate(t, image)] + BuildEvents(t, first);
    FirstBuild(t, image, first);
    RunAppend(NOTHING, events, BuildEvents(t, second));
    SecondBuild(Run(NOTHING, events), t, first, second);
  }

  lemma SecondBuild(s: State, t: string, first: Picture, second: Picture)
    requires Quiet(s) && s.pins == map[] && s.promotions == map[] && s.created == 1
    requires s.templates == map[t := Template(Usable, Some(0), first.0, Some(first.1))]
    requires s.versions == [Version(t, Some(0), 1, first.0, Some(first.1), true, ["latest"])]
    ensures var u := Run(s, BuildEvents(t, second));
            && u.pins == map[] && u.promotions == map[]
            && u.templates == map[t := Template(Usable, Some(1), second.0, Some(second.1))]
            && u.versions == TwoVersions(t, first, second)
  {
    BuildOnce(s, t, second);
    OneIsMax(s.versions, t);
  }

  lemma NothingIsAStart()
    ensures Start(NOTHING)
  {}

  // Promotions.

  function Promoting(s: State, stage: PromotionStage, t: string, alias: string): State {
    s.(promotions := map[0 := Promotion(stage, t, 0, alias)])
  }

  lemma PromoteStep(s: State, t: string, alias: string)
    requires s.promotions == map[] && t in s.templates && s.templates[t].status != Archived
    ensures Step(s, Promote(0, t, 0, alias)) == Promoting(s, Found, t, alias)
  {}

  lemma CheckStep(s: State, t: string, alias: string)
    requires s.versions != [] && s.versions[0].template == t && s.versions[0].ready
    ensures Step(Promoting(s, Found, t, alias), PromoteNext(0)) == Promoting(s, Checked, t, alias)
  {
    assert Promoted(Promoting(s, Found, t, alias), 0) == Promoting(s, Checked, t, alias);
  }

  /** A promotion up to its updates, of version 0. */
  lemma PromotionChecks(s: State, t: string, alias: string)
    requires s.promotions == map[] && t in s.templates && s.templates[t].status != Archived
    requires s.versions != [] && s.versions[0].template == t && s.versions[0].ready
    ensures Run(s, [Promote(0, t, 0, alias), PromoteNext(0)]) == Promoting(s, Checked, t, alias)
  {
    RunTwo(s, Promote(0, t, 0, alias), PromoteNext(0));
    PromoteStep(s, t, alias);
    CheckStep(s, t, alias);
  }

  lemma PromotionUpdates(s: State, t: string, alias: string)
    requires s.versions != [] && t in s.templates && s.promotions == map[0 := Promotion(Checked, t, 0, alias)]
    ensures var u := Run(s, [PromoteNext(0), PromoteNext(0)]);
            && u.pins == s.pins && u.promotions == map[] && |u.versions| == |s.versions|
            && u.versions[0] == s.versions[0].(aliases := WithAlias(s.versions[0].aliases, alias))
            && u.templates == s.templates[t := s.templates[t].(latest := Some(0))]
  {
    RunTwo(s, PromoteNext(0), PromoteNext(0));
    var u := Promoted(s, 0);
    assert u.promotions == map[0 := Promotion(Relabelled, t, 0, alias)];
    assert Promoted(u, 0).promotions == map[];
  }

  /** Promoting the first of two builds leaves the template showing the image of the second. */
  lemma PromotionLeavesTheOtherImage(t: string, image: string, first: Picture, second: Picture, alias: string) returns (events: seq<Event>)
    requires first != second
    ensures Start(NOTHING) && BadOnce(NOTHING, events, Tears)
    ensures var s := Run(NOTHING, events);
            && s.pins == map[] && s.promotions == map[] && t in s.templates
            && s.templates[t].latest == Some(0) && |s.versions| == 2
            && (s.versions[0].image, s.versions[0].digest) == (first.0, Some(first.1))
            && (s.templates[t].image, s.templates[t].digest) == (second.0, Some(second.1))
  {
    var built := TwoBuildEvents(t, image, first, second);
    var checks, updates := [Promote(0, t, 0, alias), PromoteNext(0)], [PromoteNext(0), PromoteNext(0)];
    events := built + checks + updates;
    NothingIsAStart();
    TwoBuilds(t, image, first, second);
    RunAppend(NOTHING, built, checks);
    RunAppend(NOTHING, built + checks, updates);
    PromotionChecks(Run(NOTHING, built), t, alias);
    PromotionUpdates(Run(NOTHING, built + checks), t, alias);
    NotShown(Run(NOTHING, events), t);
    ShownAllAlongExactly(NOTHING, events);
    GoodInTheEnd(NOTHING, events, LatestShown);
  }

  lemma NotShown(s: State, t: string)
    requires s.pins == map[] && t in s.templates && s.templates[t].latest == Some(0) && s.versions != []
    requires !Shows(s.templates[t], s.versions[0])
    ensures !LatestShown(s)
  {
    assert !SomeDue(s, t, 0) && !ShowsOrWill(s, t, 0);
  }

  /**
   A retention pass between a promotion's check and its updates leaves the latest version retired, once
   somebody has taken the aliases from the version.
   */
  lemma RetentionOvertakesPromotion(t: string, image: string, first: Picture, second: Picture, alias: string) returns (events: seq<Event>)
    ensures Start(NOTHING) && BadOnce(NOTHING, events, PromotesRetired)
    ensures var s := Run(NOTHING, events);
            && t in s.templates && s.templates[t].latest == Some(0) && |s.versions| == 2 && !s.versions[0].ready
  {
    var built := TwoBuildEvents(t, image, first, second);
    var relabel, checks := [Relabel(0, [])], [Promote(0, t, 0, alias), PromoteNext(0)];
    var retire, updates := [RetireVersions({0}, {})], [PromoteNext(0), PromoteNext(0)];
    events := built + relabel + checks + retire + updates;
    NothingIsAStart();
    TwoBuilds(t, image, first, second);
    var s0 := Run(NOTHING, built);
    RunAppend(NOTHING, built, relabel);
    RunOne(s0, Relabel(0, []));
    var s1 := Step(s0, Relabel(0, []));
    RunAppend(NOTHING, built + relabel, checks);
    PromotionChecks(s1, t, alias);
    var s2 := Promoting(s1, Checked, t, alias);
    RunAppend(NOTHING, built + relabel + checks, retire);
    RunOne(s2, RetireVersions({0}, {}));
    var s3 := Step(s2, RetireVersions({0}, {}));
    FirstIsRetired(s2, t);
    RunAppend(NOTHING, built + relabel + checks + retire, updates);
    PromotionUpdates(s3, t, alias);
    NotReady(Run(NOTHING, events), t);
    ReadyExactly(NOTHING, events);
    GoodInTheEnd(NOTHING, events, LatestReady);
  }

  lemma FirstIsRetired(s: State, t: string)
    requires s.versions != [] && s.versions[0].template == t && s.versions[0].ready && s.versions[0].aliases == []
    requires t in s.templates && s.templates[t].latest != Some(0)
    ensures var u := Step(s, RetireVersions({0}, {}));
            && u.templates == s.templates && u.promotions == s.promotions && |u.versions| == |s.versions| && !u.versions[0].ready
  {
    assert !Kept(s, 0, {});
  }

  lemma NotReady(s: State, t: string)
    requires t in s.templates && s.templates[t].latest == Some(0) && s.versions != [] && !s.versions[0].ready
    ensures !LatestReady(s)
  {}

  // A seeded template whose only version has no digest yet.

  function Seeded(t: string, image: string): State {
    NOTHING.(templates := map[t := Template(Usable, Some(0), image, None)],
    versions := [Version(t, None, 1, image, None, true, ["latest", "stable"])])
  }

  lemma SeededIsAStart(t: string, image: string)
    ensures Start(Seeded(t, image))
  {
    var s := Seeded(t, image);
    assert s.versions[..0] == [];
    assert ShowsOrWill(s, t, 0);
  }

  /** What a pinner of the seeded version is going to write. */
  function SeedPin(t: string, image: string, resolved: string): Pin
    requires ImageReference.Parse(image).Ok?
  {
    var pinned := ImageReference.Ensured(image, None, resolved).value;
    Pin(BeforeVersion, t, 0, pinned.0, pinned.1.value)
  }

  lemma SeedIsPlanned(s: State, t: string, image: string, resolved: string)
    requires ImageReference.Parse(image).Ok?
    requires s.versions == Seeded(t, image).versions && s.templates == Seeded(t, image).templates
    ensures Planned(s, t, 0, resolved) == Some(SeedPin(t, image, resolved))
  {}

  lemma StartStep(s: State, pinner: nat, t: string, image: string, resolved: string, p: Pin)
    requires ImageReference.Parse(image).Ok? && p == SeedPin(t, image, resolved) && pinner !in s.pins
    requires s.versions == Seeded(t, image).versions && s.templates == Seeded(t, image).templates
    ensures Step(s, PinStart(pinner, t, 0, resolved)) == s.(pins := s.pins[pinner := p])
  {
    SeedIsPlanned(s, t, image, resolved);
    StepPlans(s, pinner, t, resolved);
  }

  lemma StepPlans(s: State, pinner: nat, t: string, resolved: string)
    ensures Step(s, PinStart(pinner, t, 0, resolved)) == Planning(s, pinner, Planned(s, t, 0, resolved))
  {}

  /** The one version of the seeded template, written by p. */
  function Written(t: string, image: string, p: Pin): State {
    Seeded(t, image).(versions := [Version(t, None, 1, p.image, Some(p.digest), true, ["latest", "stable"])])
  }

  lemma FirstUpdateStep(s: State, pinner: nat, t: string, image: string, p: Pin)
    requires pinner in s.pins && s.pins[pinner] == p && p.stage == BeforeVersion && p.version == 0
    requires |s.versions| == 1 && s.versions[0].(image := image, digest := None) == Seeded(t, image).versions[0]
    requires s.(versions := [], pins := map[]) == Seeded(t, image).(versions := [])
    ensures Step(s, PinNext(pinner)) == Written(t, image, p).(pins := s.pins[pinner := p.(stage := BeforeTemplate)])
  {
    assert Step(s, PinNext(pinner)) == Pinned(s, pinner);
    assert Pinned(s, pinner).versions == Written(t, image, p).versions;
  }

  lemma SecondUpdateStep(s: State, pinner: nat, p: Pin)
    requires pinner in s.pins && s.pins[pinner] == p && p.stage == BeforeTemplate && p.template in s.templates
    ensures var u := Step(s, PinNext(pinner));
            && u.pins == s.pins - {pinner} && u.versions == s.versions && p.template in u.templates
            && u.templates[p.template] ==
               if s.templates[p.template].latest == Some(p.version)
               then s.templates[p.template].(image := p.image, digest := Some(p.digest))
               else s.templates[p.template]
  {
    assert Step(s, PinNext(pinner)) == Pinned(s, pinner);
  }

  /** A pinner between its updates. */
  lemma FirstUpdate(t: string, image: string, resolved: string, p: Pin)
    requires ImageReference.Parse(image).Ok? && p == SeedPin(t, image, resolved)
    ensures Run(Seeded(t, image), [PinStart(0, t, 0, resolved), PinNext(0)]) ==
            Written(t, image, p).(pins := map[0 := p.(stage := BeforeTemplate)])
  {
    var s := Seeded(t, image);
    RunTwo(s, PinStart(0, t, 0, resolved), PinNext(0));
    StartStep(s, 0, t, image, resolved, p);
    FirstUpdateStep(s.(pins := s.pins[0 := p]), 0, t, image, p);
  }

  /**
   Why the second update is guarded: a build that commits between the updates, with any other image or
   digest, is shown by the template, and would not be any more after the second update without its guard.
   */
  lemma GuardPreventsStaleWrite(t: string, image: string, resolved: string, built: Picture) returns (events: seq<Event>)
    requires ImageReference.Parse(image).Ok?
    requires (built.0, Some(built.1)) != ImageReference.Ensured(image, None, resolved).value
    ensures Start(Seeded(t, image))
    ensures var s := Run(Seeded(t, image), events);
            && 0 in s.pins && s.pins[0].stage == BeforeTemplate && s.pins[0].template == t && t in s.templates
            && s.templates[t].latest == Some(1) && |s.versions| == 2 && Shows(s.templates[t], s.versions[1])
            && !Shows(s.templates[t].(image := s.pins[0].image, digest := Some(s.pins[0].digest)), s.versions[1])
            && t in Step(s, PinNext(0)).templates && Shows(Step(s, PinNext(0)).templates[t], s.versions[1])
  {
    var starts := [PinStart(0, t, 0, resolved), PinNext(0)];
    var builds := BuildEvents(t, built);
    events := starts + builds;
    var p := SeedPin(t, image, resolved);
    SeededIsAStart(t, image);
    FirstUpdate(t, image, resolved, p);
    RunAppend(Seeded(t, image), starts, builds);
    BuildOverPin(t, image, p, built);
  }

  lemma BuildOverPin(t: string, image: string, p: Pin, built: Picture)
    requires p.template == t && p.version == 0 && (p.image, p.digest) != built
    ensures var s := Run(Written(t, image, p).(pins := map[0 := p.(stage := BeforeTemplate)]), BuildEvents(t, built));
            && s.pins == map[0 := p.(stage := BeforeTemplate)] && t in s.templates
            && s.templates[t].latest == Some(1) && |s.versions| == 2 && Shows(s.templates[t], s.versions[1])
            && !Shows(s.templates[t].(image := p.image, digest := Some(p.digest)), s.versions[1])
            && t in Step(s, PinNext(0)).templates && Shows(Step(s, PinNext(0)).templates[t], s.versions[1])
  {
    var u := Written(t, image, p).(pins := map[0 := p.(stage := BeforeTemplate)]);
    BuildOnce(u, t, built);
    SecondUpdateStep(Built(u, t, built), 0, p.(stage := BeforeTemplate));
  }

  /** Two pinners that have both written the version, q last. */
  lemma BothFirstUpdates(t: string, image: string, a: string, b: string, p: Pin, q: Pin)
    requires ImageReference.Parse(image).Ok? && p == SeedPin(t, image, a) && q == SeedPin(t, image, b)
    ensures Run(Seeded(t, image), [PinStart(0, t, 0, a), PinStart(1, t, 0, b)] + [PinNext(0), PinNext(1)]) ==
            Written(t, image, q).(pins := map[0 := p.(stage := BeforeTemplate), 1 := q.(stage := BeforeTemplate)])
  {
    var s := Seeded(t, image);
    RunAppend(s, [PinStart(0, t, 0, a), PinStart(1, t, 0, b)], [PinNext(0), PinNext(1)]);
    RunTwo(s, PinStart(0, t, 0, a), PinStart(1, t, 0, b));
    StartStep(s, 0, t, image, a, p);
    var s1 := s.(pins := s.pins[0 := p]);
    StartStep(s1, 1, t, image, b, q);
    BothWrite(t, image, p, q);
    assert s1.(pins := s1.pins[1 := q]) == s.(pins := map[0 := p, 1 := q]);
  }

  lemma BothWrite(t: string, image: string, p: Pin, q: Pin)
    requires p.template == t && p.version == 0 && p.stage == BeforeVersion
    requires q.template == t && q.version == 0 && q.stage == BeforeVersion
    ensures Run(Seeded(t, image).(pins := map[0 := p, 1 := q]), [PinNext(0), PinNext(1)]) ==
            Written(t, image, q).(pins := map[0 := p.(stage := BeforeTemplate), 1 := q.(stage := BeforeTemplate)])
  {
    var s := Seeded(t, image).(pins := map[0 := p, 1 := q]);
    RunTwo(s, PinNext(0), PinNext(1));
    FirstUpdateStep(s, 0, t, image, p);
    var s1 := Written(t, image, p).(pins := map[0 := p.(stage := BeforeTemplate), 1 := q]);
    assert s.pins[0 := p.(stage := BeforeTemplate)] == s1.pins;
    FirstUpdateStep(s1, 1, t, image, q);
    assert s1.pins[1 := q.(stage := BeforeTemplate)] == map[0 := p.(stage := BeforeTemplate), 1 := q.(stage := BeforeTemplate)];
  }

  lemma BothSecondUpdates(t: string, image: string, p: Pin, q: Pin)
    requires p.template == t && p.version == 0 && q.template == t && q.version == 0
    requires p.stage == BeforeTemplate && q.stage == BeforeTemplate
    ensures var s := Run(Written(t, image, q).(pins := map[0 := p, 1 := q]), [PinNext(1), PinNext(0)]);
            && s.pins == map[] && t in s.templates && s.templates[t].latest == Some(0) && |s.versions| == 1
            && s.versions[0].image == q.image && s.versions[0].digest == Some(q.digest)
            && s.templates[t].image == p.image && s.templates[t].digest == Some(p.digest)
  {
    var s := Written(t, image, q).(pins := map[0 := p, 1 := q]);
    RunTwo(s, PinNext(1), PinNext(0));
    SecondUpdateStep(s, 1, q);
    assert s.pins - {1} == map[0 := p];
    SecondUpdateStep(Step(s, PinNext(1)), 0, p);
  }

  /**
   Two pinners of one version, whose registry answers differ because the tag has moved: when the first
   to write the version is the last to write the template, the two rows end up with different digests.
   */
  lemma TwoPinnersDisagree(t: string, image: string, a: string, b: string) returns (events: seq<Event>)
    requires ImageReference.Parse(image).Ok?
    requires ImageReference.Ensured(image, None, a).value != ImageReference.Ensured(image, None, b).value
    ensures Start(Seeded(t, image)) && BadOnce(Seeded(t, image), events, Tears)
    ensures var s := Run(Seeded(t, image), events);
            && s.pins == map[] && t in s.templates && s.templates[t].latest == Some(0) && |s.versions| == 1
            && (s.versions[0].image, s.versions[0].digest) == ImageReference.Ensured(image, None, b).value
            && (s.templates[t].image, s.templates[t].digest) == ImageReference.Ensured(image, None, a).value
  {
    var firsts := [PinStart(0, t, 0, a), PinStart(1, t, 0, b)] + [PinNext(0), PinNext(1)];
    var seconds := [PinNext(1), PinNext(0)];
    var p, q := SeedPin(t, image, a), SeedPin(t, image, b);
    events := firsts + seconds;
    SeededIsAStart(t, image);
    BothFirstUpdates(t, image, a, b, p, q);
    RunAppend(Seeded(t, image), firsts, seconds);
    BothSecondUpdates(t, image, p.(stage := BeforeTemplate), q.(stage := BeforeTemplate));
    assert Written(t, image, q) == Written(t, image, q.(stage := BeforeTemplate));
    NotShown(Run(Seeded(t, image), events), t);
    ShownAllAlongExactly(Seeded(t, image), events);
    GoodInTheEnd(Seeded(t, image), events, LatestShown);
  }
}
