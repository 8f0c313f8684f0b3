/** What every interleaving of the template queue keeps. */
module TemplateQueueSafety {
  import opened Wrappers
  import opened TemplateQueue

  // Numbers.

  lemma {:induction false} MaxIsCount(versions: seq<Version>, template: string)
    requires Numbered(versions)
    ensures MaxNumber(versions, template) == Count(versions, template)
  {
    if versions != [] {
      var k := |versions| - 1;
      NumberedPrefix(versions, k);
      MaxIsCount(versions[..k], template);
    }
  }

  lemma NumberedPrefix(versions: seq<Version>, k: nat)
    requires Numbered(versions) && k <= |versions|
    ensures Numbered(versions[..k])
  {
    forall i | 0 <= i < k ensures versions[..k][i].number == Count(versions[..k][..i], versions[..k][i].template) + 1 {
      assert versions[..k][..i] == versions[..i];
    }
  }

  lemma NumberedAppend(versions: seq<Version>, v: Version)
    requires Numbered(versions) && v.number == MaxNumber(versions, v.template) + 1
    ensures Numbered(versions + [v])
  {
    MaxIsCount(versions, v.template);
    var all := versions + [v];
    forall i | 0 <= i < |all| ensures all[i].number == Count(all[..i], all[i].template) + 1 {
      assert all[..i] == versions[..i];
      assert versions[..|versions|] == versions;
    }
  }

  /** Changing anything but number and template keeps the numbering. */
  lemma NumberedSame(a: seq<Version>, b: seq<Version>)
    requires Numbered(a) && |a| == |b|
    requires forall i | 0 <= i < |a| :: a[i].number == b[i].number && a[i].template == b[i].template
    ensures Numbered(b)
  {
    forall i | 0 <= i < |b| ensures b[i].number == Count(b[..i], b[i].template) + 1 {
      CountSame(a[..i], b[..i], b[i].template);
    }
  }

  lemma {:induction false} CountSame(a: seq<Version>, b: seq<Version>, template: string)
    requires |a| == |b| && forall i | 0 <= i < |a| :: a[i].template == b[i].template
    ensures Count(a, template) == Count(b, template)
  {
    if a != [] { CountSame(a[..|a| - 1], b[..|b| - 1], template); }
  }

  ghost predicate HasNumber(versions: seq<Version>, template: string, n: nat) {
    exists i :: 0 <= i < |versions| && versions[i].template == template && versions[i].number == n
  }

  lemma {:induction false} NumbersAreDense(versions: seq<Version>, template: string, n: nat)
    requires Numbered(versions) && 1 <= n <= Count(versions, template)
    ensures HasNumber(versions, template, n)
  {
    var k := |versions| - 1;
    if n == Count(versions, template) && versions[k].template == template {
      assert versions[k].number == n;
    } else {
      NumberedPrefix(versions, k);
      NumbersAreDense(versions[..k], template, n);
      var i :| 0 <= i < k && versions[..k][i].template == template && versions[..k][i].number == n;
      assert versions[i].template == template;
    }
  }

  lemma {:induction false} CountGrows(versions: seq<Version>, template: string, i: nat, j: nat)
    requires i <= j <= |versions|
    ensures Count(versions[..i], template) <= Count(versions[..j], template)
    decreases j
  {
    if i < j {
      assert versions[..j][..j - 1] == versions[..j - 1];
      CountGrows(versions, template, i, j - 1);
    }
  }

  lemma NumbersAreCounted(versions: seq<Version>, i: nat)
    requires Numbered(versions) && i < |versions|
    ensures 1 <= versions[i].number <= Count(versions, versions[i].template)
  {
    var t := versions[i].template;
    assert versions[..i + 1][..i] == versions[..i];
    CountGrows(versions, t, i + 1, |versions|);
    assert versions[..|versions|] == versions;
  }

  lemma NumbersIncrease(versions: seq<Version>, i: nat, j: nat)
    requires Numbered(versions) && i < j < |versions| && versions[i].template == versions[j].template
    ensures versions[i].number < versions[j].number
  {
    var t := versions[i].template;
    assert versions[..i + 1][..i] == versions[..i];
    CountGrows(versions, t, i + 1, j);
  }

  /** Steps of builds other than completion. */
  predicate OfBuilds(e: Event) {
    e.Enqueue? || e.Upload? || e.Claim? || e.Fail? || e.Die? || e.Cancel? || e.DeleteBuilds?
  }

  // Version rows.

  /** Number, template and build of a version never change. */
  ghost predicate SameRows(a: seq<Version>, b: seq<Version>) {
    && |a| == |b|
    && forall i | 0 <= i < |a| :: b[i].number == a[i].number && b[i].template == a[i].template && b[i].build == a[i].build
  }

  lemma PinRows(s: State, p: nat)
    ensures SameRows(s.versions, Step(s, PinNext(p)).versions)
  {
    if p in s.pins { assert Step(s, PinNext(p)) == Pinned(s, p); }
  }

  lemma PromotionRows(s: State, p: nat)
    ensures SameRows(s.versions, Step(s, PromoteNext(p)).versions)
  {
    if p in s.promotions { assert Step(s, PromoteNext(p)) == Promoted(s, p); }
  }

  lemma StepRows(s: State, e: Event)
    requires !e.Complete?
    ensures SameRows(s.versions, Step(s, e).versions)
  {
    if e.PinNext? { PinRows(s, e.pinner); }
    if e.PromoteNext? { PromotionRows(s, e.promoter); }
  }

  // Each part of the invariant, step by step.

  lemma OneMoreNamed(versions: seq<Version>, v: Version, c: nat)
    ensures NamedByVersion(versions + [v], c) <==> NamedByVersion(versions, c) || v.build == Some(c)
  {
    var all := versions + [v];
    if NamedByVersion(versions, c) {
      var i :| 0 <= i < |versions| && versions[i].build == Some(c);
      assert all[i].build == Some(c);
    }
    if v.build == Some(c) { assert all[|versions|].build == Some(c); }
  }

  /** The build that succeeds was not successful before, so no version named it. */
  lemma CompletionIsSound(s: State, b: nat, image: string, digest: string)
    requires BuildsSound(s) && b in s.builds && s.builds[b].template in s.templates
    requires s.builds[b].status != Success && s.builds[b].status != Canceled
    ensures BuildsSound(Completed(s, b, image, digest))
  {
    var t := Completed(s, b, image, digest);
    var v := t.versions[|s.versions|];
    assert t.versions == s.versions + [v] && v.build == Some(b);
    forall c | c in t.builds && t.builds[c].status == Success ensures NamedByVersion(t.versions, c) {
      OneMoreNamed(s.versions, v, c);
    }
  }

  lemma {:induction false} CompletedKeepsBuilds(s: State, w: nat, image: string, digest: string)
    requires Inv(s) && w in s.workers && s.workers[w] in s.builds && s.builds[s.workers[w]].template in s.templates
    ensures BuildsSound(Step(s, Complete(w, image, digest)))
  {
    var b := s.workers[w];
    if s.builds[b].status != Canceled { CompletionIsSound(s, b, image, digest); }
    SameTablesSound(Completed(s, b, image, digest), Step(s, Complete(w, image, digest)));
  }

  lemma SameTablesSound(s: State, t: State)
    requires BuildsSound(s) && t.builds == s.builds && t.versions == s.versions && t.created == s.created
    ensures BuildsSound(t)
  {}

  lemma NamesCarryOver(a: seq<Version>, b: seq<Version>)
    requires |a| == |b| && forall i | 0 <= i < |a| :: a[i].build == b[i].build
    ensures forall c :: NamedByVersion(a, c) <==> NamedByVersion(b, c)
  {
    forall c: nat ensures NamedByVersion(a, c) <==> NamedByVersion(b, c) {
      if NamedByVersion(a, c) {
        var i :| 0 <= i < |a| && a[i].build == Some(c);
        assert b[i].build == Some(c);
      }
      if NamedByVersion(b, c) {
        var i :| 0 <= i < |b| && b[i].build == Some(c);
        assert a[i].build == Some(c);
      }
    }
  }

  /** Builds may come, go and change, as long as success is neither gained nor lost. */
  lemma BuildsFrame(s: State, t: State)
    requires BuildsSound(s) && |s.versions| == |t.versions| && s.created <= t.created
    requires forall i | 0 <= i < |s.versions| :: s.versions[i].build == t.versions[i].build && s.versions[i].template == t.versions[i].template
    requires forall b | b in t.builds && b in s.builds ::
               t.builds[b].template == s.builds[b].template && (t.builds[b].status == Success <==> s.builds[b].status == Success)
    requires forall b | b in t.builds && b !in s.builds :: b < t.created && t.builds[b].status != Success
    requires forall b | b in s.builds && NamedByVersion(s.versions, b) :: b in t.builds
    ensures BuildsSound(t)
  {
    NamesCarryOver(s.versions, t.versions);
    forall i | 0 <= i < |t.versions| && t.versions[i].build.Some?
      ensures t.versions[i].build.value in t.builds && t.builds[t.versions[i].build.value].status == Success
      ensures t.builds[t.versions[i].build.value].template == t.versions[i].template
    {
      assert NamedByVersion(s.versions, s.versions[i].build.value);
    }
  }

  lemma NamedIsSuccess(s: State, b: nat)
    requires BuildsSound(s) && NamedByVersion(s.versions, b)
    ensures b in s.builds && s.builds[b].status == Success
  {
    var i :| 0 <= i < |s.versions| && s.versions[i].build == Some(b);
    assert s.versions[i].build.value == b;
  }

  /** One build row is written, no version. */
  lemma BuildRowKeeps(s: State, t: State, b: nat)
    requires BuildsSound(s) && t.versions == s.versions && s.created <= t.created && b < t.created
    requires b in t.builds && t.builds == s.builds[b := t.builds[b]]
    requires b in s.builds ==> s.builds[b].status != Success && t.builds[b].template == s.builds[b].template
    requires t.builds[b].status != Success
    ensures BuildsSound(t)
  {
    BuildsFrame(s, t);
  }

  lemma DeleteKeepsBuilds(s: State, aged: set<nat>)
    requires BuildsSound(s)
    ensures BuildsSound(Step(s, DeleteBuilds(aged)))
  {
    forall b | b in s.builds && NamedByVersion(s.versions, b) ensures b in Step(s, DeleteBuilds(aged)).builds {}
    BuildsFrame(s, Step(s, DeleteBuilds(aged)));
  }

  lemma VersionRowsKeepBuilds(s: State, t: State)
    requires BuildsSound(s) && t.builds == s.builds && t.created == s.created && |t.versions| == |s.versions|
    requires forall i | 0 <= i < |s.versions| :: s.versions[i].build == t.versions[i].build && s.versions[i].template == t.versions[i].template
    ensures BuildsSound(t)
  {
    forall b | b in s.builds && NamedByVersion(s.versions, b) ensures b in t.builds {}
    BuildsFrame(s, t);
  }

  lemma BuildEventsKeepBuilds(s: State, e: Event)
    requires Inv(s) && (e.Enqueue? || e.Upload? || e.Claim? || e.Fail? || e.Cancel?)
    ensures BuildsSound(Step(s, e))
  {
    var t := Step(s, e);
    if t.builds != s.builds {
      match e {
        case Enqueue(_, _) => BuildRowKeeps(s, t, s.created);
        case Upload(b) => BuildRowKeeps(s, t, b);
        case Claim(_, source, locked) => BuildRowKeeps(s, t, Oldest(s, source, locked, 0).value);
        case Fail(w) => BuildRowKeeps(s, t, s.workers[w]);
        case Cancel(b) => BuildRowKeeps(s, t, b);
      }
    }
  }

  /** Steps of templates, versions, pinners and promotions. */
  predicate NotOfBuilds(e: Event) {
    !(OfBuilds(e) || e.Complete?)
  }

  ghost predicate SameBuilds(s: State, t: State) {
    t.builds == s.builds && t.created == s.created && t.workers == s.workers
  }

  lemma PinnersAndPromotersFrame(s: State, e: Event)
    requires e.PinStart? || e.PinNext? || e.PinDie? || e.Promote? || e.PromoteNext? || e.PromoteDie?
    ensures SameBuilds(s, Step(s, e))
  {
    if e.PinNext? && e.pinner in s.pins { assert Step(s, e) == Pinned(s, e.pinner); }
    if e.PromoteNext? && e.promoter in s.promotions { assert Step(s, e) == Promoted(s, e.promoter); }
  }

  lemma TemplatesAndVersionsFrame(s: State, e: Event)
    requires e.CreateTemplate? || e.Archive? || e.Relabel? || e.RetireVersions?
    ensures SameBuilds(s, Step(s, e))
  {}

  lemma OtherEventsFrame(s: State, e: Event)
    requires NotOfBuilds(e)
    ensures SameBuilds(s, Step(s, e))
  {
    if e.CreateTemplate? || e.Archive? || e.Relabel? || e.RetireVersions? {
      TemplatesAndVersionsFrame(s, e);
    } else {
      PinnersAndPromotersFrame(s, e);
    }
  }

  lemma OtherEventsKeepBuilds(s: State, e: Event)
    requires BuildsSound(s) && NotOfBuilds(e)
    ensures BuildsSound(Step(s, e))
  {
    StepRows(s, e);
    OtherEventsFrame(s, e);
    VersionRowsKeepBuilds(s, Step(s, e));
  }

  lemma DeathKeepsBuilds(s: State, w: nat)
    requires BuildsSound(s)
    ensures BuildsSound(Step(s, Die(w)))
  {
    VersionRowsKeepBuilds(s, Step(s, Die(w)));
  }

  lemma BuildsKeep(s: State, e: Event)
    requires Inv(s)
    ensures BuildsSound(Step(s, e))
  {
    if e.Complete? {
      if e.worker in s.workers && s.workers[e.worker] in s.builds && s.builds[s.workers[e.worker]].template in s.templates {
        CompletedKeepsBuilds(s, e.worker, e.image, e.digest);
      }
    } else if e.DeleteBuilds? {
      DeleteKeepsBuilds(s, e.aged);
    } else if e.Die? {
      DeathKeepsBuilds(s, e.worker);
    } else if OfBuilds(e) {
      BuildEventsKeepBuilds(s, e);
    } else {
      OtherEventsKeepBuilds(s, e);
    }
  }

  lemma ClaimKeepsWorkers(s: State, e: Event)
    requires Inv(s) && e.Claim?
    ensures WorkersSound(Step(s, e))
  {}

  lemma DeletionKeepsWorkers(s: State, e: Event)
    requires Inv(s) && e.DeleteBuilds?
    ensures WorkersSound(Step(s, e))
  {}

  lemma SettlingKeepsWorkers(s: State, e: Event)
    requires Inv(s) && (e.Complete? || e.Fail? || e.Die?)
    ensures WorkersSound(Step(s, e))
  {}

  lemma BuildEventsKeepWorkers(s: State, e: Event)
    requires Inv(s) && (e.Enqueue? || e.Upload? || e.Cancel?)
    ensures WorkersSound(Step(s, e))
  {}

  lemma WorkersKeep(s: State, e: Event)
    requires Inv(s)
    ensures WorkersSound(Step(s, e))
  {
    if e.Claim? {
      ClaimKeepsWorkers(s, e);
    } else if e.DeleteBuilds? {
      DeletionKeepsWorkers(s, e);
    } else if e.Complete? || e.Fail? || e.Die? {
      SettlingKeepsWorkers(s, e);
    } else if OfBuilds(e) {
      BuildEventsKeepWorkers(s, e);
    } else {
      OtherEventsFrame(s, e);
    }
  }

  lemma CompletedKeepsNumbers(s: State, e: Event)
    requires Inv(s) && e.Complete?
    ensures Numbered(Step(s, e).versions)
  {
    var t := Step(s, e);
    if |t.versions| > |s.versions| { NumberedAppend(s.versions, t.versions[|s.versions|]); }
  }

  lemma NumbersKeep(s: State, e: Event)
    requires Inv(s)
    ensures Numbered(Step(s, e).versions)
  {
    if e.Complete? {
      CompletedKeepsNumbers(s, e);
    } else {
      StepRows(s, e);
      NumberedSame(s.versions, Step(s, e).versions);
    }
  }

  lemma NamesCarry(s: State, t: State, template: string, version: nat)
    requires NamesVersion(s, template, version) && |s.versions| <= |t.versions|
    requires forall i | 0 <= i < |s.versions| :: t.versions[i].template == s.versions[i].template
    ensures NamesVersion(t, template, version)
  {}

  /** References that were there go on naming their versions. */
  lemma LatestFrame(s: State, t: State)
    requires LatestSound(s) && |s.versions| <= |t.versions|
    requires forall i | 0 <= i < |s.versions| :: t.versions[i].template == s.versions[i].template
    requires forall x | x in t.templates && t.templates[x].latest.Some? ::
               NamesVersion(t, x, t.templates[x].latest.value) || (x in s.templates && t.templates[x].latest == s.templates[x].latest)
    requires forall p | p in t.pins :: NamesVersion(t, t.pins[p].template, t.pins[p].version)
               || (p in s.pins && t.pins[p].template == s.pins[p].template && t.pins[p].version == s.pins[p].version)
    requires forall p | p in t.promotions && t.promotions[p].stage != Found ::
               NamesVersion(t, t.promotions[p].template, t.promotions[p].version)
               || (p in s.promotions && s.promotions[p].stage != Found
                   && t.promotions[p].template == s.promotions[p].template && t.promotions[p].version == s.promotions[p].version)
    ensures LatestSound(t)
  {
    forall x | x in t.templates && t.templates[x].latest.Some? ensures NamesVersion(t, x, t.templates[x].latest.value) {
      if !NamesVersion(t, x, t.templates[x].latest.value) { NamesCarry(s, t, x, s.templates[x].latest.value); }
    }
    forall p | p in t.pins ensures NamesVersion(t, t.pins[p].template, t.pins[p].version) {
      if !NamesVersion(t, t.pins[p].template, t.pins[p].version) { NamesCarry(s, t, s.pins[p].template, s.pins[p].version); }
    }
    forall p | p in t.promotions && t.promotions[p].stage != Found
      ensures NamesVersion(t, t.promotions[p].template, t.promotions[p].version)
    {
      if !NamesVersion(t, t.promotions[p].template, t.promotions[p].version) {
        NamesCarry(s, t, s.promotions[p].template, s.promotions[p].version);
      }
    }
  }

  lemma FirstUpdateKeepsLatest(s: State, p: nat)
    requires LatestSound(s) && p in s.pins && s.pins[p].stage == BeforeVersion
    ensures LatestSound(Pinned(s, p))
  {
    LatestFrame(s, Pinned(s, p));
  }

  lemma SecondUpdateKeepsLatest(s: State, p: nat)
    requires LatestSound(s) && p in s.pins && s.pins[p].stage == BeforeTemplate
    ensures LatestSound(Pinned(s, p))
  {
    LatestFrame(s, Pinned(s, p));
  }

  lemma PinNextKeepsLatest(s: State, p: nat)
    requires LatestSound(s)
    ensures LatestSound(Step(s, PinNext(p)))
  {
    if p in s.pins {
      assert Step(s, PinNext(p)) == Pinned(s, p);
      if s.pins[p].stage == BeforeVersion { FirstUpdateKeepsLatest(s, p); } else { SecondUpdateKeepsLatest(s, p); }
    }
  }

  lemma PinStartKeepsLatest(s: State, e: Event)
    requires LatestSound(s) && (e.PinStart? || e.PinDie?)
    ensures LatestSound(Step(s, e))
  {
    var t := Step(s, e);
    assert t.versions == s.versions && t.templates == s.templates && t.promotions == s.promotions;
    LatestFrame(s, t);
  }

  lemma PromotedTemplateSound(s: State, p: nat)
    requires LatestSound(s) && p in s.promotions && s.promotions[p].stage == Relabelled
    ensures LatestSound(Promoted(s, p))
  {
    LatestFrame(s, Promoted(s, p));
  }

  lemma PromotedVersionSound(s: State, p: nat)
    requires LatestSound(s) && p in s.promotions && s.promotions[p].stage != Relabelled
    ensures LatestSound(Promoted(s, p))
  {
    LatestFrame(s, Promoted(s, p));
  }

  lemma PromoteNextKeepsLatest(s: State, p: nat)
    requires LatestSound(s)
    ensures LatestSound(Step(s, PromoteNext(p)))
  {
    if p in s.promotions {
      assert Step(s, PromoteNext(p)) == Promoted(s, p);
      if s.promotions[p].stage == Relabelled { PromotedTemplateSound(s, p); } else { PromotedVersionSound(s, p); }
    }
  }

  lemma PromoteKeepsLatest(s: State, e: Event)
    requires LatestSound(s) && (e.Promote? || e.PromoteDie?)
    ensures LatestSound(Step(s, e))
  {
    var t := Step(s, e);
    assert t.versions == s.versions && t.templates == s.templates && t.pins == s.pins;
    LatestFrame(s, t);
  }

  lemma CompletedKeepsLatest(s: State, e: Event)
    requires LatestSound(s) && e.Complete?
    ensures LatestSound(Step(s, e))
  {
    LatestFrame(s, Step(s, e));
  }

  lemma RowsKeepLatest(s: State, e: Event)
    requires LatestSound(s) && (e.RetireVersions? || e.Relabel?)
    ensures LatestSound(Step(s, e))
  {
    StepRows(s, e);
    LatestFrame(s, Step(s, e));
  }

  lemma BuildEventsFrame(s: State, e: Event)
    requires OfBuilds(e)
    ensures var t := Step(s, e);
            t.versions == s.versions && t.templates == s.templates && t.pins == s.pins && t.promotions == s.promotions
  {}

  lemma OtherEventsKeepLatest(s: State, e: Event)
    requires LatestSound(s) && (e.CreateTemplate? || e.Archive? || OfBuilds(e))
    ensures LatestSound(Step(s, e))
  {
    if OfBuilds(e) { BuildEventsFrame(s, e); }
  }

  lemma LatestKeeps(s: State, e: Event)
    requires LatestSound(s)
    ensures LatestSound(Step(s, e))
  {
    match e {
      case Complete(_, _, _) => CompletedKeepsLatest(s, e);
      case PinNext(p) => PinNextKeepsLatest(s, p);
      case PinStart(_, _, _, _) => PinStartKeepsLatest(s, e);
      case PinDie(_) => PinStartKeepsLatest(s, e);
      case PromoteNext(p) => PromoteNextKeepsLatest(s, p);
      case Promote(_, _, _, _) => PromoteKeepsLatest(s, e);
      case PromoteDie(_) => PromoteKeepsLatest(s, e);
      case RetireVersions(_, _) => RowsKeepLatest(s, e);
      case Relabel(_, _) => RowsKeepLatest(s, e);
      case _ => OtherEventsKeepLatest(s, e);
    }
  }

  lemma {:induction false} StepKeeps(s: State, e: Event)
    requires Inv(s)
    ensures Inv(Step(s, e))
  {
    BuildsKeep(s, e);
    WorkersKeep(s, e);
    NumbersKeep(s, e);
    LatestKeeps(s, e);
  }

  lemma {:induction false} RunKeeps(s: State, events: seq<Event>)
    requires Inv(s)
    ensures Inv(Run(s, events))
  {
    if events != [] {
      RunKeeps(s, events[..|events| - 1]);
      StepKeeps(Run(s, events[..|events| - 1]), events[|events| - 1]);
    }
  }

  lemma StartIsSound(s: State)
    requires Start(s)
    ensures Inv(s)
  {}

  // Main results, over every interleaving.

  /** A build has succeeded exactly when exactly one version names it; no two workers hold one build. */
  ghost predicate Consistent(s: State) {
    && (forall b | b in s.builds :: s.builds[b].status == Success <==> NamedByVersion(s.versions, b))
    && (forall i, j | 0 <= i < j < |s.versions| && s.versions[i].build.Some? :: s.versions[i].build != s.versions[j].build)
    && (forall i | 0 <= i < |s.versions| && s.versions[i].build.Some? :: s.versions[i].build.value in s.builds)
    && (forall v, w | v in s.workers && w in s.workers && s.workers[v] == s.workers[w] :: v == w)
  }

  lemma InvTells(s: State)
    requires Inv(s)
    ensures Consistent(s)
  {
    forall b | b in s.builds && NamedByVersion(s.versions, b) ensures s.builds[b].status == Success {
      NamedIsSuccess(s, b);
    }
  }

  /** Promotions and pinners do not touch this: it holds whatever they do. */
  lemma {:induction false} EveryInterleavingIsConsistent(s: State, events: seq<Event>)
    requires Start(s)
    ensures Consistent(Run(s, events)) && Numbered(Run(s, events).versions) && LatestSound(Run(s, events))
  {
    StartIsSound(s);
    RunKeeps(s, events);
    InvTells(Run(s, events));
  }

  /** The version numbers of a template are 1 to n, each once, in the order of the commits. */
  ghost predicate OneToN(versions: seq<Version>, template: string) {
    && (forall i, j | 0 <= i < j < |versions| && versions[i].template == versions[j].template == template :: versions[i].number < versions[j].number)
    && (forall n: nat :: HasNumber(versions, template, n) <==> 1 <= n <= Count(versions, template))
  }

  lemma NumberedIsOneToN(versions: seq<Version>, template: string)
    requires Numbered(versions)
    ensures OneToN(versions, template)
  {
    forall i, j | 0 <= i < j < |versions| && versions[i].template == versions[j].template == template
      ensures versions[i].number < versions[j].number
    {
      NumbersIncrease(versions, i, j);
    }
    forall n: nat ensures HasNumber(versions, template, n) <==> 1 <= n <= Count(versions, template) {
      if HasNumber(versions, template, n) {
        var i :| 0 <= i < |versions| && versions[i].template == template && versions[i].number == n;
        NumbersAreCounted(versions, i);
      }
      if 1 <= n <= Count(versions, template) { NumbersAreDense(versions, template, n); }
    }
  }

  lemma VersionNumbersHaveNoGap(s: State, events: seq<Event>, template: string)
    requires Start(s)
    ensures OneToN(Run(s, events).versions, template)
  {
    StartIsSound(s);
    RunKeeps(s, events);
    NumberedIsOneToN(Run(s, events).versions, template);
  }

  /** The build was canceled, and its row is still that or gone. */
  predicate CanceledOrGone(s: State, b: nat) {
    b < s.created && (b in s.builds ==> s.builds[b].status == Canceled)
  }

  lemma StepKeepsCanceled(s: State, e: Event, b: nat)
    requires CanceledOrGone(s, b)
    ensures CanceledOrGone(Step(s, e), b)
  {}

  // What settling a build comes to.

  /** The build had settled with the status, and its row still says so or is gone. */
  ghost predicate SettledOrGone(s: State, b: nat, status: BuildStatus) {
    b < s.created && (b in s.builds ==> s.builds[b].status == status)
  }

  lemma SettledAfterCompletion(s: State, e: Event, b: nat, status: BuildStatus)
    requires WorkersSound(s) && Terminal(status) && SettledOrGone(s, b, status) && e.Complete?
    ensures SettledOrGone(Step(s, e), b, status)
  {}

  lemma SettledAfterFailure(s: State, e: Event, b: nat, status: BuildStatus)
    requires WorkersSound(s) && Terminal(status) && SettledOrGone(s, b, status) && e.Fail?
    ensures SettledOrGone(Step(s, e), b, status)
  {}

  lemma StepKeepsSettled(s: State, e: Event, b: nat, status: BuildStatus)
    requires Inv(s) && Terminal(status) && SettledOrGone(s, b, status)
    ensures SettledOrGone(Step(s, e), b, status)
  {
    if e.Complete? {
      SettledAfterCompletion(s, e, b, status);
    } else if e.Fail? {
      SettledAfterFailure(s, e, b, status);
    } else if !OfBuilds(e) {
      OtherEventsFrame(s, e);
    }
  }

  lemma {:induction false} SettledAlong(s: State, events: seq<Event>, later: seq<Event>, b: nat, status: BuildStatus)
    requires Inv(s) && Terminal(status) && SettledOrGone(Run(s, events), b, status)
    ensures SettledOrGone(Run(s, events + later), b, status)
    decreases |later|
  {
    if later == [] {
      assert events + later == events;
    } else {
      var less := later[..|later| - 1];
      SettledAlong(s, events, less, b, status);
      RunKeeps(s, events + less);
      StepKeepsSettled(Run(s, events + less), later[|later| - 1], b, status);
      RunMore(s, events, later);
    }
  }

  /** A build that has succeeded, failed or been canceled keeps that status as long as it has a row, and is never claimed again. */
  lemma SettledForGood(s: State, events: seq<Event>, later: seq<Event>, b: nat)
    requires Start(s) && b in Run(s, events).builds && Terminal(Run(s, events).builds[b].status)
    ensures var t := Run(s, events + later);
            && (b in t.builds ==> t.builds[b].status == Run(s, events).builds[b].status)
            && forall source, locked :: Oldest(t, source, locked, 0) != Some(b)
  {
    StartIsSound(s);
    RunKeeps(s, events);
    SettledAlong(s, events, later, b, Run(s, events).builds[b].status);
  }

  /** Every build that is being built is held by a worker. */
  ghost predicate AllHeld(s: State) {
    forall b | b in s.builds && s.builds[b].status == Building :: HeldBySome(s.workers, b)
  }

  ghost predicate HeldBySome(workers: map<nat, nat>, b: nat) {
    exists w :: w in workers && workers[w] == b
  }

  lemma HeldAfterClaim(s: State, e: Event)
    requires AllHeld(s) && e.Claim?
    ensures AllHeld(Step(s, e))
  {
    var t := Step(s, e);
    var found := Oldest(s, e.source, e.locked, 0);
    if e.worker !in s.workers && found.Some? {
      forall b | b in t.builds && t.builds[b].status == Building ensures HeldBySome(t.workers, b) {
        if b == found.value {
          assert t.workers[e.worker] == b;
        } else {
          var w :| w in s.workers && s.workers[w] == b;
          assert t.workers[w] == b;
        }
      }
    }
  }

  lemma HeldAfterSettling(s: State, e: Event)
    requires AllHeld(s) && (e.Complete? || e.Fail?)
    ensures AllHeld(Step(s, e))
  {
    var t := Step(s, e);
    if t != s {
      forall b | b in t.builds && t.builds[b].status == Building ensures HeldBySome(t.workers, b) {
        var w :| w in s.workers && s.workers[w] == b;
        assert w != e.worker;
        assert w in t.workers && t.workers[w] == b;
      }
    }
  }

  lemma HeldAfterBuildEvent(s: State, e: Event)
    requires AllHeld(s) && (e.Enqueue? || e.Upload? || e.Cancel? || e.DeleteBuilds?)
    ensures AllHeld(Step(s, e))
  {
    var t := Step(s, e);
    assert t.workers == s.workers;
    forall b | b in t.builds && t.builds[b].status == Building ensures HeldBySome(s.workers, b) {
      assert b in s.builds && s.builds[b].status == Building;
    }
  }

  lemma StepKeepsHeld(s: State, e: Event)
    requires AllHeld(s) && !e.Die?
    ensures AllHeld(Step(s, e))
  {
    if e.Claim? {
      HeldAfterClaim(s, e);
    } else if e.Complete? || e.Fail? {
      HeldAfterSettling(s, e);
    } else if OfBuilds(e) {
      HeldAfterBuildEvent(s, e);
    } else {
      OtherEventsFrame(s, e);
    }
  }

  /** As long as no worker dies, no build is left behind in status building. */
  lemma {:induction false} NoBuildIsLeftBehind(s: State, events: seq<Event>)
    requires Start(s) && forall k | 0 <= k < |events| :: !events[k].Die?
    ensures AllHeld(Run(s, events))
    ensures Run(s, events).workers == map[] ==> forall b | b in Run(s, events).builds :: Run(s, events).builds[b].status != Building
    decreases |events|
  {
    if events != [] {
      NoBuildIsLeftBehind(s, events[..|events| - 1]);
      StepKeepsHeld(Run(s, events[..|events| - 1]), events[|events| - 1]);
    }
  }

  lemma CanceledHasNoVersion(s: State, b: nat)
    requires Inv(s) && CanceledOrGone(s, b)
    ensures !NamedByVersion(s.versions, b)
  {
    if NamedByVersion(s.versions, b) { NamedIsSuccess(s, b); }
  }

  lemma {:induction false} StaysCanceled(s: State, events: seq<Event>, later: seq<Event>, b: nat)
    requires CanceledOrGone(Run(s, events), b)
    ensures CanceledOrGone(Run(s, events + later), b)
    decreases |later|
  {
    if later == [] {
      assert events + later == events;
    } else {
      var k := |later| - 1;
      var all := events + later;
      assert all[..|all| - 1] == events + later[..k];
      StaysCanceled(s, events, later[..k], b);
      StepKeepsCanceled(Run(s, events + later[..k]), later[k], b);
    }
  }

  /** Canceled is absorbing, and a canceled build never gains a version. */
  lemma {:induction false} CanceledForGood(s: State, events: seq<Event>, later: seq<Event>, b: nat)
    requires Start(s) && b in Run(s, events).builds && Run(s, events).builds[b].status == Canceled
    ensures CanceledOrGone(Run(s, events + later), b) && !NamedByVersion(Run(s, events + later).versions, b)
  {
    StartIsSound(s);
    RunKeeps(s, events);
    StaysCanceled(s, events, later, b);
    RunKeeps(s, events + later);
    CanceledHasNoVersion(Run(s, events + later), b);
  }

  /** Only a promotion moves an archived template's latest version, only a pinner what it shows. */
  ghost predicate StillArchived(before: Template, s: State, t: string, pinned: bool, promoted: bool) {
    && t in s.templates && s.templates[t].status == Archived
    && (!promoted ==> s.templates[t].latest == before.latest)
    && (!pinned ==> s.templates[t].image == before.image && s.templates[t].digest == before.digest)
  }

  lemma StepKeepsArchived(before: Template, s: State, e: Event, t: string, pinned: bool, promoted: bool)
    requires StillArchived(before, s, t, pinned, promoted)
    ensures StillArchived(before, Step(s, e), t, pinned || e.PinNext?, promoted || e.PromoteNext?)
  {}

  ghost predicate SomePinning(events: seq<Event>) {
    exists i | 0 <= i < |events| :: events[i].PinNext?
  }

  ghost predicate SomePromoting(events: seq<Event>) {
    exists i | 0 <= i < |events| :: events[i].PromoteNext?
  }

  lemma RunMore(s: State, events: seq<Event>, later: seq<Event>)
    requires later != []
    ensures Run(s, events + later) == Step(Run(s, events + later[..|later| - 1]), later[|later| - 1])
  {
    var all := events + later;
    assert all[..|all| - 1] == events + later[..|later| - 1] && all[|all| - 1] == later[|later| - 1];
  }

  lemma OneMoreStep(less: seq<Event>, e: Event)
    ensures SomePinning(less + [e]) <==> SomePinning(less) || e.PinNext?
    ensures SomePromoting(less + [e]) <==> SomePromoting(less) || e.PromoteNext?
  {
    var all := less + [e];
    assert all[|less|] == e && forall i | 0 <= i < |less| :: all[i] == less[i];
  }

  lemma {:induction false} ArchivedAlong(before: Template, s: State, events: seq<Event>, later: seq<Event>, t: string)
    requires StillArchived(before, Run(s, events), t, false, false)
    ensures StillArchived(before, Run(s, events + later), t, SomePinning(later), SomePromoting(later))
    decreases |later|
  {
    if later == [] {
      assert events + later == events;
    } else {
      var less, e := later[..|later| - 1], later[|later| - 1];
      assert later == less + [e];
      ArchivedAlong(before, s, events, less, t);
      StepKeepsArchived(before, Run(s, events + less), e, t, SomePinning(less), SomePromoting(less));
      RunMore(s, events, later);
      OneMoreStep(less, e);
    }
  }

  /** An archived template stays archived; only promotions and pinners can move its latest version and its picture. */
  lemma {:induction false} ArchivedForGood(s: State, events: seq<Event>, later: seq<Event>, t: string)
    requires t in Run(s, events).templates && Run(s, events).templates[t].status == Archived
    ensures StillArchived(Run(s, events).templates[t], Run(s, events + later), t, SomePinning(later), SomePromoting(later))
  {
    ArchivedAlong(Run(s, events).templates[t], s, events, later, t);
  }
}
