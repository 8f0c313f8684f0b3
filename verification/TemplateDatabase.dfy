/**
 The tables of the build queue and what changes them: the transactions claimBuild, completeBuild and
 failBuild (apps/api/src/template-builder.ts), the statements of cleanupTemplateRetention, the two
 updates of ensureTemplateImageDigest and those of promoteTemplate. Each does what TemplateQueue says
 of its event.
 */
module TemplateDatabase {
  import opened Wrappers
  import opened TemplateQueue
  import opened TemplateQueueSafety

  datatype Outcome = Skipped | Created(version: nat) | RolledBack

  /** At how many places two tables of the same length differ. */
  function Changes(a: seq<Version>, b: seq<Version>): nat
    requires |a| == |b|
  {
    if a == [] then 0
    else Changes(a[..|a| - 1], b[..|b| - 1]) + if a[|a| - 1] != b[|b| - 1] then 1 else 0
  }

  /** A build that waits for a worker: queued, of the kind, with its context if it needs one, and not locked. */
  predicate Waiting(builds: map<nat, Build>, b: nat, source: Source, locked: set<nat>) {
    && b in builds && b !in locked && builds[b].status == Queued && builds[b].source == source
    && (source == FromDockerfile ==> builds[b].context)
  }

  /** Build b, if its row is still there, has failed or is still canceled; all other rows are as they were. */
  ghost predicate OnlyFailed(before: map<nat, Build>, after: map<nat, Build>, b: nat) {
    && after.Keys == before.Keys
    && (forall c | c in before && c != b :: after[c] == before[c])
    && (b in before ==> after[b] == if before[b].status == Canceled then before[b] else before[b].(status := Failed))
  }

  /** A ready version that is old enough, not the latest of its template, not aliased latest or stable, and not in use. */
  predicate Retirable(s: State, i: nat, aged: set<nat>, used: set<nat>)
    requires i < |s.versions|
  {
    var v := s.versions[i];
    && i in aged && v.ready && i !in used && "latest" !in v.aliases && "stable" !in v.aliases
    && !(v.template in s.templates && s.templates[v.template].latest == Some(i))
  }

  /** A settled build that is old enough and that no version names. */
  predicate Deletable(build: Build, b: nat, aged: set<nat>, versions: seq<Version>) {
    b in aged && Terminal(build.status) && !NamedByVersion(versions, b)
  }

  /** What is left when the rows below n have been looked at. */
  ghost predicate RowsLeft(before: map<nat, Build>, after: map<nat, Build>, n: nat, aged: set<nat>, versions: seq<Version>) {
    && (forall b :: b in after <==> b in before && (b < n ==> !Deletable(before[b], b, aged, versions)))
    && (forall b | b in after :: after[b] == before[b])
  }

  lemma DeletionIs(s: State, aged: set<nat>, rows: map<nat, Build>)
    requires Inv(s) && RowsLeft(s.builds, rows, s.created, aged, s.versions)
    ensures s.(builds := rows) == Step(s, DeleteBuilds(aged)) && Inv(s.(builds := rows))
    ensures forall b :: b in rows <==> b in s.builds && !Deletable(s.builds[b], b, aged, s.versions)
    ensures forall i | 0 <= i < |s.versions| && s.versions[i].build.Some? :: s.versions[i].build.value in rows
  {
    StepKeeps(s, DeleteBuilds(aged));
    DeletionRows(s, aged, rows);
  }

  lemma DeletionRows(s: State, aged: set<nat>, rows: map<nat, Build>)
    requires RowsLeft(s.builds, rows, s.created, aged, s.versions) && forall b | b in s.builds :: b < s.created
    ensures rows == Step(s, DeleteBuilds(aged)).builds
  {
    assert forall b :: b in rows <==> b in s.builds && !Deletable(s.builds[b], b, aged, s.versions);
  }

  lemma CompleteIs(s: State, w: nat, image: string, digest: string)
    requires Inv(s) && w in s.workers && (s.workers[w] in s.builds ==> s.builds[s.workers[w]].template in s.templates)
    ensures var t := Step(s, Complete(w, image, digest));
            && Inv(t)
            && t == if s.workers[w] in s.builds then Completed(s, s.workers[w], image, digest).(workers := s.workers - {w}) else s
  {
    StepKeeps(s, Complete(w, image, digest));
  }

  lemma OneRowLess(rows: map<nat, Build>, b: nat)
    requires b in rows
    ensures |rows - {b}| == |rows| - 1
  {
    assert (rows - {b}).Keys == rows.Keys - {b};
  }

  lemma OneMoreRow(a: seq<Version>, b: seq<Version>, i: nat)
    requires i < |a| == |b|
    ensures b[..i + 1] == b[..i] + [b[i]]
    ensures Changes(a[..i + 1], b[..i + 1]) == Changes(a[..i], b[..i]) + if a[i] != b[i] then 1 else 0
  {
    assert a[..i + 1][..i] == a[..i] && b[..i + 1][..i] == b[..i];
  }

  class Tables {
    var builds: map<nat, Build>
    var created: nat
    var templates: map<string, Template>
    var versions: seq<Version>
    var workers: map<nat, nat>
    var pins: map<nat, Pin>
    var promotions: map<nat, Promotion>

    function Contents(): State
      reads this
    {
      State(builds, created, templates, versions, workers, pins, promotions)
    }

    constructor (s: State)
      ensures Contents() == s
    {
      builds, created, templates, versions, workers := s.builds, s.created, s.templates, s.versions, s.workers;
      pins, promotions := s.pins, s.promotions;
    }

    /** SELECT ... WHERE status = 'queued' ... ORDER BY created_at ... SKIP LOCKED LIMIT 1, then the UPDATE. */
    method ClaimBuild(worker: nat, source: Source, locked: set<nat>) returns (build: Option<nat>)
      requires worker !in workers
      modifies this
      ensures Contents() == Step(old(Contents()), Claim(worker, source, locked))
      ensures build.Some? ==>
                && Waiting(old(builds), build.value, source, locked) && workers == old(workers)[worker := build.value]
                && builds == old(builds)[build.value := old(builds)[build.value].(status := Building)]
                && forall b: nat | b < build.value :: !Waiting(old(builds), b, source, locked)
      ensures build.None? ==> Contents() == old(Contents()) && forall b: nat | b < created :: !Waiting(builds, b, source, locked)
    {
      build := None;
      for b := 0 to created
        invariant Contents() == old(Contents()) && build.None?
        invariant Oldest(Contents(), source, locked, 0) == Oldest(Contents(), source, locked, b)
      {
        if b in builds && b !in locked && Claimable(builds[b], source) {
          builds := builds[b := builds[b].(status := Building)];
          workers := workers[worker := b];
          return Some(b);
        }
      }
    }

    /** The SELECT of the next version number. */
    method NextNumber(template: string) returns (next: nat)
      ensures next == MaxNumber(versions, template) + 1
    {
      var max := 0;
      for i := 0 to |versions|
        invariant max == MaxNumber(versions[..i], template)
      {
        assert versions[..i + 1][..i] == versions[..i];
        if versions[i].template == template && versions[i].number > max { max := versions[i].number; }
      }
      assert versions[..|versions|] == versions;
      return max + 1;
    }

    /** The statements of the transaction for a build that is not canceled. */
    method InsertVersion(b: nat, image: string, digest: string) returns (id: nat)
      requires b in builds && builds[b].status != Canceled && builds[b].template in templates
      modifies `versions, `templates, `builds
      ensures Contents() == Completed(old(Contents()), b, image, digest)
      ensures id == |old(versions)|
    {
      var build := builds[b];
      id := |versions|;
      var number := NextNumber(build.template);
      versions := versions + [Version(build.template, Some(b), number, image, Some(digest), true, ["latest"])];
      if templates[build.template].status != Archived {
        templates := templates[build.template := Template(Usable, Some(id), image, Some(digest))];
      } else {
        assert templates == templates[build.template := templates[build.template]];
      }
      builds := builds[b := build.(status := Success)];
    }

    method CompleteBuild(worker: nat, image: string, digest: string) returns (outcome: Outcome)
      requires worker in workers && Inv(Contents())
      requires workers[worker] in builds ==> builds[workers[worker]].template in templates
      modifies this
      ensures Contents() == Step(old(Contents()), Complete(worker, image, digest)) && Inv(Contents())
      ensures outcome.RolledBack? <==> old(workers[worker] !in builds)
      ensures outcome.Skipped? <==> old(workers[worker] in builds && builds[workers[worker]].status == Canceled)
      ensures outcome.Created? ==>
                && outcome.version == |old(versions)| == |versions| - 1
                && versions[outcome.version].build == Some(old(workers[worker]))
                && versions[outcome.version].number == Count(old(versions), versions[outcome.version].template) + 1
    {
      ghost var before := Contents();
      CompleteIs(before, worker, image, digest);
      var b := workers[worker];
      if b !in builds {
        // the version's foreign key to the build fails
        return RolledBack;
      }
      if builds[b].status == Canceled {
        workers := workers - {worker};
        return Skipped;
      }
      MaxIsCount(versions, builds[b].template);
      var id := InsertVersion(b, image, digest);
      workers := workers - {worker};
      return Created(id);
    }

    method FailBuild(worker: nat)
      requires worker in workers
      modifies this
      ensures Contents() == Step(old(Contents()), Event.Fail(worker))
      ensures workers == old(workers) - {worker} && versions == old(versions) && templates == old(templates)
      ensures OnlyFailed(old(builds), builds, old(workers[worker]))
    {
      var b := workers[worker];
      if b in builds && builds[b].status != Canceled {
        builds := builds[b := builds[b].(status := Failed)];
      }
      workers := workers - {worker};
    }

    /** processBuild from its claim on: complete, or fail when completing does not commit. */
    method SettleBuild(worker: nat, ready: Option<(string, string)>) returns (version: Option<nat>)
      requires worker in workers && Inv(Contents())
      requires workers[worker] in builds ==> builds[workers[worker]].template in templates
      modifies this
      ensures worker !in workers && Inv(Contents())
      ensures version.Some? ==>
                && version.value < |versions| && versions[version.value].build == Some(old(workers[worker]))
                && old(workers[worker]) in builds && builds[old(workers[worker])].status == Success
      ensures version.None? ==>
                versions == old(versions) && templates == old(templates) && OnlyFailed(old(builds), builds, old(workers[worker]))
    {
      if ready.Some? {
        var outcome := CompleteBuild(worker, ready.value.0, ready.value.1);
        if outcome.Created? { return Some(outcome.version); }
        if outcome.Skipped? { return None; }
      }
      StepKeeps(Contents(), Event.Fail(worker));
      FailBuild(worker);
      return None;
    }

    /** The DELETE over template_builds, row by row, with the number of rows it reports. */
    method DeleteOldBuilds(aged: set<nat>) returns (deleted: nat)
      requires Inv(Contents())
      modifies `builds
      ensures forall b :: b in builds <==> b in old(builds) && !Deletable(old(builds)[b], b, aged, versions)
      ensures forall b | b in builds :: builds[b] == old(builds)[b]
      ensures forall i | 0 <= i < |versions| && versions[i].build.Some? :: versions[i].build.value in builds
      ensures deleted + |builds| == |old(builds)|
      ensures Contents() == Step(old(Contents()), DeleteBuilds(aged)) && Inv(Contents())
    {
      ghost var before := Contents();
      assert forall b | b in builds :: b < created;
      deleted := DeleteRows(aged);
      DeletionIs(before, aged, builds);
    }

    method DeleteRows(aged: set<nat>) returns (deleted: nat)
      requires forall b | b in builds :: b < created
      modifies `builds
      ensures RowsLeft(old(builds), builds, created, aged, versions)
      ensures deleted + |builds| == |old(builds)|
    {
      deleted := 0;
      for n := 0 to created
        invariant RowsLeft(old(builds), builds, n, aged, versions)
        invariant deleted + |builds| == |old(builds)|
      {
        if n in builds && Deletable(builds[n], n, aged, versions) {
          OneRowLess(builds, n);
          builds := builds - {n};
          deleted := deleted + 1;
        }
      }
    }

    /** The UPDATE over template_versions, row by row, with the number of rows it reports. */
    method RetireOldVersions(aged: set<nat>, used: set<nat>) returns (retired: nat)
      modifies `versions
      ensures Contents() == Step(old(Contents()), RetireVersions(aged, used))
      ensures |versions| == |old(versions)| && retired == Changes(old(versions), versions)
      ensures forall i | 0 <= i < |versions| ::
                versions[i] == if Retirable(old(Contents()), i, aged, used) then old(versions)[i].(ready := false) else old(versions)[i]
    {
      retired := 0;
      ghost var target := Retired(Contents(), aged, used);
      var rows: seq<Version> := [];
      for i := 0 to |versions|
        invariant versions == old(versions) && target == Retired(Contents(), aged, used)
        invariant rows == target[..i]
        invariant retired == Changes(versions[..i], target[..i])
      {
        OneMoreRow(versions, target, i);
        if i in aged && !Kept(Contents(), i, used) {
          rows := rows + [versions[i].(ready := false)];
          retired := retired + 1;
        } else {
          rows := rows + [versions[i]];
        }
      }
      assert versions[..|versions|] == versions && target[..|versions|] == target;
      versions := rows;
    }

    /** The first update of ensureTemplateImageDigest. */
    method PinVersion(pinner: nat)
      requires pinner in pins && pins[pinner].stage == BeforeVersion && pins[pinner].version < |versions|
      modifies `versions, `pins
      ensures Contents() == Pinned(old(Contents()), pinner)
    {
      var p := pins[pinner];
      versions := versions[p.version := versions[p.version].(image := p.image, digest := Some(p.digest))];
      pins := pins[pinner := p.(stage := BeforeTemplate)];
    }

    /** The second one: WHERE id = ... AND latest_version_id = ... */
    method PinTemplate(pinner: nat)
      requires pinner in pins && pins[pinner].stage == BeforeTemplate
      modifies `templates, `pins
      ensures Contents() == Pinned(old(Contents()), pinner)
    {
      var p := pins[pinner];
      if p.template in templates && templates[p.template].latest == Some(p.version) {
        templates := templates[p.template := templates[p.template].(image := p.image, digest := Some(p.digest))];
      }
      pins := pins - {pinner};
    }

    /** A whole pinning with nothing between its updates: version and template get one picture, or nothing changes. */
    method EnsureDigest(pinner: nat, template: string, version: nat, resolved: string)
      requires Inv(Contents()) && pinner !in pins
      modifies this
      ensures Inv(Contents())
      ensures match Planned(old(Contents()), template, version, resolved)
              case None => Contents() == old(Contents())
              case Some(p) => WritesBoth(old(Contents()), Contents(), template, version, p.image, p.digest)
    {
      var planned := Planned(Contents(), template, version, resolved);
      if planned.Some? {
        PinningKeeps(Contents(), pinner, template, version, resolved);
        PinningWrites(Contents(), pinner, planned.value);
        pins := pins[pinner := planned.value];
        PinVersion(pinner);
        PinTemplate(pinner);
      }
    }

    /** The UPDATE of the aliases and of promoted_at. */
    method AddAlias(promoter: nat)
      requires promoter in promotions && promotions[promoter].stage == Checked && promotions[promoter].version < |versions|
      modifies `versions, `promotions
      ensures Contents() == Promoted(old(Contents()), promoter)
    {
      var p := promotions[promoter];
      var aliases := versions[p.version].aliases;
      if p.alias !in aliases { aliases := aliases + [p.alias]; }
      versions := versions[p.version := versions[p.version].(aliases := aliases)];
      promotions := promotions[promoter := p.(stage := Relabelled)];
    }

    /** The UPDATE of latest_version_id, whatever has become of version and template meanwhile. */
    method SetLatest(promoter: nat)
      requires promoter in promotions && promotions[promoter].stage == Relabelled
      modifies `templates, `promotions
      ensures Contents() == Promoted(old(Contents()), promoter)
    {
      var p := promotions[promoter];
      if p.template in templates {
        templates := templates[p.template := templates[p.template].(latest := Some(p.version))];
      }
      promotions := promotions - {promoter};
    }

    /** A whole promotion with nothing between its statements. */
    method PromoteTemplate(promoter: nat, template: string, version: nat, alias: string) returns (result: PromoteResult)
      requires Inv(Contents()) && promoter !in promotions
      modifies this
      ensures Inv(Contents())
      ensures result.TemplateNotFound? <==> template !in old(templates) || old(templates)[template].status == Archived
      ensures result.VersionPromoted? ==> OnlyPromoted(old(Contents()), Contents(), template, version, alias)
      ensures result.VersionPromoted? ==> version < |old(versions)| && old(versions)[version].ready
      ensures result.VersionNotFound? ==>
                version >= |old(versions)| || old(versions)[version].template != template || !old(versions)[version].ready
      ensures !result.VersionPromoted? ==> Contents() == old(Contents())
    {
      if template !in templates || templates[template].status == Archived { return TemplateNotFound; }
      if version >= |versions| || versions[version].template != template || !versions[version].ready { return VersionNotFound; }
      ghost var before := Contents();
      PromotionKeeps(before, promoter, template, version, alias);
      PromotionWrites(before, promoter, template, version, alias);
      promotions := promotions[promoter := Promotion(Checked, template, version, alias)];
      AddAlias(promoter);
      SetLatest(promoter);
      return VersionPromoted;
    }
  }

  datatype PromoteResult = VersionPromoted | TemplateNotFound | VersionNotFound

  ghost predicate NoRepeats(aliases: seq<string>) {
    forall i, j | 0 <= i < j < |aliases| :: aliases[i] != aliases[j]
  }

  /**
   The version is the template's latest one and has the alias, without a repeat unless there was one
   before; images, digests and all other rows are as they were.
   */
  ghost predicate OnlyPromoted(s: State, t: State, template: string, version: nat, alias: string) {
    && template in s.templates && template in t.templates && version < |s.versions| == |t.versions|
    && t.templates[template].latest == Some(version)
    && t.templates[template].(latest := s.templates[template].latest) == s.templates[template]
    && t.templates.Keys == s.templates.Keys && (forall x | x in s.templates && x != template :: t.templates[x] == s.templates[x])
    && (forall i | 0 <= i < |s.versions| && i != version :: t.versions[i] == s.versions[i])
    && t.versions[version].(aliases := s.versions[version].aliases) == s.versions[version]
    && (forall a :: a in t.versions[version].aliases <==> a in s.versions[version].aliases || a == alias)
    && s.versions[version].aliases <= t.versions[version].aliases
    && (NoRepeats(s.versions[version].aliases) ==> NoRepeats(t.versions[version].aliases))
    && t.(templates := s.templates, versions := s.versions) == s
  }

  /** The state between the check of a promotion and its updates. */
  function Checking(s: State, promoter: nat, template: string, version: nat, alias: string): State {
    s.(promotions := s.promotions[promoter := Promotion(Checked, template, version, alias)])
  }

  lemma CheckingKeeps(s: State, promoter: nat, template: string, version: nat, alias: string)
    requires Inv(s) && promoter !in s.promotions && version < |s.versions| && s.versions[version].template == template
    ensures Inv(Checking(s, promoter, template, version, alias))
  {
    assert NamesVersion(s, template, version);
  }

  /** The steps of a promotion in a row. */
  lemma PromotionKeeps(s: State, promoter: nat, template: string, version: nat, alias: string)
    requires Inv(s) && promoter !in s.promotions && template in s.templates && s.templates[template].status != Archived
    requires version < |s.versions| && s.versions[version].template == template && s.versions[version].ready
    ensures var u := Checking(s, promoter, template, version, alias);
            promoter in Promoted(u, promoter).promotions && Inv(Promoted(Promoted(u, promoter), promoter))
  {
    var u := Checking(s, promoter, template, version, alias);
    CheckingKeeps(s, promoter, template, version, alias);
    PromoterKeeps(u, promoter);
    PromoterKeeps(Promoted(u, promoter), promoter);
  }

  lemma PromoterKeeps(s: State, promoter: nat)
    requires Inv(s) && promoter in s.promotions
    ensures Inv(Promoted(s, promoter))
  {
    StepKeeps(s, PromoteNext(promoter));
    assert Step(s, PromoteNext(promoter)) == Promoted(s, promoter);
  }

  lemma AliasIsAdded(aliases: seq<string>, alias: string)
    ensures var more := WithAlias(aliases, alias);
            && aliases <= more && (forall a :: a in more <==> a in aliases || a == alias)
            && (NoRepeats(aliases) ==> NoRepeats(more))
  {}

  lemma PromotionWrites(s: State, promoter: nat, template: string, version: nat, alias: string)
    requires promoter !in s.promotions && template in s.templates && version < |s.versions|
    ensures var u := Checking(s, promoter, template, version, alias);
            && promoter in Promoted(u, promoter).promotions
            && OnlyPromoted(s, Promoted(Promoted(u, promoter), promoter), template, version, alias)
  {
    var u := Checking(s, promoter, template, version, alias);
    AliasIsAdded(s.versions[version].aliases, alias);
    assert Promoted(u, promoter).promotions - {promoter} == s.promotions;
  }

  /** The version has the picture, and so has the template if that is its latest version; the rest is as it was. */
  ghost predicate WritesBoth(s: State, t: State, template: string, version: nat, image: string, digest: string) {
    && version < |s.versions| && template in s.templates
    && t == s.(
       versions := s.versions[version := s.versions[version].(image := image, digest := Some(digest))],
       templates := if s.templates[template].latest == Some(version)
         then s.templates[template := s.templates[template].(image := image, digest := Some(digest))]
         else s.templates)
  }

  lemma PinningWrites(s: State, pinner: nat, p: Pin)
    requires pinner !in s.pins && p.stage == BeforeVersion && p.version < |s.versions| && p.template in s.templates
    ensures var u := Planning(s, pinner, Some(p));
            && pinner in Pinned(u, pinner).pins
            && WritesBoth(s, Pinned(Pinned(u, pinner), pinner), p.template, p.version, p.image, p.digest)
  {
    var u := Planning(s, pinner, Some(p));
    assert Pinned(u, pinner).pins - {pinner} == s.pins;
  }

  lemma PlanKeeps(s: State, pinner: nat, template: string, version: nat, resolved: string)
    requires Inv(s)
    ensures Inv(Planning(s, pinner, Planned(s, template, version, resolved)))
  {
    var start := PinStart(pinner, template, version, resolved);
    StepKeeps(s, start);
    assert Step(s, start) == Planning(s, pinner, Planned(s, template, version, resolved));
  }

  lemma UpdateKeeps(s: State, pinner: nat)
    requires Inv(s) && pinner in s.pins
    ensures Inv(Pinned(s, pinner))
  {
    StepKeeps(s, PinNext(pinner));
    assert Step(s, PinNext(pinner)) == Pinned(s, pinner);
  }

  /** The steps of one pinning in a row. */
  lemma PinningKeeps(s: State, pinner: nat, template: string, version: nat, resolved: string)
    requires Inv(s) && pinner !in s.pins && Planned(s, template, version, resolved).Some?
    ensures var u := Planning(s, pinner, Planned(s, template, version, resolved));
            pinner in u.pins && pinner in Pinned(u, pinner).pins && Inv(Pinned(Pinned(u, pinner), pinner))
  {
    PlanKeeps(s, pinner, template, version, resolved);
    var u := Planning(s, pinner, Planned(s, template, version, resolved));
    UpdateKeeps(u, pinner);
    UpdateKeeps(Pinned(u, pinner), pinner);
  }
}
