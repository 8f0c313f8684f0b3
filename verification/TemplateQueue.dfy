/**
 The template build queue as one state machine: builder workers (apps/api/src/template-builder.ts,
 lines 465 to 787), retention (apps/api/src/template-retention.ts, lines 145 to 187), digest pinning
 (apps/api/src/templates.ts, lines 92 to 139), promotion (apps/api/src/services/templates.ts, lines 250
 to 293), and cancellation and archiving from outside. A transaction, or a statement outside of one, is
 one step whose outcome is reported. There may be any number of workers, pinners and promotions at once.
 */
module TemplateQueue {
  import opened Wrappers
  import ImageReference

  datatype BuildStatus = Queued | Building | Success | Failed | Canceled

  datatype Source = FromImage | FromDockerfile

  datatype Build = Build(template: string, source: Source, context: bool, status: BuildStatus)

  datatype TemplateStatus = Preparing | Usable | Archived

  datatype Template = Template(status: TemplateStatus, latest: Option<nat>, image: string, digest: Option<string>)

  datatype Version = Version(
    template: string, build: Option<nat>, number: nat, image: string, digest: Option<string>, ready: bool, aliases: seq<string>)

  /** ensureTemplateImageDigest before its first and before its second update. */
  datatype PinStage = BeforeVersion | BeforeTemplate

  datatype Pin = Pin(stage: PinStage, template: string, version: nat, image: string, digest: string)

  /** promoteTemplate after finding the template, after finding the version, and between its two updates. */
  datatype PromotionStage = Found | Checked | Relabelled

  datatype Promotion = Promotion(stage: PromotionStage, template: string, version: nat, alias: string)

  /** Builds are numbered in the order of their creation, versions in the order of their commit. */
  datatype State = State(
    builds: map<nat, Build>,
    created: nat,
    templates: map<string, Template>,
    versions: seq<Version>,
    workers: map<nat, nat>,       // the build a worker has claimed and not settled
    pins: map<nat, Pin>,
    promotions: map<nat, Promotion>)

  datatype Event =
    | CreateTemplate(template: string, image: string)
    | Enqueue(template: string, source: Source)
    | Upload(build: nat)
    | Claim(worker: nat, source: Source, locked: set<nat>)
    | Complete(worker: nat, image: string, digest: string)
    | Fail(worker: nat)
    | Die(worker: nat)
    | Cancel(build: nat)
    | Archive(template: string)
    | Relabel(version: nat, aliases: seq<string>)
    | DeleteBuilds(aged: set<nat>)
    | RetireVersions(aged: set<nat>, used: set<nat>)
    | PinStart(pinner: nat, template: string, version: nat, resolved: string)
    | PinNext(pinner: nat)
    | PinDie(pinner: nat)
    | Promote(promoter: nat, template: string, version: nat, alias: string)
    | PromoteNext(promoter: nat)
    | PromoteDie(promoter: nat)

  predicate Terminal(status: BuildStatus) {
    status.Success? || status.Failed? || status.Canceled?
  }

  predicate Claimable(b: Build, source: Source) {
    b.status == Queued && b.source == source && (source == FromDockerfile ==> b.context)
  }

  /** ORDER BY created_at ... SKIP LOCKED LIMIT 1, among builds from number `from` on. */
  function Oldest(s: State, source: Source, locked: set<nat>, from: nat): (found: Option<nat>)
    ensures found.Some? ==>
              && found.value in s.builds && found.value !in locked && Claimable(s.builds[found.value], source)
              && forall b | from <= b < found.value && b in s.builds && b !in locked :: !Claimable(s.builds[b], source)
    ensures found.None? ==> forall b | from <= b < s.created && b in s.builds && b !in locked :: !Claimable(s.builds[b], source)
    decreases s.created - from
  {
    if from >= s.created then None
    else if from in s.builds && from !in locked && Claimable(s.builds[from], source) then Some(from)
    else Oldest(s, source, locked, from + 1)
  }

  /** COALESCE(MAX(version_number), 0) */
  function MaxNumber(versions: seq<Version>, template: string): nat {
    if versions == [] then 0
    else
      var rest := MaxNumber(versions[..|versions| - 1], template);
      var v := versions[|versions| - 1];
      if v.template == template && v.number > rest then v.number else rest
  }

  /** The transaction of completeBuild for a build that exists. */
  function Completed(s: State, b: nat, image: string, digest: string): State
    requires b in s.builds && s.builds[b].template in s.templates
  {
    var build := s.builds[b];
    if build.status == Canceled then s
    else
      var t := build.template;
      var id := |s.versions|;
      var before := s.templates[t];
      s.(versions := s.versions + [Version(t, Some(b), MaxNumber(s.versions, t) + 1, image, Some(digest), true, ["latest"])],
      templates := s.templates[t := if before.status == Archived then before else Template(Usable, Some(id), image, Some(digest))],
      builds := s.builds[b := build.(status := Success)])
  }

  predicate NamedByVersion(versions: seq<Version>, b: nat) {
    exists i | 0 <= i < |versions| :: versions[i].build == Some(b)
  }

  /** aliases && ARRAY['latest', 'stable'] */
  predicate Protected(aliases: seq<string>) {
    "latest" in aliases || "stable" in aliases
  }

  /** CASE WHEN alias = ANY(aliases) THEN aliases ELSE array_append(aliases, alias) END */
  function WithAlias(aliases: seq<string>, alias: string): seq<string> {
    if alias in aliases then aliases else aliases + [alias]
  }

  /** A version that retention may not touch. */
  predicate Kept(s: State, i: nat, used: set<nat>)
    requires i < |s.versions|
  {
    var v := s.versions[i];
    || !v.ready
    || (v.template in s.templates && s.templates[v.template].latest == Some(i))
    || Protected(v.aliases)
    || i in used
  }

  function Retired(s: State, aged: set<nat>, used: set<nat>): seq<Version> {
    seq(|s.versions|, i requires 0 <= i < |s.versions| =>
      if i in aged && !Kept(s, i, used) then s.versions[i].(ready := false) else s.versions[i])
  }

  /** What a pinner works out from what it has read; None when it has nothing to write. */
  function Planned(s: State, template: string, version: nat, resolved: string): Option<Pin> {
    if version >= |s.versions| || s.versions[version].template != template || template !in s.templates then None
    else
      var v := s.versions[version];
      var digest := if v.digest.Some? then v.digest else s.templates[template].digest;
      if ImageReference.NeedsPinning(v.image, digest) != Ok(true) then None
      else
        var pinned := ImageReference.Ensured(v.image, digest, resolved).value;
        Some(Pin(BeforeVersion, template, version, pinned.0, if pinned.1.Some? then pinned.1.value else ""))
  }

  function Planning(s: State, pinner: nat, planned: Option<Pin>): State {
    if pinner in s.pins || planned.None? then s else s.(pins := s.pins[pinner := planned.value])
  }

  /** One of the two updates; the second has a guard on latest_version_id. */
  function Pinned(s: State, pinner: nat): State
    requires pinner in s.pins
  {
    var p := s.pins[pinner];
    match p.stage
    case BeforeVersion =>
      s.(versions := if p.version < |s.versions|
        then s.versions[p.version := s.versions[p.version].(image := p.image, digest := Some(p.digest))]
        else s.versions,
      pins := s.pins[pinner := p.(stage := BeforeTemplate)])
    case BeforeTemplate =>
      s.(templates := if p.template in s.templates && s.templates[p.template].latest == Some(p.version)
        then s.templates[p.template := s.templates[p.template].(image := p.image, digest := Some(p.digest))]
        else s.templates,
      pins := s.pins - {pinner})
  }

  /** The check of the version, and the two updates, which have no guards and no transaction. */
  function Promoted(s: State, promoter: nat): State
    requires promoter in s.promotions
  {
    var p := s.promotions[promoter];
    match p.stage
    case Found =>
      s.(promotions :=
        if p.version < |s.versions| && s.versions[p.version].template == p.template && s.versions[p.version].ready
        then s.promotions[promoter := p.(stage := Checked)]
        else s.promotions - {promoter})
    case Checked =>
      s.(versions := if p.version < |s.versions|
        then s.versions[p.version := s.versions[p.version].(aliases := WithAlias(s.versions[p.version].aliases, p.alias))]
        else s.versions,
      promotions := s.promotions[promoter := p.(stage := Relabelled)])
    case Relabelled =>
      s.(templates := if p.template in s.templates
        then s.templates[p.template := s.templates[p.template].(latest := Some(p.version))]
        else s.templates,
      promotions := s.promotions - {promoter})
  }

  function Step(s: State, e: Event): State {
    match e
    case CreateTemplate(t, image) =>
      if t in s.templates then s else s.(templates := s.templates[t := Template(Preparing, None, image, None)])
    case Enqueue(t, source) =>
      if t !in s.templates then s
      else s.(builds := s.builds[s.created := Build(t, source, false, Queued)], created := s.created + 1)
    case Upload(b) =>
      if b in s.builds && s.builds[b].status == Queued then s.(builds := s.builds[b := s.builds[b].(context := true)]) else s
    case Claim(w, source, locked) =>
      var found := Oldest(s, source, locked, 0);
      if w in s.workers || found.None? then s
      else
        var b := found.value;
        s.(builds := s.builds[b := s.builds[b].(status := Building)], workers := s.workers[w := b])
    case Complete(w, image, digest) =>
      // without its build row the new version breaks a foreign key and the transaction rolls back
      if w !in s.workers || s.workers[w] !in s.builds || s.builds[s.workers[w]].template !in s.templates then s
      else Completed(s, s.workers[w], image, digest).(workers := s.workers - {w})
    case Fail(w) =>
      if w !in s.workers then s
      else
        var b := s.workers[w];
        s.(workers := s.workers - {w},
        builds := if b in s.builds && s.builds[b].status != Canceled then s.builds[b := s.builds[b].(status := Failed)] else s.builds)
    case Die(w) => s.(workers := s.workers - {w})
    case Cancel(b) =>
      if b in s.builds && (s.builds[b].status == Queued || s.builds[b].status == Building)
      then s.(builds := s.builds[b := s.builds[b].(status := Canceled)]) else s
    case Archive(t) =>
      if t in s.templates then s.(templates := s.templates[t := s.templates[t].(status := Archived)]) else s
    case Relabel(i, aliases) =>
      if i < |s.versions| then s.(versions := s.versions[i := s.versions[i].(aliases := aliases)]) else s
    case DeleteBuilds(aged) =>
      s.(builds := map b | b in s.builds && !(b in aged && Terminal(s.builds[b].status) && !NamedByVersion(s.versions, b)) :: s.builds[b])
    case RetireVersions(aged, used) => s.(versions := Retired(s, aged, used))
    case PinStart(p, t, version, resolved) => Planning(s, p, Planned(s, t, version, resolved))
    case PinNext(p) => if p in s.pins then Pinned(s, p) else s
    case PinDie(p) => s.(pins := s.pins - {p})
    case Promote(p, t, version, alias) =>
      if p in s.promotions || t !in s.templates || s.templates[t].status == Archived then s
      else s.(promotions := s.promotions[p := Promotion(Found, t, version, alias)])
    case PromoteNext(p) => if p in s.promotions then Promoted(s, p) else s
    case PromoteDie(p) => s.(promotions := s.promotions - {p})
  }

  function Run(s: State, events: seq<Event>): State {
    if events == [] then s else Step(Run(s, events[..|events| - 1]), events[|events| - 1])
  }

  /** How many of the versions are of the template. */
  function Count(versions: seq<Version>, template: string): nat {
    if versions == [] then 0
    else Count(versions[..|versions| - 1], template) + if versions[|versions| - 1].template == template then 1 else 0
  }

  // The invariant, in four parts.

  /** Successful builds and versions name each other, one to one; a held build is not settled yet. */
  ghost predicate BuildsSound(s: State) {
    && (forall i | 0 <= i < |s.versions| && s.versions[i].build.Some? ::
          var b := s.versions[i].build.value;
          b in s.builds && s.builds[b].status == Success && s.builds[b].template == s.versions[i].template)
    && (forall i, j | 0 <= i < j < |s.versions| && s.versions[i].build.Some? :: s.versions[i].build != s.versions[j].build)
    && (forall b | b in s.builds :: b < s.created && (s.builds[b].status == Success ==> NamedByVersion(s.versions, b)))
  }

  ghost predicate WorkersSound(s: State) {
    && (forall w | w in s.workers ::
          s.workers[w] < s.created
          && (s.workers[w] in s.builds ==> s.builds[s.workers[w]].status == Building || s.builds[s.workers[w]].status == Canceled))
    && (forall v, w | v in s.workers && w in s.workers && s.workers[v] == s.workers[w] :: v == w)
  }

  /** Each template's versions are numbered 1, 2, 3 and so on, in commit order. */
  ghost predicate Numbered(versions: seq<Version>) {
    forall i | 0 <= i < |versions| :: versions[i].number == Count(versions[..i], versions[i].template) + 1
  }

  /** Whatever refers to a version refers to one of its own template. */
  ghost predicate NamesVersion(s: State, template: string, version: nat) {
    version < |s.versions| && s.versions[version].template == template
  }

  ghost predicate LatestSound(s: State) {
    && (forall t | t in s.templates && s.templates[t].latest.Some? :: NamesVersion(s, t, s.templates[t].latest.value))
    && (forall p | p in s.pins :: NamesVersion(s, s.pins[p].template, s.pins[p].version))
    && (forall p | p in s.promotions && s.promotions[p].stage != Found ::
          NamesVersion(s, s.promotions[p].template, s.promotions[p].version))
  }

  ghost predicate Inv(s: State) {
    BuildsSound(s) && WorkersSound(s) && Numbered(s.versions) && LatestSound(s)
  }

  // What a template shows.

  predicate Shows(t: Template, v: Version) {
    t.image == v.image && t.digest == v.digest
  }

  /** A pinner that has written version v, which still holds what it wrote, and has yet to write the template. */
  predicate Due(s: State, pinner: nat, template: string, v: nat)
    requires v < |s.versions|
  {
    && pinner in s.pins && s.pins[pinner].stage == BeforeTemplate
    && s.pins[pinner].template == template && s.pins[pinner].version == v
    && s.versions[v].image == s.pins[pinner].image && s.versions[v].digest == Some(s.pins[pinner].digest)
  }

  ghost predicate SomeDue(s: State, template: string, v: nat)
    requires v < |s.versions|
  {
    exists pinner :: Due(s, pinner, template, v)
  }

  /** The template shows version v, or a pinner is about to make it do so. */
  ghost predicate ShowsOrWill(s: State, template: string, v: nat)
    requires template in s.templates && v < |s.versions|
  {
    Shows(s.templates[template], s.versions[v]) || SomeDue(s, template, v)
  }

  ghost predicate AllShown(s: State)
    requires LatestSound(s)
  {
    forall t | t in s.templates && s.templates[t].latest.Some? :: ShowsOrWill(s, t, s.templates[t].latest.value)
  }

  ghost predicate AllReady(s: State)
    requires LatestSound(s)
  {
    forall t | t in s.templates && s.templates[t].latest.Some? :: s.versions[s.templates[t].latest.value].ready
  }

  /** Seeded templates and versions, and nothing under way. */
  ghost predicate Start(s: State) {
    && s.builds == map[] && s.workers == map[] && s.pins == map[] && s.promotions == map[]
    && (forall i | 0 <= i < |s.versions| :: s.versions[i].build.None?)
    && Numbered(s.versions) && LatestSound(s) && AllShown(s) && AllReady(s)
  }
}
