// From sealed outputs to a publication dry run. Three files are published once and
// never replaced: the seal, the release package, each platform's dry run. Every
// other file may change under the service at any moment, so each stored answer is
// re-derived from what is on disk when it is asked for.
module ReleaseChain {
  import opened Prelude
  import opened EventLog
  import opened Artifacts

  /** SHA-256 is injective: digests are modelled by what they are digests of. */
  datatype Seal = Seal(run: string, package: string, workspace: string, artifacts: seq<Artifact>, author: string,
                       stamp: nat)

  datatype Check = Structure | Decoded | Semantic | PostLineage | Visual

  datatype Report = Report(run: string, seal: Seal, pass: bool, stamp: nat)

  datatype Submission = Submission(run: string, master: Content, seal: Seal, review: Review)

  /** A JSON file that stores a digest of its own body. */
  datatype Signed<T> = Signed(body: T, digest: T)

  /** What the completion event records of the review: the human file, or the sealed report. */
  datatype Evidence = HumanFile(file: Signed<Submission>) | SealedReport(bytes: Content)

  datatype Release = Release(run: string, seal: Seal, artifacts: seq<Artifact>, reports: map<Check, Report>,
                             title: string, author: string, stamp: nat)

  datatype Approval = Approval(platform: string, channel: string, author: string, spoken: string, guardian: bool,
                               at: nat)

  datatype Guard = Guard(run: string, platform: string, channel: string, release: Release)

  /** A compiled plan is a function of adapter version, package and channel. */
  datatype Plan = Plan(version: nat, release: Release, channel: string)

  datatype DryRun = DryRun(run: string, release: Release, platform: string, version: nat, approval: Approval,
                           duplicate: Guard, plan: Plan, stamp: nat)

  datatype Body =
    | Completed(seal: Seal, evidence: Evidence)
    | Sealed(seal: Seal)
    | Released(release: Release)
    | DryRunCreated(plan: DryRun)
    | Other

  type Rows = Log<Body>

  datatype Status = QaReview | Completed_ | OtherStatus

  datatype EpisodeStatus = InQa | ReadyToPublish | Published | Elsewhere

  /** Files the service does not publish exclusively, and what else it consults. */
  datatype Files = Files(
    artifacts: map<string, Content>,
    package: Option<Signed<string>>,
    workspace: Option<string>,
    reports: map<Check, Signed<Report>>,
    human: Option<Signed<Submission>>,
    consent: bool,
    adapters: map<string, nat>)

  datatype Run = Run(
    id: string,
    files: Files,
    seal: Option<Seal>,
    release: Option<Release>,
    dryRuns: map<string, DryRun>,
    rows: Rows,
    status: Status,
    episode: EpisodeStatus)

  // ------------------------------------------------------------ stored answers

  /** rendered_output_integrity: no failure listed, and dialogue consent still holds. */
  predicate IntegrityOk(files: Files, seal: Seal) {
    && files.consent
    && files.package == Some(Signed(seal.package, seal.package))
    && files.workspace == Some(seal.workspace)
    && StillThere(files.artifacts, seal.artifacts)
  }

  function StoredReport(r: Run, check: Check): Option<Report> {
    if check !in r.files.reports then None
    else
      var file := r.files.reports[check];
      if file.body != file.digest || file.body.run != r.id then None else Some(file.body)
  }

  function StoredHuman(r: Run, seal: Seal): Option<Submission> {
    if r.files.human.None? || r.files.human.value.body != r.files.human.value.digest then None
    else
      var s, masters := r.files.human.value.body, OfKind(seal.artifacts, Master);
      if !IntegrityOk(r.files, seal) || |masters| != 1 || s.run != r.id || s.master != masters[0].bytes
          || s.seal != seal
      then None
      else Some(s)
  }

  /** The review completion would use now, with the evidence it would record. */
  function CurrentReview(r: Run, seal: Seal): Option<(Review, Evidence)> {
    if r.files.human.Some? then
      var s := StoredHuman(r, seal);
      if s.None? then None else Some((s.value.review, HumanFile(r.files.human.value)))
    else
      var reports := OfKind(seal.artifacts, QaReport);
      if |reports| != 1 || reports[0].output.path !in r.files.artifacts
         || !r.files.artifacts[reports[0].output.path].ReviewJson?
      then None
      else Some((r.files.artifacts[reports[0].output.path].review, SealedReport(reports[0].bytes)))
  }

  predicate ReviewBinds(r: Run, seal: Seal, review: Review) {
    var masters := OfKind(seal.artifacts, Master);
    review.passes && |masters| == 1 && review.run == r.id && review.master == masters[0].bytes
  }

  function Completions(rows: Rows, run: string): Rows {
    if rows == [] then []
    else
      Completions(rows[..|rows| - 1], run)
      + (if rows[|rows| - 1].run == run && rows[|rows| - 1].body.Completed? then [rows[|rows| - 1]] else [])
  }

  predicate CompletionVerified(r: Run, seal: Seal) {
    var events := Completions(r.rows, r.id);
    && |events| == 1 && events[0].body.Completed?
    && IntegrityOk(r.files, seal)
    && var current := CurrentReview(r, seal);
       && current.Some? && ReviewBinds(r, seal, current.value.0)
       && events[0].body.seal == seal && events[0].body.evidence == current.value.1
  }

  predicate ReportsMatch(r: Run, release: Release) {
    forall check: Check ::
      && check in release.reports
      && StoredReport(r, check) == Some(release.reports[check]) && release.reports[check].pass
  }

  function StoredRelease(r: Run): Option<Release> {
    if r.seal.None? || r.release.None? then None
    else
      var seal, release := r.seal.value, r.release.value;
      if !CompletionVerified(r, seal) || release.run != r.id || !IntegrityOk(r.files, seal) || release.seal != seal
         || release.artifacts != seal.artifacts || !ReportsMatch(r, release)
      then None
      else Some(release)
  }

  function StoredDryRun(r: Run, platform: string): Option<DryRun> {
    if platform !in r.files.adapters || platform !in r.dryRuns then None
    else
      var d, stored := r.dryRuns[platform], StoredRelease(r);
      if stored.None? then None
      else
        var release := stored.value;
        if d.run != r.id || d.platform != platform || d.approval.platform != platform || d.stamp != d.approval.at
           || d.release != release || d.duplicate != Guard(r.id, platform, d.approval.channel, release)
           || d.version != r.files.adapters[platform] || d.plan != Plan(d.version, release, d.approval.channel)
        then None
        else Some(d)
  }

  // ------------------------------------------------------------- operations

  /** An operation between two of its steps, with what it has read or published. */
  datatype Flight =
    | SealReady(seal: Seal)
    | SealPublished(seal: Seal)
    | Completing(seal: Seal, evidence: Evidence)
    | ReleaseReady(release: Release)
    | ReleasePublished(release: Release)
    | DryRunReady(plan: DryRun)
    | DryRunPublished(plan: DryRun)

  datatype Answer =
    | Raises
    | Continues(flight: Flight)
    | ReturnsSeal(seal: Seal)
    | ReturnsCompletion
    | ReturnsRelease(release: Release)
    | ReturnsDryRun(plan: DryRun)

  /** The latest event of a body's kind. */
  function LatestLike(rows: Rows, run: string, body: Body): Option<Body> {
    if rows == [] then None
    else
      var last := rows[|rows| - 1];
      if last.run == run && SameKind(last.body, body) then Some(last.body)
      else LatestLike(rows[..|rows| - 1], run, body)
  }

  predicate SameKind(a: Body, b: Body) {
    (a.Sealed? && b.Sealed?) || (a.Released? && b.Released?) || (a.DryRunCreated? && b.DryRunCreated?)
  }

  /** append_run_event_once: nothing when the latest event of the kind already says it. */
  function AppendOnce(rows: Rows, run: string, body: Body): Rows {
    if LatestLike(rows, run, body) == Some(body) then rows else Append(rows, run, body)
  }

  /** At most one review report, and then a readable one of this run and its one master. */
  predicate ReviewBound(run: string, artifacts: seq<Artifact>) {
    var reviews, masters := OfKind(artifacts, QaReport), OfKind(artifacts, Master);
    reviews != [] ==>
      && |reviews| == 1 && |masters| == 1 && reviews[0].bytes.ReviewJson?
      && reviews[0].bytes.review.run == run && reviews[0].bytes.review.master == masters[0].bytes
  }

  /** Read and hash the named outputs, and list them in path order. */
  function SealCandidate(r: Run, outputs: seq<Output>, author: string, stamp: nat): Option<Seal> {
    if !ValidRequest(outputs) || r.status != QaReview || !r.files.consent || r.files.package.None?
        || r.files.workspace.None?
       || r.files.package.value.body != r.files.package.value.digest || !Readable(r.files.artifacts, outputs)
    then None
    else
      var artifacts := ByPath(ReadAll(r.files.artifacts, outputs));
      if !ReviewBound(r.id, artifacts) then None
      else Some(Seal(r.id, r.files.package.value.body, r.files.workspace.value, artifacts, author, stamp))
  }

  function BeginSeal(r: Run, outputs: seq<Output>, author: string, stamp: nat): Answer {
    var seal := SealCandidate(r, outputs, author, stamp);
    if seal.None? then Raises else Continues(SealReady(seal.value))
  }

  /** Publish exclusively, or recover the very same outputs sealed before. */
  function PublishSeal(r: Run, seal: Seal): (Run, Answer) {
    if r.seal.None? then (r.(seal := Some(seal)), Continues(SealPublished(seal)))
    else
      var existing := r.seal.value;
      var prior := LatestLike(r.rows, r.id, Sealed(existing));
      if existing.(stamp := seal.stamp) != seal || r.files.workspace != Some(existing.workspace) then (r, Raises)
      else if prior.Some? then (r, if prior.value == Sealed(existing) then ReturnsSeal(existing) else Raises)
      else (r.(rows := Append(r.rows, r.id, Sealed(existing))), ReturnsSeal(existing))
  }

  function BeginCompletion(r: Run, named: Seal, allowed: bool): Answer {
    if r.seal.None? then Raises
    else
      var seal := r.seal.value;
      if !IntegrityOk(r.files, seal) || named != seal || !allowed || OfKind(seal.artifacts, Subtitles) == [] then Raises
      else
        var current := CurrentReview(r, seal);
        if current.None? || !ReviewBinds(r, seal, current.value.0) || !ReportsPass(r, seal) then Raises
        else Continues(Completing(seal, current.value.1))
  }

  /** All five automated reports are readable, passed, and reviewed this seal. */
  predicate ReportsPass(r: Run, seal: Seal) {
    forall check: Check ::
      StoredReport(r, check).Some? && StoredReport(r, check).value.pass && StoredReport(r, check).value.seal == seal
  }

  /** complete_run_after_qa, one transaction. */
  function CommitCompletion(r: Run, seal: Seal, evidence: Evidence): (Run, Answer) {
    var prior := Completions(r.rows, r.id);
    if r.status == Completed_ && r.episode == ReadyToPublish then
      if prior != [] && prior[|prior| - 1].body == Completed(seal, evidence) then (r, ReturnsCompletion)
          else (r, Raises)
    else if r.status != QaReview || r.episode != InQa then (r, Raises)
    else
      (r.(rows := Append(r.rows, r.id, Completed(seal, evidence)), status := Completed_, episode := ReadyToPublish),
       ReturnsCompletion)
  }

  predicate OneOfEach(seal: Seal) {
    |OfKind(seal.artifacts, Master)| == 1 && |OfKind(seal.artifacts, Subtitles)| == 1
        && |OfKind(seal.artifacts, Cover)| == 1
  }

  function BeginRelease(r: Run, title: string, author: string, stamp: nat): (Run, Answer) {
    if r.status != Completed_ || r.episode != ReadyToPublish || r.seal.None? then (r, Raises)
    else
      var seal := r.seal.value;
      if !CompletionVerified(r, seal) || !ReportsPass(r, seal) || !OneOfEach(seal) then (r, Raises)
      else
        var reports := map check: Check | check in AllChecks() :: StoredReport(r, check).value;
        if r.release.None? then
          (r, Continues(ReleaseReady(Release(r.id, seal, seal.artifacts, reports, title, author, stamp))))
        else
          var existing := StoredRelease(r);
          if existing.None? || existing.value.reports != reports || existing.value.title != title
             || existing.value.author != author
          then (r, Raises)
          else (r.(rows := AppendOnce(r.rows, r.id, Released(existing.value))), ReturnsRelease(existing.value))
  }

  function AllChecks(): set<Check> {
    {Structure, Decoded, Semantic, PostLineage, Visual}
  }

  function PublishRelease(r: Run, release: Release): (Run, Answer) {
    if r.release.Some? then (r, Raises) else (r.(release := Some(release)), Continues(ReleasePublished(release)))
  }

  function BeginDryRun(r: Run, approval: Approval, allowed: bool): (Run, Answer) {
    var stored := StoredRelease(r);
    if r.status != Completed_ || !(r.episode == ReadyToPublish || r.episode == Published) || !allowed
       || stored.None? || approval.platform !in r.files.adapters
    then (r, Raises)
    else if approval.platform in r.dryRuns then
      var existing := StoredDryRun(r, approval.platform);
      if existing.None? || existing.value.approval.(at := approval.at) != approval then (r, Raises)
      else (r.(rows := AppendOnce(r.rows, r.id, DryRunCreated(existing.value))), ReturnsDryRun(existing.value))
    else
      var release, version := stored.value, r.files.adapters[approval.platform];
      (r, Continues(DryRunReady(DryRun(r.id, release, approval.platform, version, approval,
                                       Guard(r.id, approval.platform, approval.channel, release),
                                       Plan(version, release, approval.channel), approval.at))))
  }

  function PublishDryRun(r: Run, plan: DryRun): (Run, Answer) {
    if plan.platform in r.dryRuns then (r, Raises)
    else (r.(dryRuns := r.dryRuns[plan.platform := plan]), Continues(DryRunPublished(plan)))
  }

  /** The next step of an operation in flight. */
  function Proceed(r: Run, f: Flight): (Run, Answer) {
    match f
    case SealReady(seal) => PublishSeal(r, seal)
    case SealPublished(seal) => (r.(rows := Append(r.rows, r.id, Sealed(seal))), ReturnsSeal(seal))
    case Completing(seal, evidence) => CommitCompletion(r, seal, evidence)
    case ReleaseReady(release) => PublishRelease(r, release)
    case ReleasePublished(release) => (r.(rows := AppendOnce(r.rows, r.id, Released(release))), ReturnsRelease(release))
    case DryRunReady(plan) => PublishDryRun(r, plan)
    case DryRunPublished(plan) => (r.(rows := AppendOnce(r.rows, r.id, DryRunCreated(plan))), ReturnsDryRun(plan))
  }

  // ------------------------------------------------------------- interleavings

  datatype World = World(run: Run, flights: map<nat, Flight>)

  /** `Change` is anything at all that happens to the other files: a QA report or a human
      review written by the service, an artifact edited, lost or restored by anyone. */
  datatype Action =
    | Change(files: Files)
    | ChangeStatus(status: Status, episode: EpisodeStatus)
    | OtherEvent(run: string)
    | StartSeal(pid: nat, outputs: seq<Output>, author: string, stamp: nat)
    | StartCompletion(pid: nat, named: Seal, allowed: bool)
    | StartRelease(pid: nat, title: string, author: string, stamp: nat)
    | StartDryRun(pid: nat, approval: Approval, allowed: bool)
    | Continue(pid: nat)
    | Dies(pid: nat)

  function NewRun(id: string, files: Files): World {
    World(Run(id, files, None, None, map[], [], OtherStatus, Elsewhere), map[])
  }

  function Land(w: World, pid: nat, step: (Run, Answer)): World {
    World(step.0, if step.1.Continues? then w.flights[pid := step.1.flight] else w.flights - {pid})
  }

  function Next(w: World, a: Action): World {
    match a
    case Change(files) => w.(run := w.run.(files := files))
    case ChangeStatus(status, episode) =>
      // Only complete_run_after_qa completes a run, and nothing reopens it.
      var kept := if w.run.status == Completed_ || status == Completed_ then w.run.status else status;
      w.(run := w.run.(status := kept, episode := episode))
    case OtherEvent(run) => w.(run := w.run.(rows := Append(w.run.rows, run, Other)))
    case StartSeal(pid, outputs, author, stamp) => Land(w, pid, (w.run, BeginSeal(w.run, outputs, author, stamp)))
    case StartCompletion(pid, named, allowed) => Land(w, pid, (w.run, BeginCompletion(w.run, named, allowed)))
    case StartRelease(pid, title, author, stamp) => Land(w, pid, BeginRelease(w.run, title, author, stamp))
    case StartDryRun(pid, approval, allowed) => Land(w, pid, BeginDryRun(w.run, approval, allowed))
    case Continue(pid) => if pid in w.flights then Land(w, pid, Proceed(w.run, w.flights[pid])) else w
    case Dies(pid) => w.(flights := w.flights - {pid})
  }

  function After(start: World, actions: seq<Action>): World {
    if actions == [] then start else Next(After(start, actions[..|actions| - 1]), actions[|actions| - 1])
  }

  // ----------------------------------------------------------------- invariant

  predicate ReleaseOk(r: Run, release: Release) {
    && r.seal == Some(release.seal) && release.run == r.id && release.artifacts == release.seal.artifacts
    && forall check: Check ::
         check in release.reports && release.reports[check].pass && release.reports[check].seal == release.seal
  }

  predicate DryRunOk(r: Run, platform: string, d: DryRun) {
    r.release == Some(d.release) && d.platform == platform
  }

  /** Every event names the one seal, release or dry run there is. */
  predicate EventOk(r: Run, e: Event<Body>) {
    e.run == r.id ==>
      match e.body
      case Completed(seal, _) => r.seal == Some(seal)
      case Sealed(seal) => r.seal == Some(seal)
      case Released(release) => r.release == Some(release)
      case DryRunCreated(d) => d.platform in r.dryRuns && r.dryRuns[d.platform] == d
      case Other => true
  }

  predicate EventsOk(r: Run) {
    forall i :: 0 <= i < |r.rows| ==> EventOk(r, r.rows[i])
  }

  predicate RunOk(r: Run) {
    && (r.release.Some? ==> ReleaseOk(r, r.release.value))
    && (forall p :: p in r.dryRuns ==> DryRunOk(r, p, r.dryRuns[p]))
    && |Completions(r.rows, r.id)| == (if r.status == Completed_ then 1 else 0)
    && EventsOk(r)
  }

  predicate FlightOk(r: Run, f: Flight) {
    match f
    case SealReady(seal) => true
    case SealPublished(seal) => r.seal == Some(seal)
    case Completing(seal, _) => r.seal == Some(seal)
    case ReleaseReady(release) => ReleaseOk(r, release)
    case ReleasePublished(release) => r.release == Some(release)
    case DryRunReady(d) => r.release == Some(d.release)
    case DryRunPublished(d) => d.platform in r.dryRuns && r.dryRuns[d.platform] == d
  }

  predicate Sound(w: World) {
    RunOk(w.run) && forall p :: p in w.flights ==> FlightOk(w.run, w.flights[p])
  }

  /** What a step may do to the three published files. */
  predicate Keeps(r: Run, r': Run) {
    && r'.id == r.id
    && (r.seal.Some? ==> r'.seal == r.seal)
    && (r.release.Some? ==> r'.release == r.release)
    && (forall p :: p in r.dryRuns ==> p in r'.dryRuns && r'.dryRuns[p] == r.dryRuns[p])
  }

  // -------------------------------------------------------------- preservation

  lemma {:induction false} CompletionsAppend(rows: Rows, e: Event<Body>, run: string)
    ensures Completions(rows + [e], run)
            == Completions(rows, run) + (if e.run == run && e.body.Completed? then [e] else [])
  {
    assert (rows + [e])[..|rows|] == rows;
  }

  /** A new event of this run, naming what is published, keeps the run sound. */
  lemma AppendKeepsRun(r: Run, run: string, body: Body)
    requires RunOk(r) && !body.Completed?
    requires EventOk(r, Event(|r.rows|, run, MaxSequence(r.rows, run) + 1, body))
    ensures RunOk(r.(rows := Append(r.rows, run, body)))
  {
  }

  lemma AppendOnceKeepsRun(r: Run, body: Body)
    requires RunOk(r) && !body.Completed?
    requires EventOk(r, Event(|r.rows|, r.id, MaxSequence(r.rows, r.id) + 1, body))
    ensures RunOk(r.(rows := AppendOnce(r.rows, r.id, body)))
  {
    AppendKeepsRun(r, r.id, body);
  }

  predicate StepOk(r: Run, step: (Run, Answer)) {
    RunOk(step.0) && Keeps(r, step.0) && (step.1.Continues? ==> FlightOk(step.0, step.1.flight))
  }

  lemma PublishSealOk(r: Run, seal: Seal)
    requires RunOk(r)
    ensures StepOk(r, PublishSeal(r, seal))
  {
    var r' := PublishSeal(r, seal).0;
    if r.seal.None? {
    } else if r' != r {
      AppendKeepsRun(r, r.id, Sealed(r.seal.value));
    }
  }

  lemma OneMoreEvent(r: Run, r': Run, e: Event<Body>)
    requires EventsOk(r) && Keeps(r, r') && r'.rows == r.rows + [e] && EventOk(r', e)
    ensures EventsOk(r')
  {
  }

  lemma CommitCompletionOk(r: Run, seal: Seal, evidence: Evidence)
    requires RunOk(r) && r.seal == Some(seal)
    ensures StepOk(r, CommitCompletion(r, seal, evidence))
  {
    if r.status == QaReview && r.episode == InQa {
      CompletingOk(r, seal, evidence);
    }
  }

  lemma CompletingOk(r: Run, seal: Seal, evidence: Evidence)
    requires RunOk(r) && r.seal == Some(seal) && r.status != Completed_
    ensures var r' := r.(rows := Append(r.rows, r.id, Completed(seal, evidence)), status := Completed_,
                         episode := ReadyToPublish);
            RunOk(r') && Keeps(r, r')
  {
    var r' := r.(rows := Append(r.rows, r.id, Completed(seal, evidence)), status := Completed_,
                 episode := ReadyToPublish);
    var e := r'.rows[|r.rows|];
    CompletionsAppend(r.rows, e, r.id);
    OneMoreEvent(r, r', e);
  }

  lemma PublishReleaseOk(r: Run, release: Release)
    requires RunOk(r) && ReleaseOk(r, release)
    ensures StepOk(r, PublishRelease(r, release))
  {
  }

  lemma PublishDryRunOk(r: Run, d: DryRun)
    requires RunOk(r) && r.release == Some(d.release)
    ensures StepOk(r, PublishDryRun(r, d))
  {
  }

  lemma {:induction false} ProceedOk(r: Run, f: Flight)
    requires RunOk(r) && FlightOk(r, f)
    ensures StepOk(r, Proceed(r, f))
  {
    match f
    case SealReady(seal) => PublishSealOk(r, seal);
    case SealPublished(seal) => AppendKeepsRun(r, r.id, Sealed(seal));
    case Completing(seal, evidence) => CommitCompletionOk(r, seal, evidence);
    case ReleaseReady(release) => PublishReleaseOk(r, release);
    case ReleasePublished(release) => AppendOnceKeepsRun(r, Released(release));
    case DryRunReady(d) => PublishDryRunOk(r, d);
    case DryRunPublished(d) => AppendOnceKeepsRun(r, DryRunCreated(d));
  }

  lemma BeginReleaseOk(r: Run, title: string, author: string, stamp: nat)
    requires RunOk(r)
    ensures StepOk(r, BeginRelease(r, title, author, stamp))
  {
    var (r', answer) := BeginRelease(r, title, author, stamp);
    if answer.Continues? {
      forall check: Check ensures check in answer.flight.release.reports {
        match check case Structure => case Decoded => case Semantic => case PostLineage => case Visual =>
      }
    }
    if answer.ReturnsRelease? {
      AppendOnceKeepsRun(r, Released(answer.release));
    }
  }

  lemma BeginDryRunOk(r: Run, approval: Approval, allowed: bool)
    requires RunOk(r)
    ensures StepOk(r, BeginDryRun(r, approval, allowed))
  {
    var (r', answer) := BeginDryRun(r, approval, allowed);
    if answer.ReturnsDryRun? {
      AppendOnceKeepsRun(r, DryRunCreated(answer.plan));
    }
  }

  lemma LandKeepsSound(w: World, pid: nat, step: (Run, Answer))
    requires Sound(w) && StepOk(w.run, step)
    ensures Sound(Land(w, pid, step)) && Keeps(w.run, Land(w, pid, step).run)
  {
  }

  lemma {:induction false} NextKeepsSound(w: World, a: Action)
    requires Sound(w)
    ensures Sound(Next(w, a)) && Keeps(w.run, Next(w, a).run)
  {
    match a
    case Change(files) => ChangeKeepsSound(w, w.run.(files := files));
    case ChangeStatus(status, episode) => ChangeKeepsSound(w, Next(w, a).run);
    case OtherEvent(run) =>
      AppendKeepsRun(w.run, run, Other);
    case StartSeal(pid, outputs, author, stamp) =>
      LandKeepsSound(w, pid, (w.run, BeginSeal(w.run, outputs, author, stamp)));
    case StartCompletion(pid, named, allowed) =>
      LandKeepsSound(w, pid, (w.run, BeginCompletion(w.run, named, allowed)));
    case StartRelease(pid, title, author, stamp) =>
      BeginReleaseOk(w.run, title, author, stamp);
      LandKeepsSound(w, pid, BeginRelease(w.run, title, author, stamp));
    case StartDryRun(pid, approval, allowed) =>
      BeginDryRunOk(w.run, approval, allowed);
      LandKeepsSound(w, pid, BeginDryRun(w.run, approval, allowed));
    case Continue(pid) =>
      if pid in w.flights {
        ProceedOk(w.run, w.flights[pid]);
        LandKeepsSound(w, pid, Proceed(w.run, w.flights[pid]));
      }
    case Dies(pid) =>
  }

  lemma ChangeKeepsSound(w: World, r': Run)
    requires Sound(w) && (r'.status == Completed_ <==> w.run.status == Completed_)
    requires r' == w.run.(files := r'.files, status := r'.status, episode := r'.episode)
    ensures Sound(w.(run := r')) && Keeps(w.run, r')
  {
  }

  lemma {:induction false} EveryRunIsSound(id: string, files: Files, actions: seq<Action>)
    ensures Sound(After(NewRun(id, files), actions)) && After(NewRun(id, files), actions).run.id == id
  {
    if actions != [] {
      EveryRunIsSound(id, files, actions[..|actions| - 1]);
      NextKeepsSound(After(NewRun(id, files), actions[..|actions| - 1]), actions[|actions| - 1]);
    }
  }

  // --------------------------------------------------------------- main results

  lemma {:induction false} AfterSplit(w: World, start: seq<Action>, more: seq<Action>)
    requires more != []
    ensures After(w, start + more) == Next(After(w, start + more[..|more| - 1]), more[|more| - 1])
  {
    assert (start + more)[..|start + more| - 1] == start + more[..|more| - 1];
  }

  lemma KeepsTwice(r: Run, s: Run, t: Run)
    requires Keeps(r, s) && Keeps(s, t)
    ensures Keeps(r, t)
  {
  }

  /** Over every run, interleaving and change of other files: a seal, a release package
      and each platform's dry run stay what they were when first published. */
  lemma {:induction false} PublishedFilesNeverChange(id: string, files: Files, start: seq<Action>, more: seq<Action>)
    ensures Keeps(After(NewRun(id, files), start).run, After(NewRun(id, files), start + more).run)
  {
    if more == [] {
      assert start + more == start;
    } else {
      var n := |more| - 1;
      PublishedFilesNeverChange(id, files, start, more[..n]);
      AfterSplit(NewRun(id, files), start, more);
      EveryRunIsSound(id, files, start + more[..n]);
      NextKeepsSound(After(NewRun(id, files), start + more[..n]), more[n]);
      KeepsTwice(After(NewRun(id, files), start).run, After(NewRun(id, files), start + more[..n]).run,
                 After(NewRun(id, files), start + more).run);
    }
  }

  /** A new seal records exactly the named outputs as they are on disk, in path order, and
      passes its own integrity check. */
  lemma SealRecordsTheDisk(r: Run, outputs: seq<Output>, author: string, stamp: nat)
    requires SealCandidate(r, outputs, author, stamp).Some?
    ensures var seal := SealCandidate(r, outputs, author, stamp).value;
            && IntegrityOk(r.files, seal) && Ascends(seal.artifacts) && |seal.artifacts| == |outputs|
            && forall a: Artifact :: a in seal.artifacts <==> a.output in outputs && HasPath(r.files.artifacts, a)
  {
    SortedReadHolds(r.files.artifacts, outputs);
    var seal := SealCandidate(r, outputs, author, stamp).value;
    forall i | 0 <= i < |seal.artifacts| ensures HasPath(r.files.artifacts, seal.artifacts[i]) {
      assert seal.artifacts[i] in seal.artifacts;
    }
  }

  /** A completion that goes through undisturbed is the one the release step then verifies. */
  lemma CompletionIsVerified(id: string, files: Files, actions: seq<Action>, named: Seal, allowed: bool, f: Flight)
    requires var r := After(NewRun(id, files), actions).run;
             && r.status == QaReview && r.episode == InQa && BeginCompletion(r, named, allowed) == Continues(f)
    ensures var (r', answer) := Proceed(After(NewRun(id, files), actions).run, f);
            && answer == ReturnsCompletion && r'.status == Completed_ && r'.episode == ReadyToPublish
            && CompletionVerified(r', named) && ReportsPass(r', named)
  {
    EveryRunIsSound(id, files, actions);
    CommittedIsVerified(After(NewRun(id, files), actions).run, named, allowed, f);
  }

  lemma CommittedIsVerified(r: Run, named: Seal, allowed: bool, f: Flight)
    requires RunOk(r) && r.status == QaReview && r.episode == InQa && BeginCompletion(r, named, allowed) == Continues(f)
    ensures var (r', answer) := Proceed(r, f);
            && answer == ReturnsCompletion && r'.status == Completed_ && r'.episode == ReadyToPublish
            && CompletionVerified(r', named) && ReportsPass(r', named)
  {
    var r' := Proceed(r, f).0;
    CompletionsAppend(r.rows, r'.rows[|r.rows|], r.id);
    forall check: Check ensures StoredReport(r', check) == StoredReport(r, check) {}
  }

  /** A release published undisturbed is the one read back. */
  lemma FreshReleaseIsStored(r: Run, title: string, author: string, stamp: nat, release: Release)
    requires BeginRelease(r, title, author, stamp) == (r, Continues(ReleaseReady(release)))
    ensures StoredRelease(PublishRelease(r, release).0) == Some(release)
  {
    forall check: Check
      ensures check in release.reports && StoredReport(r, check) == Some(release.reports[check])
          && release.reports[check].pass
    {
      match check case Structure => case Decoded => case Semantic => case PostLineage => case Visual =>
    }
    assert ReportsMatch(PublishRelease(r, release).0, release) by {
      forall check: Check ensures StoredReport(PublishRelease(r, release).0, check) == StoredReport(r, check) {}
    }
  }

  /** And so is a dry run. */
  lemma FreshDryRunIsStored(r: Run, approval: Approval, allowed: bool, d: DryRun)
    requires BeginDryRun(r, approval, allowed) == (r, Continues(DryRunReady(d)))
    ensures StoredDryRun(PublishDryRun(r, d).0, approval.platform) == Some(d)
  {
    var r' := PublishDryRun(r, d).0;
    assert StoredRelease(r') == StoredRelease(r);
  }

  /** One completion at most, and every sealed, released or dry-run event names the
      one seal, release or dry run that exists. */
  lemma EventsNameWhatExists(id: string, files: Files, actions: seq<Action>, i: nat)
    requires i < |After(NewRun(id, files), actions).run.rows|
    ensures var r := After(NewRun(id, files), actions).run;
            && EventOk(r, r.rows[i])
            && |Completions(r.rows, id)| == (if r.status == Completed_ then 1 else 0)
  {
    EveryRunIsSound(id, files, actions);
  }

  lemma {:induction false} LatestLikeIsThere(rows: Rows, run: string, body: Body)
    ensures var latest := LatestLike(rows, run, body);
            latest.Some? ==> SameKind(latest.value, body)
                             && exists i :: 0 <= i < |rows| && rows[i].run == run && rows[i].body == latest.value
  {
    if rows != [] && !(rows[|rows| - 1].run == run && SameKind(rows[|rows| - 1].body, body)) {
      LatestLikeIsThere(rows[..|rows| - 1], run, body);
      var latest := LatestLike(rows, run, body);
      if latest.Some? {
        var i :| 0 <= i < |rows| - 1 && rows[..|rows| - 1][i].run == run && rows[..|rows| - 1][i].body == latest.value;
      }
    }
  }

  /** Whatever of its kind was recorded last is the very file that exists. */
  lemma {:induction false} LatestLikeNamesIt(r: Run, body: Body)
    requires RunOk(r)
    requires (body.Released? && r.release == Some(body.release)) || (body.Sealed? && r.seal == Some(body.seal))
    ensures LatestLike(r.rows, r.id, body) == None || LatestLike(r.rows, r.id, body) == Some(body)
  {
    LatestLikeIsThere(r.rows, r.id, body);
    var latest := LatestLike(r.rows, r.id, body);
    if latest.Some? {
      var i :| 0 <= i < |r.rows| && r.rows[i].run == r.id && r.rows[i].body == latest.value;
    }
  }

  /** What every seal satisfies from the moment it is put together. */
  predicate WellSealed(run: string, seal: Seal) {
    && seal.run == run && Ascends(seal.artifacts) && ReviewBound(run, seal.artifacts)
    && forall i :: 0 <= i < |seal.artifacts| ==> seal.artifacts[i].bytes != Raw("")
  }

  predicate SealsSound(w: World) {
    && (w.run.seal.Some? ==> WellSealed(w.run.id, w.run.seal.value))
    && forall p :: p in w.flights && w.flights[p].SealReady? ==> WellSealed(w.run.id, w.flights[p].seal)
  }

  lemma CandidateIsWellSealed(r: Run, outputs: seq<Output>, author: string, stamp: nat)
    requires SealCandidate(r, outputs, author, stamp).Some?
    ensures WellSealed(r.id, SealCandidate(r, outputs, author, stamp).value)
  {
    SealRecordsTheDisk(r, outputs, author, stamp);
    var seal := SealCandidate(r, outputs, author, stamp).value;
    forall i | 0 <= i < |seal.artifacts| ensures seal.artifacts[i].bytes != Raw("") {
      assert seal.artifacts[i] in seal.artifacts;
    }
  }

  predicate StepSeals(r: Run, step: (Run, Answer)) {
    && step.0.id == r.id
    && (step.0.seal != r.seal ==> step.0.seal.Some? && WellSealed(r.id, step.0.seal.value))
    && (step.1.Continues? && step.1.flight.SealReady? ==> WellSealed(r.id, step.1.flight.seal))
  }

  lemma LandKeepsSeals(w: World, pid: nat, step: (Run, Answer))
    requires SealsSound(w) && StepSeals(w.run, step)
    ensures SealsSound(Land(w, pid, step))
  {
  }

  lemma ProceedSeals(r: Run, f: Flight)
    requires f.SealReady? ==> WellSealed(r.id, f.seal)
    ensures StepSeals(r, Proceed(r, f))
  {
  }

  lemma NextKeepsSeals(w: World, a: Action)
    requires SealsSound(w)
    ensures SealsSound(Next(w, a))
  {
    match a
    case StartSeal(pid, outputs, author, stamp) =>
      if SealCandidate(w.run, outputs, author, stamp).Some? {
        CandidateIsWellSealed(w.run, outputs, author, stamp);
      }
      LandKeepsSeals(w, pid, (w.run, BeginSeal(w.run, outputs, author, stamp)));
    case StartCompletion(pid, named, allowed) =>
      LandKeepsSeals(w, pid, (w.run, BeginCompletion(w.run, named, allowed)));
    case StartRelease(pid, title, author, stamp) => LandKeepsSeals(w, pid, BeginRelease(w.run, title, author, stamp));
    case StartDryRun(pid, approval, allowed) => LandKeepsSeals(w, pid, BeginDryRun(w.run, approval, allowed));
    case Continue(pid) =>
      if pid in w.flights {
        ProceedSeals(w.run, w.flights[pid]);
        LandKeepsSeals(w, pid, Proceed(w.run, w.flights[pid]));
      }
    case _ =>
  }

  lemma {:induction false} EverySealIsWell(id: string, files: Files, actions: seq<Action>)
    ensures SealsSound(After(NewRun(id, files), actions))
  {
    if actions != [] {
      EverySealIsWell(id, files, actions[..|actions| - 1]);
      NextKeepsSeals(After(NewRun(id, files), actions[..|actions| - 1]), actions[|actions| - 1]);
    }
  }

  lemma SameOutputsSameCandidate(r: Run, seal: Seal, outputs: seq<Output>, stamp: nat)
    requires WellSealed(r.id, seal) && r.status == QaReview && IntegrityOk(r.files, seal)
    requires ValidRequest(outputs) && NamesSealed(outputs, seal.artifacts)
    ensures SealCandidate(r, outputs, seal.author, stamp) == Some(seal.(stamp := stamp))
  {
    SameOutputsSameList(r.files.artifacts, outputs, seal.artifacts);
  }

  lemma SameCandidateSameOutputs(r: Run, seal: Seal, outputs: seq<Output>, author: string, stamp: nat)
    requires SealCandidate(r, outputs, author, stamp) == Some(seal.(stamp := stamp))
    ensures author == seal.author && r.status == QaReview && IntegrityOk(r.files, seal)
        && NamesSealed(outputs, seal.artifacts)
  {
    SealRecordsTheDisk(r, outputs, author, stamp);
    forall i | 0 <= i < |outputs|
      ensures exists k :: 0 <= k < |seal.artifacts| && seal.artifacts[k].output == outputs[i]
    {
      assert Artifact(outputs[i], r.files.artifacts[outputs[i].path]) in seal.artifacts;
    }
    forall k | 0 <= k < |seal.artifacts| ensures seal.artifacts[k].output in outputs {
      assert seal.artifacts[k] in seal.artifacts;
    }
  }

  /** Once a run is sealed, a whole seal call answers with that seal exactly when the run is
      in QA review, consent, package, workspace and sealed bytes still stand, the author is
      the same and the request names the sealed outputs, in any order; it then records a
      lost event and nothing else. Any other request is refused and changes nothing. */
  lemma ExactSealRepeat(id: string, files: Files, actions: seq<Action>, outputs: seq<Output>, author: string,
                        stamp: nat)
    requires After(NewRun(id, files), actions).run.seal.Some? && ValidRequest(outputs)
    ensures var r := After(NewRun(id, files), actions).run;
            var seal := r.seal.value;
            var (r', answer) := Finish((r, BeginSeal(r, outputs, author, stamp)));
            if r.status == QaReview && IntegrityOk(r.files, seal) && author == seal.author
                && NamesSealed(outputs, seal.artifacts) then
              && answer == ReturnsSeal(seal) && r' == r.(rows := r'.rows)
              && LatestLike(r'.rows, id, Sealed(seal)) == Some(Sealed(seal))
              && (r'.rows == r.rows || r'.rows == Append(r.rows, id, Sealed(seal)))
            else answer == Raises && r' == r
  {
    EveryRunIsSound(id, files, actions);
    EverySealIsWell(id, files, actions);
    var r := After(NewRun(id, files), actions).run;
    LatestLikeNamesIt(r, Sealed(r.seal.value));
    if r.status == QaReview && IntegrityOk(r.files, r.seal.value) && author == r.seal.value.author
       && NamesSealed(outputs, r.seal.value.artifacts) {
      SameOutputsSameCandidate(r, r.seal.value, outputs, stamp);
    } else if SealCandidate(r, outputs, author, stamp) == Some(r.seal.value.(stamp := stamp)) {
      SameCandidateSameOutputs(r, r.seal.value, outputs, author, stamp);
    }
    FinishUnfolds((r, BeginSeal(r, outputs, author, stamp)));
    SealAgain(r, outputs, author, stamp);
  }

  lemma SealAgain(r: Run, outputs: seq<Output>, author: string, stamp: nat)
    requires r.seal.Some?
    requires var latest := LatestLike(r.rows, r.id, Sealed(r.seal.value));
             latest == None || latest == Some(Sealed(r.seal.value))
    ensures var seal, rows := r.seal.value, r.rows;
            Finish((r, BeginSeal(r, outputs, author, stamp)))
            == if SealCandidate(r, outputs, author, stamp) != Some(seal.(stamp := stamp))
                || r.files.workspace != Some(seal.workspace)
               then (r, Raises)
               else if LatestLike(rows, r.id, Sealed(seal)).Some? then (r, ReturnsSeal(seal))
               else (r.(rows := Append(rows, r.id, Sealed(seal))), ReturnsSeal(seal))
  {
    FinishUnfolds((r, BeginSeal(r, outputs, author, stamp)));
    if SealCandidate(r, outputs, author, stamp).Some? {
      FinishUnfolds(PublishSeal(r, SealCandidate(r, outputs, author, stamp).value));
    }
  }

  /** With a release package on disk a new one is never started: the same request is
      answered with it, its event recorded exactly once over all repeats, and any other
      request is refused. */
  lemma ExactReleaseRepeat(id: string, files: Files, actions: seq<Action>, title: string, author: string, stamp: nat)
    requires After(NewRun(id, files), actions).run.release.Some?
    ensures var r := After(NewRun(id, files), actions).run;
            var (r', answer) := BeginRelease(r, title, author, stamp);
            && (answer == Raises || answer == ReturnsRelease(r.release.value))
            && (answer.ReturnsRelease? ==> r.release.value.title == title && r.release.value.author == author)
            && (answer.ReturnsRelease? ==> ReleaseEvents(r'.rows, id) == 1)
            && ReleaseEvents(r.rows, id) <= 1
  {
    EveryRunIsSound(id, files, actions);
    var r := After(NewRun(id, files), actions).run;
    ReleaseRecordedOnce(id, files, actions);
    var release := r.release.value;
    LatestLikeNamesIt(r, Released(release));
    LatestReleaseCounts(r.rows, id, release);
  }

  lemma SameReports(r: Run, release: Release)
    requires ReportsMatch(r, release) && ReleaseOk(r, release)
    ensures ReportsPass(r, release.seal)
    ensures release.reports == map check: Check | check in AllChecks() :: StoredReport(r, check).value
  {
    forall check: Check ensures check in AllChecks() && StoredReport(r, check) == Some(release.reports[check]) {
      match check case Structure => case Decoded => case Semantic => case PostLineage => case Visual =>
    }
  }

  function ReleaseEvents(rows: Rows, run: string): nat {
    if rows == [] then 0
    else
      ReleaseEvents(rows[..|rows| - 1], run)
      + (if rows[|rows| - 1].run == run && rows[|rows| - 1].body.Released? then 1 else 0)
  }

  lemma {:induction false} LatestReleaseCounts(rows: Rows, run: string, release: Release)
    ensures LatestLike(rows, run, Released(release)).None? <==> ReleaseEvents(rows, run) == 0
  {
    if rows != [] {
      LatestReleaseCounts(rows[..|rows| - 1], run, release);
    }
  }

  /** Rows grow by at most one event a step; a release event only when there is none. */
  predicate GrowsWell(r: Run, rows': Rows) {
    || rows' == r.rows
    || (|rows'| == |r.rows| + 1 && rows'[..|r.rows|] == r.rows
        && (rows'[|r.rows|].run == r.id && rows'[|r.rows|].body.Released? ==>
              LatestLike(r.rows, r.id, rows'[|r.rows|].body) != Some(rows'[|r.rows|].body)
              && r.release == Some(rows'[|r.rows|].body.release)))
  }

  lemma ProceedGrowsWell(r: Run, f: Flight)
    requires FlightOk(r, f)
    ensures GrowsWell(r, Proceed(r, f).0.rows)
  {
    match f
    case SealReady(seal) =>
    case SealPublished(seal) =>
    case Completing(seal, evidence) =>
    case ReleaseReady(release) =>
    case ReleasePublished(release) =>
    case DryRunReady(d) =>
    case DryRunPublished(d) =>
  }

  lemma BeginReleaseGrowsWell(r: Run, title: string, author: string, stamp: nat)
    ensures GrowsWell(r, BeginRelease(r, title, author, stamp).0.rows)
  {
  }

  lemma BeginDryRunGrowsWell(r: Run, approval: Approval, allowed: bool)
    ensures GrowsWell(r, BeginDryRun(r, approval, allowed).0.rows)
  {
  }

  lemma NextGrowsWell(w: World, a: Action)
    requires Sound(w)
    ensures GrowsWell(w.run, Next(w, a).run.rows)
  {
    match a
    case Change(_) =>
    case ChangeStatus(_, _) =>
    case OtherEvent(_) =>
    case StartSeal(_, _, _, _) =>
    case StartCompletion(_, _, _) =>
    case StartRelease(_, title, author, stamp) => BeginReleaseGrowsWell(w.run, title, author, stamp);
    case StartDryRun(_, approval, allowed) => BeginDryRunGrowsWell(w.run, approval, allowed);
    case Continue(pid) =>
      if pid in w.flights {
        ProceedGrowsWell(w.run, w.flights[pid]);
      }
    case Dies(_) =>
  }

  lemma {:induction false} GrowsKeepsOnce(r: Run, rows': Rows)
    requires RunOk(r) && GrowsWell(r, rows') && ReleaseEvents(r.rows, r.id) <= 1
    ensures ReleaseEvents(rows', r.id) <= 1
  {
    if rows' != r.rows {
      var e := rows'[|r.rows|];
      if e.run == r.id && e.body.Released? {
        LatestLikeNamesIt(r, e.body);
        LatestReleaseCounts(r.rows, r.id, e.body.release);
      }
    }
  }

  lemma {:induction false} ReleaseRecordedOnce(id: string, files: Files, actions: seq<Action>)
    ensures ReleaseEvents(After(NewRun(id, files), actions).run.rows, id) <= 1
  {
    if actions != [] {
      var before := actions[..|actions| - 1];
      ReleaseRecordedOnce(id, files, before);
      EveryRunIsSound(id, files, before);
      NextGrowsWell(After(NewRun(id, files), before), actions[|actions| - 1]);
      GrowsKeepsOnce(After(NewRun(id, files), before).run, After(NewRun(id, files), actions).run.rows);
    }
  }

  /** The completion transaction repeated with the same evidence changes nothing, and
      with any other evidence it is refused. */
  lemma CompletionIsFinal(id: string, files: Files, actions: seq<Action>, seal: Seal, evidence: Evidence)
    requires After(NewRun(id, files), actions).run.status == Completed_
    ensures var r := After(NewRun(id, files), actions).run;
            && CommitCompletion(r, seal, evidence).0 == r
            && |Completions(r.rows, id)| == 1
            && (r.episode == ReadyToPublish ==>
                  (CommitCompletion(r, seal, evidence).1 == ReturnsCompletion
                   <==> Completions(r.rows, id)[0].body == Completed(seal, evidence)))
  {
    EveryRunIsSound(id, files, actions);
  }

  // ---------------------------------------------- the operations as they are written

  function Rank(a: Answer): nat {
    if !a.Continues? then 0
    else if a.flight.SealReady? || a.flight.ReleaseReady? || a.flight.DryRunReady? then 2 else 1
  }

  /** An operation nobody interrupts. */
  function Finish(step: (Run, Answer)): (Run, Answer)
    decreases Rank(step.1)
  {
    if step.1.Continues? then Finish(Proceed(step.0, step.1.flight)) else step
  }

  lemma {:induction false} FinishUnfolds(step: (Run, Answer))
    ensures step.1.Continues? ==> Finish(step) == Finish(Proceed(step.0, step.1.flight))
    ensures !step.1.Continues? ==> Finish(step) == step
  {
  }

  method ReadOutputs(disk: map<string, Content>, outputs: seq<Output>) returns (artifacts: Option<seq<Artifact>>)
    ensures artifacts == if Readable(disk, outputs) then Some(ReadAll(disk, outputs)) else None
  {
    var read: seq<Artifact> := [];
    for i := 0 to |outputs|
      invariant |read| == i && Readable(disk, outputs[..i])
      invariant forall k :: 0 <= k < i ==> read[k] == Artifact(outputs[k], disk[outputs[k].path])
    {
      if outputs[i].path !in disk || disk[outputs[i].path] == Raw("") {
        return None;
      }
      read := read + [Artifact(outputs[i], disk[outputs[i].path])];
    }
    assert outputs[..|outputs|] == outputs;
    assert read == ReadAll(disk, outputs);
    return Some(read);
  }

  method RenderedOutputIntegrity(files: Files, seal: Seal) returns (ok: bool)
    ensures ok <==> IntegrityOk(files, seal)
  {
    if !files.consent || files.package != Some(Signed(seal.package, seal.package))
       || files.workspace != Some(seal.workspace) {
      return false;
    }
    for i := 0 to |seal.artifacts|
      invariant forall k :: 0 <= k < i ==> HasPath(files.artifacts, seal.artifacts[k])
    {
      var a := seal.artifacts[i];
      if a.output.path !in files.artifacts || files.artifacts[a.output.path] != a.bytes {
        return false;
      }
    }
    return true;
  }

  class RuntimeEngine {
    var run: Run

    constructor (id: string, files: Files)
      ensures run == NewRun(id, files).run
    {
      run := Run(id, files, None, None, map[], [], OtherStatus, Elsewhere);
    }

    method AppendRunEventOnce(body: Body)
      modifies this
      ensures run == old(run).(rows := AppendOnce(old(run).rows, old(run).id, body))
    {
      var latest := LatestLike(run.rows, run.id, body);
      if latest != Some(body) {
        var sequence := NextSequence(run.rows, run.id);
        run := run.(rows := run.rows + [Event(|run.rows|, run.id, sequence, body)]);
      }
    }

    /** Everything up to the exclusive publication. */
    method GatherSeal(outputs: seq<Output>, author: string, stamp: nat) returns (seal: Option<Seal>)
      ensures seal == SealCandidate(run, outputs, author, stamp)
    {
      if !ValidRequest(outputs) || run.status != QaReview || !run.files.consent || run.files.package.None?
         || run.files.package.value.body != run.files.package.value.digest || run.files.workspace.None? {
        return None;
      }
      var read := ReadOutputs(run.files.artifacts, outputs);
      if read.None? || !ReviewBound(run.id, ByPath(read.value)) {
        return None;
      }
      var package, workspace := run.files.package.value.body, run.files.workspace.value;
      return Some(Seal(run.id, package, workspace, ByPath(read.value), author, stamp));
    }

    method SealRenderedOutputs(outputs: seq<Output>, author: string, stamp: nat) returns (answer: Answer)
      modifies this
      ensures (run, answer) == Finish((old(run), BeginSeal(old(run), outputs, author, stamp)))
    {
      var candidate := GatherSeal(outputs, author, stamp);
      if candidate.None? {
        return Raises;
      }
      var seal := candidate.value;
      FinishUnfolds((run, BeginSeal(run, outputs, author, stamp)));
      FinishUnfolds(PublishSeal(run, seal));
      if run.seal.Some? {
        var existing := run.seal.value;
        if existing.(stamp := seal.stamp) != seal || run.files.workspace != Some(existing.workspace) {
          return Raises;
        }
        var prior := LatestLike(run.rows, run.id, Sealed(existing));
        if prior.Some? {
          return if prior.value == Sealed(existing) then ReturnsSeal(existing) else Raises;
        }
        seal := existing;
      } else {
        run := run.(seal := Some(seal));
      }
      var sequence := NextSequence(run.rows, run.id);
      run := run.(rows := run.rows + [Event(|run.rows|, run.id, sequence, Sealed(seal))]);
      return ReturnsSeal(seal);
    }

    method CreateReleasePackage(title: string, author: string, stamp: nat) returns (answer: Answer)
      modifies this
      ensures (run, answer) == Finish(BeginRelease(old(run), title, author, stamp))
    {
      if run.status != Completed_ || run.episode != ReadyToPublish || run.seal.None? {
        return Raises;
      }
      var seal := run.seal.value;
      if !CompletionVerified(run, seal) || !ReportsPass(run, seal) || !OneOfEach(seal) {
        return Raises;
      }
      var reports := map check: Check | check in AllChecks() :: StoredReport(run, check).value;
      if run.release.Some? {
        var existing := StoredRelease(run);
        if existing.None? || existing.value.reports != reports || existing.value.title != title
            || existing.value.author != author {
          return Raises;
        }
        AppendRunEventOnce(Released(existing.value));
        return ReturnsRelease(existing.value);
      }
      var release := Release(run.id, seal, seal.artifacts, reports, title, author, stamp);
      FinishUnfolds(BeginRelease(run, title, author, stamp));
      FinishUnfolds(PublishRelease(run, release));
      run := run.(release := Some(release));
      AppendRunEventOnce(Released(release));
      return ReturnsRelease(release);
    }

    method CompleteRun(named: Seal, allowed: bool) returns (answer: Answer)
      modifies this
      ensures (run, answer) == Finish((old(run), BeginCompletion(old(run), named, allowed)))
    {
      if run.seal.None? {
        return Raises;
      }
      var seal := run.seal.value;
      var intact := RenderedOutputIntegrity(run.files, seal);
      if !intact || named != seal || !allowed || OfKind(seal.artifacts, Subtitles) == [] {
        return Raises;
      }
      var current := CurrentReview(run, seal);
      if current.None? || !ReviewBinds(run, seal, current.value.0) || !ReportsPass(run, seal) {
        return Raises;
      }
      var evidence := current.value.1;
      if run.status == Completed_ && run.episode == ReadyToPublish {
        var prior := Completions(run.rows, run.id);
        if prior != [] && prior[|prior| - 1].body == Completed(seal, evidence) {
          return ReturnsCompletion;
        }
        return Raises;
      }
      if run.status != QaReview || run.episode != InQa {
        return Raises;
      }
      var sequence := NextSequence(run.rows, run.id);
      run := run.(rows := run.rows + [Event(|run.rows|, run.id, sequence, Completed(seal, evidence))],
                  status := Completed_, episode := ReadyToPublish);
      return ReturnsCompletion;
    }

    method CreatePublicationDryRun(approval: Approval, allowed: bool) returns (answer: Answer)
      modifies this
      ensures (run, answer) == Finish(BeginDryRun(old(run), approval, allowed))
    {
      var stored := StoredRelease(run);
      if run.status != Completed_ || !(run.episode == ReadyToPublish || run.episode == Published) || !allowed
         || stored.None? || approval.platform !in run.files.adapters {
        return Raises;
      }
      if approval.platform in run.dryRuns {
        var existing := StoredDryRun(run, approval.platform);
        if existing.None? || existing.value.approval.(at := approval.at) != approval {
          return Raises;
        }
        AppendRunEventOnce(DryRunCreated(existing.value));
        return ReturnsDryRun(existing.value);
      }
      var release, version := stored.value, run.files.adapters[approval.platform];
      var d := DryRun(run.id, release, approval.platform, version, approval,
                      Guard(run.id, approval.platform, approval.channel, release),
                      Plan(version, release, approval.channel), approval.at);
      FinishUnfolds(BeginDryRun(run, approval, allowed));
      FinishUnfolds(PublishDryRun(run, d));
      run := run.(dryRuns := run.dryRuns[approval.platform := d]);
      AppendRunEventOnce(DryRunCreated(d));
      return ReturnsDryRun(d);
    }
  }
}
