// What the release chain answers, condition by condition: each operation's verdict and
// each stored answer, read off the files, the seal and the events themselves.
module ReleaseVerdicts {
  import opened Prelude
  import opened EventLog
  import opened Artifacts
  import opened ReleaseChain
  import Text

  // ------------------------------------------------------- one of a kind

  predicate Only(artifacts: seq<Artifact>, kind: Kind, i: nat) {
    && i < |artifacts| && artifacts[i].output.kind == kind
    && forall j :: 0 <= j < |artifacts| && j != i ==> artifacts[j].output.kind != kind
  }

  predicate NoneOf(artifacts: seq<Artifact>, kind: Kind) {
    forall j :: 0 <= j < |artifacts| ==> artifacts[j].output.kind != kind
  }

  lemma {:induction false} NoneOfKind(artifacts: seq<Artifact>, kind: Kind)
    ensures OfKind(artifacts, kind) == [] <==> NoneOf(artifacts, kind)
  {
    if artifacts != [] {
      NoneOfKind(artifacts[..|artifacts| - 1], kind);
    }
  }

  lemma {:induction false} OnlyIsAll(artifacts: seq<Artifact>, kind: Kind, i: nat)
    requires Only(artifacts, kind, i)
    ensures OfKind(artifacts, kind) == [artifacts[i]]
  {
    var n := |artifacts| - 1;
    if i < n {
      OnlyIsAll(artifacts[..n], kind, i);
    } else {
      NoneOfKind(artifacts[..n], kind);
    }
  }

  lemma {:induction false} OneIsOnly(artifacts: seq<Artifact>, kind: Kind) returns (i: nat)
    requires |OfKind(artifacts, kind)| == 1
    ensures Only(artifacts, kind, i)
  {
    var n := |artifacts| - 1;
    if artifacts[n].output.kind == kind {
      NoneOfKind(artifacts[..n], kind);
      i := n;
      forall j | 0 <= j < n ensures artifacts[j].output.kind != kind { assert artifacts[..n][j] == artifacts[j]; }
    } else {
      i := OneIsOnly(artifacts[..n], kind);
      forall j | 0 <= j < n && j != i ensures artifacts[j].output.kind != kind {
        assert artifacts[..n][j] == artifacts[j];
      }
    }
  }

  lemma {:induction false} OnlyOfKind(artifacts: seq<Artifact>, kind: Kind)
    ensures forall i: nat :: Only(artifacts, kind, i) ==> OfKind(artifacts, kind) == [artifacts[i]]
    ensures |OfKind(artifacts, kind)| == 1 ==> exists i: nat :: Only(artifacts, kind, i)
  {
    forall i: nat | Only(artifacts, kind, i) ensures OfKind(artifacts, kind) == [artifacts[i]] {
      OnlyIsAll(artifacts, kind, i);
    }
    if |OfKind(artifacts, kind)| == 1 {
      var i := OneIsOnly(artifacts, kind);
    }
  }

  // -------------------------------------------------------- what is on disk

  /** Consent still holds and everything the seal names is on disk as it was. */
  predicate DiskIntact(files: Files, seal: Seal) {
    && files.consent
    && files.package.Some? && files.package.value.body == seal.package && files.package.value.digest == seal.package
    && files.workspace.Some? && files.workspace.value == seal.workspace
    && forall k :: 0 <= k < |seal.artifacts| ==>
         && seal.artifacts[k].output.path in files.artifacts
         && files.artifacts[seal.artifacts[k].output.path] == seal.artifacts[k].bytes
  }

  /** The automated report is intact, this run's, passed, and reviewed this seal. */
  predicate ReportStands(r: Run, check: Check, seal: Seal) {
    && check in r.files.reports
    && r.files.reports[check].body == r.files.reports[check].digest
    && r.files.reports[check].body.run == r.id
    && r.files.reports[check].body.pass
    && r.files.reports[check].body.seal == seal
  }

  predicate FiveReports(r: Run, seal: Seal) {
    && ReportStands(r, Structure, seal) && ReportStands(r, Decoded, seal) && ReportStands(r, Semantic, seal)
    && ReportStands(r, PostLineage, seal) && ReportStands(r, Visual, seal)
  }

  /** The human file is an intact, passing review of this run, this seal and its master. */
  predicate FileApproves(r: Run, seal: Seal, master: Content) {
    && r.files.human.Some?
    && r.files.human.value.digest == r.files.human.value.body
    && r.files.human.value.body.run == r.id
    && r.files.human.value.body.seal == seal
    && r.files.human.value.body.master == master
    && r.files.human.value.body.review.passes
    && r.files.human.value.body.review.run == r.id
    && r.files.human.value.body.review.master == master
  }

  /** The sealed report on disk is a passing review of this run and the seal's master. */
  predicate ReportApproves(r: Run, report: Artifact, master: Content) {
    && report.output.path in r.files.artifacts
    && r.files.artifacts[report.output.path].ReviewJson?
    && r.files.artifacts[report.output.path].review.passes
    && r.files.artifacts[report.output.path].review.run == r.id
    && r.files.artifacts[report.output.path].review.master == master
  }

  /** A person approved the one sealed master: in the human file if there is one, else in the
      only sealed report; `evidence` is what the completion records of it. */
  ghost predicate Approved(r: Run, seal: Seal, m: nat, evidence: Evidence) {
    && Only(seal.artifacts, Master, m)
    && if r.files.human.Some?
       then FileApproves(r, seal, seal.artifacts[m].bytes) && evidence == HumanFile(r.files.human.value)
       else exists q: nat ::
              && Only(seal.artifacts, QaReport, q)
              && ReportApproves(r, seal.artifacts[q], seal.artifacts[m].bytes)
              && evidence == SealedReport(seal.artifacts[q].bytes)
  }

  lemma DiskIntactIs(files: Files, seal: Seal)
    ensures DiskIntact(files, seal) <==> IntegrityOk(files, seal)
  {
  }

  lemma FiveReportsAre(r: Run, seal: Seal)
    ensures FiveReports(r, seal) <==> ReportsPass(r, seal)
  {
    if FiveReports(r, seal) {
      forall check: Check
        ensures StoredReport(r, check).Some? && StoredReport(r, check).value.pass
            && StoredReport(r, check).value.seal == seal
      {
        match check case Structure => case Decoded => case Semantic => case PostLineage => case Visual =>
      }
    }
    if ReportsPass(r, seal) {
      var r1, r2, r3 := StoredReport(r, Structure), StoredReport(r, Decoded), StoredReport(r, Semantic);
      var r4, r5 := StoredReport(r, PostLineage), StoredReport(r, Visual);
      assert r1.Some? && r2.Some? && r3.Some? && r4.Some? && r5.Some?;
    }
  }

  /** Over intact outputs: the review completion would use, and whether it binds. */
  ghost predicate Reviewed(r: Run, seal: Seal, evidence: Evidence) {
    var current := CurrentReview(r, seal);
    current.Some? && ReviewBinds(r, seal, current.value.0) && current.value.1 == evidence
  }

  lemma ReviewedIs(r: Run, seal: Seal, evidence: Evidence)
    requires DiskIntact(r.files, seal)
    ensures Reviewed(r, seal, evidence) <==> exists m: nat :: Approved(r, seal, m, evidence)
  {
    OnlyOfKind(seal.artifacts, Master);
    OnlyOfKind(seal.artifacts, QaReport);
    if Reviewed(r, seal, evidence) {
      var m: nat :| Only(seal.artifacts, Master, m);
      if r.files.human.None? {
        var q: nat :| Only(seal.artifacts, QaReport, q);
      }
      assert Approved(r, seal, m, evidence);
    }
    if m: nat :| Approved(r, seal, m, evidence) {
    }
  }

  // ------------------------------------------------------------- completion

  /** Everything a completion checks before its transaction. */
  ghost predicate MayComplete(r: Run, named: Seal, allowed: bool, evidence: Evidence) {
    && r.seal.Some? && r.seal.value == named && allowed && DiskIntact(r.files, named)
    && (exists k :: 0 <= k < |named.artifacts| && named.artifacts[k].output.kind == Subtitles)
    && (exists m: nat :: Approved(r, named, m, evidence))
    && FiveReports(r, named)
  }

  lemma BeginCompletionIff(r: Run, named: Seal, allowed: bool, evidence: Evidence)
    ensures BeginCompletion(r, named, allowed) == Continues(Completing(named, evidence))
            <==> MayComplete(r, named, allowed, evidence)
    ensures BeginCompletion(r, named, allowed) == Raises
            || exists e: Evidence :: BeginCompletion(r, named, allowed) == Continues(Completing(named, e))
  {
    DiskIntactIs(r.files, named);
    FiveReportsAre(r, named);
    NoneOfKind(named.artifacts, Subtitles);
    if DiskIntact(r.files, named) {
      ReviewedIs(r, named, evidence);
    }
  }

  /** This run's only completion event records this seal and this evidence. */
  ghost predicate CompletedOnce(rows: Rows, run: string, seal: Seal, evidence: Evidence) {
    exists i: nat :: CompletedAt(rows, run, seal, evidence, i)
  }

  predicate CompletedAt(rows: Rows, run: string, seal: Seal, evidence: Evidence, i: nat) {
    && i < |rows| && rows[i].run == run && rows[i].body == Completed(seal, evidence)
    && forall j :: 0 <= j < |rows| && j != i ==> !(rows[j].run == run && rows[j].body.Completed?)
  }

  lemma {:induction false} NoCompletions(rows: Rows, run: string)
    ensures Completions(rows, run) == []
            <==> forall j :: 0 <= j < |rows| ==> !(rows[j].run == run && rows[j].body.Completed?)
  {
    if rows != [] {
      NoCompletions(rows[..|rows| - 1], run);
    }
  }

  lemma CompletedBefore(rows: Rows, run: string, seal: Seal, evidence: Evidence, i: nat)
    requires rows != [] && !(rows[|rows| - 1].run == run && rows[|rows| - 1].body.Completed?)
    ensures CompletedAt(rows, run, seal, evidence, i) <==> CompletedAt(rows[..|rows| - 1], run, seal, evidence, i)
  {
    var n := |rows| - 1;
    if CompletedAt(rows[..n], run, seal, evidence, i) {
      forall j | 0 <= j < |rows| && j != i ensures !(rows[j].run == run && rows[j].body.Completed?) {
        if j < n { assert rows[..n][j] == rows[j]; }
      }
    }
    if CompletedAt(rows, run, seal, evidence, i) {
      forall j | 0 <= j < n && j != i ensures !(rows[..n][j].run == run && rows[..n][j].body.Completed?) {
        assert rows[..n][j] == rows[j];
      }
    }
  }

  lemma CompletedLast(rows: Rows, run: string, seal: Seal, evidence: Evidence)
    requires rows != [] && rows[|rows| - 1].run == run && rows[|rows| - 1].body.Completed?
    ensures CompletedOnce(rows, run, seal, evidence)
            <==> Completions(rows[..|rows| - 1], run) == [] && rows[|rows| - 1].body == Completed(seal, evidence)
  {
    var n := |rows| - 1;
    NoCompletions(rows[..n], run);
    if Completions(rows[..n], run) == [] && rows[n].body == Completed(seal, evidence) {
      assert CompletedAt(rows, run, seal, evidence, n);
    }
    if i: nat :| CompletedAt(rows, run, seal, evidence, i) {
      forall j | 0 <= j < n ensures !(rows[..n][j].run == run && rows[..n][j].body.Completed?) {
        assert rows[..n][j] == rows[j];
      }
    }
  }

  lemma {:induction false} CompletedOnceIs(rows: Rows, run: string, seal: Seal, evidence: Evidence)
    ensures CompletedOnce(rows, run, seal, evidence) <==>
              |Completions(rows, run)| == 1 && Completions(rows, run)[0].body == Completed(seal, evidence)
  {
    if rows != [] {
      var n := |rows| - 1;
      if rows[n].run == run && rows[n].body.Completed? {
        CompletedLast(rows, run, seal, evidence);
      } else {
        CompletedOnceIs(rows[..n], run, seal, evidence);
        forall i: nat
          ensures CompletedAt(rows, run, seal, evidence, i) <==> CompletedAt(rows[..n], run, seal, evidence, i)
        {
          CompletedBefore(rows, run, seal, evidence, i);
        }
      }
    }
  }

  /** The completed run: one more event, naming the seal and the evidence. */
  predicate CompletedNow(r: Run, r': Run, seal: Seal, evidence: Evidence) {
    && r' == r.(rows := r'.rows, status := Completed_, episode := ReadyToPublish)
    && |r'.rows| == |r.rows| + 1 && r'.rows[..|r.rows|] == r.rows
    && r'.rows[|r.rows|].id == |r.rows| && r'.rows[|r.rows|].run == r.id
    && r'.rows[|r.rows|].body == Completed(seal, evidence)
  }

  /** A whole completion call in any reachable state. With every check met, a run in QA review
      whose episode is in QA is completed by one event; a run already completed by the same
      evidence is answered again. */
  lemma CompletionVerdict(id: string, files: Files, actions: seq<Action>, named: Seal, allowed: bool,
                          evidence: Evidence)
    requires MayComplete(After(NewRun(id, files), actions).run, named, allowed, evidence)
    ensures var r := After(NewRun(id, files), actions).run;
            var (r', answer) := Finish((r, BeginCompletion(r, named, allowed)));
            if r.status == QaReview && r.episode == InQa
            then answer == ReturnsCompletion && CompletedNow(r, r', named, evidence)
            else r' == r
                 && answer == (if r.status == Completed_ && r.episode == ReadyToPublish
                                  && CompletedOnce(r.rows, id, named, evidence)
                               then ReturnsCompletion else Raises)
  {
    EveryRunIsSound(id, files, actions);
    var r := After(NewRun(id, files), actions).run;
    BeginCompletionIff(r, named, allowed, evidence);
    FinishUnfolds((r, BeginCompletion(r, named, allowed)));
    FinishUnfolds(CommitCompletion(r, named, evidence));
    CompletedOnceIs(r.rows, id, named, evidence);
  }

  /** And with any check unmet, whatever the evidence, it raises and changes nothing: nothing
      is completed without intact outputs, five passing reports and a passing human review of
      the sealed master. */
  lemma CompletionRefused(r: Run, named: Seal, allowed: bool)
    requires forall evidence: Evidence :: !MayComplete(r, named, allowed, evidence)
    ensures Finish((r, BeginCompletion(r, named, allowed))) == (r, Raises)
  {
    BeginCompletionIff(r, named, allowed, SealedReport(Raw("")));
    if e: Evidence :| BeginCompletion(r, named, allowed) == Continues(Completing(named, e)) {
      BeginCompletionIff(r, named, allowed, e);
    }
  }

  // ---------------------------------------------------------- stored answers

  /** The completion still stands: the run's one completion event names this seal and the
      approval on disk now, over intact outputs. */
  ghost predicate CompletionStands(r: Run, seal: Seal) {
    && DiskIntact(r.files, seal)
    && exists evidence: Evidence, m: nat ::
         Approved(r, seal, m, evidence) && CompletedOnce(r.rows, r.id, seal, evidence)
  }

  lemma CompletionStandsIs(r: Run, seal: Seal)
    ensures CompletionStands(r, seal) <==> CompletionVerified(r, seal)
  {
    DiskIntactIs(r.files, seal);
    if CompletionStands(r, seal) {
      var evidence: Evidence, m: nat :|
        Approved(r, seal, m, evidence) && CompletedOnce(r.rows, r.id, seal, evidence);
      ReviewedIs(r, seal, evidence);
      CompletedOnceIs(r.rows, r.id, seal, evidence);
      assert Reviewed(r, seal, evidence);
    }
    if CompletionVerified(r, seal) {
      var evidence := CurrentReview(r, seal).value.1;
      assert Reviewed(r, seal, evidence);
      ReviewedIs(r, seal, evidence);
      CompletedOnceIs(r.rows, r.id, seal, evidence);
      var m: nat :| Approved(r, seal, m, evidence);
    }
  }

  /** The package kept this very report, which is intact on disk and passed. */
  predicate ReportKept(r: Run, check: Check, release: Release) {
    && check in release.reports && check in r.files.reports
    && r.files.reports[check] == Signed(release.reports[check], release.reports[check])
    && release.reports[check].run == r.id && release.reports[check].pass
  }

  predicate ReportsKept(r: Run, release: Release) {
    && ReportKept(r, Structure, release) && ReportKept(r, Decoded, release) && ReportKept(r, Semantic, release)
    && ReportKept(r, PostLineage, release) && ReportKept(r, Visual, release)
  }

  lemma ReportsKeptAre(r: Run, release: Release)
    ensures ReportsKept(r, release) <==> ReportsMatch(r, release)
  {
    if ReportsKept(r, release) {
      forall check: Check
        ensures check in release.reports && StoredReport(r, check) == Some(release.reports[check])
            && release.reports[check].pass
      {
        match check case Structure => case Decoded => case Semantic => case PostLineage => case Visual =>
      }
    }
    if ReportsMatch(r, release) {
      assert Structure in release.reports && Decoded in release.reports && Semantic in release.reports;
      assert PostLineage in release.reports && Visual in release.reports;
    }
  }

  /** The package on disk is the run's own, over its seal, and all it rests on still stands. */
  ghost predicate ReleaseStands(r: Run, release: Release) {
    && r.seal.Some? && r.release.Some? && r.release.value == release
    && release.run == r.id && release.seal == r.seal.value && release.artifacts == r.seal.value.artifacts
    && CompletionStands(r, r.seal.value) && ReportsKept(r, release)
  }

  /** A release package is read back exactly while everything it rests on still stands. */
  lemma StoredReleaseIff(r: Run, release: Release)
    ensures StoredRelease(r) == Some(release) <==> ReleaseStands(r, release)
  {
    if r.seal.Some? {
      CompletionStandsIs(r, r.seal.value);
      DiskIntactIs(r.files, r.seal.value);
    }
    if r.release.Some? {
      ReportsKeptAre(r, r.release.value);
    }
  }

  ghost predicate DryRunStands(r: Run, platform: string, d: DryRun) {
    && platform in r.files.adapters && platform in r.dryRuns && r.dryRuns[platform] == d
    && ReleaseStands(r, d.release)
    && d.run == r.id && d.platform == platform && d.version == r.files.adapters[platform]
    && d.approval.platform == platform && d.stamp == d.approval.at
    && d.duplicate.run == r.id && d.duplicate.platform == platform
    && d.duplicate.channel == d.approval.channel && d.duplicate.release == d.release
    && d.plan.version == d.version && d.plan.channel == d.approval.channel && d.plan.release == d.release
  }

  /** A dry run is read back exactly while its release stands and it is what this platform's
      current adapter compiles for the approved channel. */
  lemma StoredDryRunIff(r: Run, platform: string, d: DryRun)
    ensures StoredDryRun(r, platform) == Some(d) <==> DryRunStands(r, platform, d)
  {
    StoredReleaseIff(r, d.release);
  }

  /** In every run in which a dry run is read back: the sealed bytes are on disk, the five
      reports of that seal passed, and a person's review on disk passes and names this run and
      the bytes of the one sealed master, as the run's one completion recorded it. */
  lemma StoredDryRunIsAnchored(id: string, files: Files, actions: seq<Action>, platform: string, d: DryRun)
    requires StoredDryRun(After(NewRun(id, files), actions).run, platform) == Some(d)
    ensures var r := After(NewRun(id, files), actions).run;
            && r.release == Some(d.release) && r.seal == Some(d.release.seal)
            && DiskIntact(r.files, d.release.seal)
            && FiveReports(r, d.release.seal)
            && exists evidence: Evidence, m: nat ::
                 Approved(r, d.release.seal, m, evidence) && CompletedOnce(r.rows, id, d.release.seal, evidence)
  {
    EveryRunIsSound(id, files, actions);
    var r := After(NewRun(id, files), actions).run;
    StoredDryRunIff(r, platform, d);
  }

  // ------------------------------------------------------------ release and dry run

  /** The run is completed and its outputs are one master, one subtitles file and one cover. */
  ghost predicate MayRelease(r: Run) {
    && r.status == Completed_ && r.episode == ReadyToPublish && r.seal.Some?
    && CompletionStands(r, r.seal.value) && FiveReports(r, r.seal.value)
    && (exists m: nat :: Only(r.seal.value.artifacts, Master, m))
    && (exists s: nat :: Only(r.seal.value.artifacts, Subtitles, s))
    && (exists c: nat :: Only(r.seal.value.artifacts, Cover, c))
  }

  lemma OneOfEachIs(seal: Seal)
    ensures OneOfEach(seal) <==>
              && (exists m: nat :: Only(seal.artifacts, Master, m))
              && (exists s: nat :: Only(seal.artifacts, Subtitles, s))
              && (exists c: nat :: Only(seal.artifacts, Cover, c))
  {
    OnlyOfKind(seal.artifacts, Master);
    OnlyOfKind(seal.artifacts, Subtitles);
    OnlyOfKind(seal.artifacts, Cover);
  }

  /** The package made of a run: its seal, its outputs and the five reports on disk. */
  predicate Packages(r: Run, release: Release, title: string, author: string, stamp: nat)
    requires r.seal.Some?
  {
    && release.run == r.id && release.seal == r.seal.value && release.artifacts == r.seal.value.artifacts
    && release.title == title && release.author == author && release.stamp == stamp
    && ReportsKept(r, release)
  }

  /** A run's first release, by a whole call: exactly when the run may be released, the package
      holds what was found, is published and is recorded. */
  lemma FirstReleaseVerdict(r: Run, title: string, author: string, stamp: nat)
    requires r.release.None?
    ensures var (r', answer) := Finish(BeginRelease(r, title, author, stamp));
            if MayRelease(r)
            then answer.ReturnsRelease? && Packages(r, answer.release, title, author, stamp)
                 && r' == r.(release := Some(answer.release),
                             rows := AppendOnce(r.rows, r.id, Released(answer.release)))
            else answer == Raises && r' == r
  {
    if r.seal.Some? {
      CompletionStandsIs(r, r.seal.value);
      FiveReportsAre(r, r.seal.value);
      OneOfEachIs(r.seal.value);
    }
    var step := BeginRelease(r, title, author, stamp);
    FinishUnfolds(step);
    if step.1.Continues? {
      FinishUnfolds(Proceed(r, step.1.flight));
      FinishUnfolds(Proceed(r.(release := Some(step.1.flight.release)), ReleasePublished(step.1.flight.release)));
    }
  }

  /** A later one, in any reachable state: exactly the same request, while the package and all
      it rests on stand, is answered with it. */
  lemma RepeatedReleaseVerdict(id: string, files: Files, actions: seq<Action>, title: string, author: string,
                               stamp: nat)
    requires After(NewRun(id, files), actions).run.release.Some?
    ensures var r := After(NewRun(id, files), actions).run;
            BeginRelease(r, title, author, stamp)
            == (if MayRelease(r) && ReleaseStands(r, r.release.value)
                   && r.release.value.title == title && r.release.value.author == author
                then (r.(rows := AppendOnce(r.rows, r.id, Released(r.release.value))), ReturnsRelease(r.release.value))
                else (r, Raises))
  {
    EveryRunIsSound(id, files, actions);
    var r := After(NewRun(id, files), actions).run;
    StoredReleaseIff(r, r.release.value);
    CompletionStandsIs(r, r.seal.value);
    FiveReportsAre(r, r.seal.value);
    OneOfEachIs(r.seal.value);
    ReportsKeptAre(r, r.release.value);
    if ReportsKept(r, r.release.value) {
      SameReports(r, r.release.value);
    }
  }

  /** The run is completed, its release stands and somebody may approve this dry run. */
  ghost predicate MayDryRun(r: Run, approval: Approval, allowed: bool) {
    && r.status == Completed_ && (r.episode == ReadyToPublish || r.episode == Published) && allowed
    && r.release.Some? && ReleaseStands(r, r.release.value) && approval.platform in r.files.adapters
  }

  lemma ReleaseIsStored(r: Run)
    ensures StoredRelease(r) == (if r.release.Some? && ReleaseStands(r, r.release.value) then r.release else None)
  {
    if r.release.Some? {
      StoredReleaseIff(r, r.release.value);
    }
  }

  /** A platform's first dry run, by a whole call: exactly when it may be made, the one published
      and recorded stands. */
  lemma FirstDryRunVerdict(r: Run, approval: Approval, allowed: bool)
    requires approval.platform !in r.dryRuns
    ensures var (r', answer) := Finish(BeginDryRun(r, approval, allowed));
            if MayDryRun(r, approval, allowed)
            then answer.ReturnsDryRun? && answer.plan.approval == approval
                 && DryRunStands(r.(dryRuns := r.dryRuns[approval.platform := answer.plan]), approval.platform,
                                 answer.plan)
                 && r' == r.(dryRuns := r.dryRuns[approval.platform := answer.plan],
                             rows := AppendOnce(r.rows, r.id, DryRunCreated(answer.plan)))
            else answer == Raises && r' == r
  {
    ReleaseIsStored(r);
    var step := BeginDryRun(r, approval, allowed);
    FinishUnfolds(step);
    if step.1.Continues? {
      var plan := step.1.flight.plan;
      FreshDryRunIsStored(r, approval, allowed, plan);
      StoredDryRunIff(PublishDryRun(r, plan).0, approval.platform, plan);
      FinishUnfolds(Proceed(r, step.1.flight));
      FinishUnfolds(Proceed(PublishDryRun(r, plan).0, DryRunPublished(plan)));
    }
  }

  /** Later ones: only the very same approval, at whatever time it is repeated, while the dry
      run stands, is answered with it. */
  lemma RepeatedDryRunVerdict(r: Run, approval: Approval, allowed: bool)
    requires approval.platform in r.dryRuns
    ensures var d := r.dryRuns[approval.platform];
            BeginDryRun(r, approval, allowed)
            == (if MayDryRun(r, approval, allowed) && DryRunStands(r, approval.platform, d)
                   && d.approval.channel == approval.channel && d.approval.author == approval.author
                   && d.approval.spoken == approval.spoken && d.approval.guardian == approval.guardian
                then (r.(rows := AppendOnce(r.rows, r.id, DryRunCreated(d))), ReturnsDryRun(d)) else (r, Raises))
  {
    ReleaseIsStored(r);
    StoredDryRunIff(r, approval.platform, r.dryRuns[approval.platform]);
  }

  // ----------------------------------------------------------------- its events

  /** Row i is the run's last event saying what kind of file was published, this one's kind. */
  predicate LastOfKind(rows: Rows, run: string, body: Body, i: nat) {
    && i < |rows| && rows[i].run == run && OneKind(rows[i].body, body)
    && forall j :: i < j < |rows| ==> !(rows[j].run == run && OneKind(rows[j].body, body))
  }

  predicate OneKind(a: Body, b: Body) {
    match a
    case Sealed(_) => b.Sealed?
    case Released(_) => b.Released?
    case DryRunCreated(_) => b.DryRunCreated?
    case _ => false
  }

  lemma {:induction false} LatestLikeIs(rows: Rows, run: string, body: Body)
    ensures forall i: nat :: LastOfKind(rows, run, body, i) ==> LatestLike(rows, run, body) == Some(rows[i].body)
    ensures LatestLike(rows, run, body).Some? ==> exists i: nat :: LastOfKind(rows, run, body, i)
  {
    if rows != [] {
      var n := |rows| - 1;
      if rows[n].run == run && OneKind(rows[n].body, body) {
        assert LastOfKind(rows, run, body, n);
      } else {
        LatestLikeIs(rows[..n], run, body);
        forall i: nat ensures LastOfKind(rows, run, body, i) <==> LastOfKind(rows[..n], run, body, i) {
          KindBefore(rows, run, body, i);
        }
      }
    }
  }

  lemma KindBefore(rows: Rows, run: string, body: Body, i: nat)
    requires rows != [] && !(rows[|rows| - 1].run == run && OneKind(rows[|rows| - 1].body, body))
    ensures LastOfKind(rows, run, body, i) <==> LastOfKind(rows[..|rows| - 1], run, body, i)
  {
    var n := |rows| - 1;
    if LastOfKind(rows[..n], run, body, i) {
      forall j | i < j < |rows| ensures !(rows[j].run == run && OneKind(rows[j].body, body)) {
        if j < n { assert rows[..n][j] == rows[j]; }
      }
    }
    if LastOfKind(rows, run, body, i) {
      forall j | i < j < n ensures !(rows[..n][j].run == run && OneKind(rows[..n][j].body, body)) {
        assert rows[..n][j] == rows[j];
      }
    }
  }

  /** An event is left out exactly when the run's last of its kind already says it. */
  lemma AppendOnceVerdict(rows: Rows, run: string, body: Body)
    ensures AppendOnce(rows, run, body)
            == if exists i: nat :: LastOfKind(rows, run, body, i) && rows[i].body == body
               then rows else Append(rows, run, body)
  {
    LatestLikeIs(rows, run, body);
  }

  // ------------------------------------------------------------------- the seal

  predicate OnlyOutput(outputs: seq<Output>, kind: Kind, i: nat) {
    && i < |outputs| && outputs[i].kind == kind
    && forall j :: 0 <= j < |outputs| && j != i ==> outputs[j].kind != kind
  }

  lemma {:induction false} NoMasters(outputs: seq<Output>)
    ensures Masters(outputs) == 0 <==> forall j :: 0 <= j < |outputs| ==> outputs[j].kind != Master
  {
    if outputs != [] {
      NoMasters(outputs[..|outputs| - 1]);
    }
  }

  lemma {:induction false} OneMaster(outputs: seq<Output>)
    ensures Masters(outputs) == 1 <==> exists m: nat :: OnlyOutput(outputs, Master, m)
  {
    if outputs != [] {
      var n := |outputs| - 1;
      var front := outputs[..n];
      OneMaster(front);
      NoMasters(front);
      if m: nat :| OnlyOutput(outputs, Master, m) {
        if m < n { assert OnlyOutput(front, Master, m); }
      }
      if Masters(outputs) == 1 {
        if outputs[n].kind == Master {
          assert OnlyOutput(outputs, Master, n);
        } else {
          var m: nat :| OnlyOutput(front, Master, m);
          assert OnlyOutput(outputs, Master, m);
        }
      }
    }
  }

  predicate DistinctOutputs(outputs: seq<Output>) {
    forall i, j :: 0 <= i < j < |outputs| ==> outputs[i].path != outputs[j].path
  }

  /** The request is one the service takes; the run is in QA review, with consent, an intact
      package and a workspace; every named output is readable and not empty; and a review
      report among them is the only one and reviews this run's one master. */
  ghost predicate MaySeal(r: Run, outputs: seq<Output>) {
    var disk := r.files.artifacts;
    && 1 <= |outputs| <= 50 && DistinctOutputs(outputs) && (exists m: nat :: OnlyOutput(outputs, Master, m))
    && r.status == QaReview && r.files.consent && r.files.workspace.Some?
    && r.files.package.Some? && r.files.package.value.body == r.files.package.value.digest
    && (forall i :: 0 <= i < |outputs| ==> outputs[i].path in disk && disk[outputs[i].path] != Raw(""))
    && ReportsReview(r.id, disk, outputs)
  }

  predicate ReportsReview(run: string, disk: map<string, Content>, outputs: seq<Output>)
    requires forall i :: 0 <= i < |outputs| ==> outputs[i].path in disk
  {
    forall q :: 0 <= q < |outputs| && outputs[q].kind == QaReport ==>
      && OnlyOutput(outputs, QaReport, q)
      && disk[outputs[q].path].ReviewJson? && disk[outputs[q].path].review.run == run
      && forall m :: 0 <= m < |outputs| && outputs[m].kind == Master ==>
           disk[outputs[q].path].review.master == disk[outputs[m].path]
  }

  /** The artifacts are the named outputs as they are on disk, in path order. */
  predicate ReadOff(disk: map<string, Content>, outputs: seq<Output>, artifacts: seq<Artifact>) {
    && (forall i :: 0 <= i < |outputs| ==>
          outputs[i].path in disk && Artifact(outputs[i], disk[outputs[i].path]) in artifacts)
    && (forall k :: 0 <= k < |artifacts| ==>
          exists i :: 0 <= i < |outputs| && outputs[i].path in disk
                      && artifacts[k] == Artifact(outputs[i], disk[outputs[i].path]))
    && forall j, k :: 0 <= j < k < |artifacts| ==>
         Text.Precedes(artifacts[j].output.path, artifacts[k].output.path)
  }

  lemma AllDiffer(artifacts: seq<Artifact>)
    requires Ascends(artifacts)
    ensures forall j, k :: 0 <= j < k < |artifacts| ==> artifacts[j] != artifacts[k]
  {
    forall j, k | 0 <= j < k < |artifacts| ensures artifacts[j] != artifacts[k] {
      Text.PrecedesItself(artifacts[j].output.path);
    }
  }

  lemma OnlyIsRead(disk: map<string, Content>, outputs: seq<Output>, artifacts: seq<Artifact>, kind: Kind, m: nat)
    returns (i: nat)
    requires ReadOff(disk, outputs, artifacts) && DistinctOutputs(outputs) && OnlyOutput(outputs, kind, m)
    ensures Only(artifacts, kind, i) && artifacts[i] == Artifact(outputs[m], disk[outputs[m].path])
  {
    AllDiffer(artifacts);
    var a := Artifact(outputs[m], disk[outputs[m].path]);
    i :| 0 <= i < |artifacts| && artifacts[i] == a;
    forall k | 0 <= k < |artifacts| && k != i ensures artifacts[k].output.kind != kind {
      var j :| 0 <= j < |outputs| && outputs[j].path in disk
               && artifacts[k] == Artifact(outputs[j], disk[outputs[j].path]);
    }
  }

  lemma OnlyWasNamed(disk: map<string, Content>, outputs: seq<Output>, artifacts: seq<Artifact>, kind: Kind, i: nat,
                     m: nat)
    requires ReadOff(disk, outputs, artifacts) && DistinctOutputs(outputs) && Only(artifacts, kind, i)
    requires m < |outputs| && outputs[m].kind == kind
    ensures OnlyOutput(outputs, kind, m) && artifacts[i] == Artifact(outputs[m], disk[outputs[m].path])
  {
    forall j | 0 <= j < |outputs| && outputs[j].kind == kind ensures j == m {
      assert Artifact(outputs[j], disk[outputs[j].path]) in artifacts;
      assert Artifact(outputs[m], disk[outputs[m].path]) in artifacts;
    }
  }

  lemma ReportsReviewIs(run: string, disk: map<string, Content>, outputs: seq<Output>, artifacts: seq<Artifact>)
    requires ReadOff(disk, outputs, artifacts) && DistinctOutputs(outputs)
    requires exists m: nat :: OnlyOutput(outputs, Master, m)
    ensures ReportsReview(run, disk, outputs) <==> ReviewBound(run, artifacts)
  {
    var m: nat :| OnlyOutput(outputs, Master, m);
    var i := OnlyIsRead(disk, outputs, artifacts, Master, m);
    OnlyIsAll(artifacts, Master, i);
    NoneOfKind(artifacts, QaReport);
    if q: nat :| q < |outputs| && outputs[q].kind == QaReport {
      assert Artifact(outputs[q], disk[outputs[q].path]) in artifacts;
      if OnlyOutput(outputs, QaReport, q) {
        var k := OnlyIsRead(disk, outputs, artifacts, QaReport, q);
        OnlyIsAll(artifacts, QaReport, k);
      } else if ReviewBound(run, artifacts) {
        var k := OneIsOnly(artifacts, QaReport);
        OnlyWasNamed(disk, outputs, artifacts, QaReport, k, q);
      }
    }
  }

  lemma CandidateIff(r: Run, outputs: seq<Output>, author: string, stamp: nat)
    ensures SealCandidate(r, outputs, author, stamp).Some? <==> MaySeal(r, outputs)
  {
    OneMaster(outputs);
    if ValidRequest(outputs) && Readable(r.files.artifacts, outputs) {
      SealReadsOff(r, outputs);
      ReportsReviewIs(r.id, r.files.artifacts, outputs, ByPath(ReadAll(r.files.artifacts, outputs)));
    }
  }

  lemma CandidateReadsOff(r: Run, outputs: seq<Output>, author: string, stamp: nat)
    requires SealCandidate(r, outputs, author, stamp).Some?
    ensures var seal := SealCandidate(r, outputs, author, stamp).value;
            SealedNow(r, r.(seal := Some(seal), rows := Append(r.rows, r.id, Sealed(seal))), seal, outputs, author,
                      stamp)
  {
    SealReadsOff(r, outputs);
  }

  lemma FirstSealIs(r: Run, outputs: seq<Output>, author: string, stamp: nat)
    requires r.seal.None?
    ensures var candidate := SealCandidate(r, outputs, author, stamp);
            Finish((r, BeginSeal(r, outputs, author, stamp)))
            == if candidate.None? then (r, Raises)
               else (r.(seal := candidate, rows := Append(r.rows, r.id, Sealed(candidate.value))),
                     ReturnsSeal(candidate.value))
  {
    FinishUnfolds((r, BeginSeal(r, outputs, author, stamp)));
    var candidate := SealCandidate(r, outputs, author, stamp);
    if candidate.Some? {
      FinishUnfolds(PublishSeal(r, candidate.value));
      FinishUnfolds(Proceed(r.(seal := candidate), SealPublished(candidate.value)));
    }
  }

  /** A run is sealed for the first time by a whole call exactly when it may be: the seal
      lists the named outputs as they are on disk, and one event records it. */
  lemma FirstSealVerdict(r: Run, outputs: seq<Output>, author: string, stamp: nat)
    requires r.seal.None?
    ensures var (r', answer) := Finish((r, BeginSeal(r, outputs, author, stamp)));
            if MaySeal(r, outputs)
            then answer.ReturnsSeal? && SealedNow(r, r', answer.seal, outputs, author, stamp)
            else answer == Raises && r' == r
  {
    CandidateIff(r, outputs, author, stamp);
    FirstSealIs(r, outputs, author, stamp);
    if MaySeal(r, outputs) {
      CandidateReadsOff(r, outputs, author, stamp);
    }
  }

  lemma {:induction false} SealReadsOff(r: Run, outputs: seq<Output>)
    requires ValidRequest(outputs) && Readable(r.files.artifacts, outputs)
    ensures ReadOff(r.files.artifacts, outputs, ByPath(ReadAll(r.files.artifacts, outputs)))
  {
    SortedReadHolds(r.files.artifacts, outputs);
    var artifacts := ByPath(ReadAll(r.files.artifacts, outputs));
    forall k | 0 <= k < |artifacts|
      ensures exists i :: 0 <= i < |outputs| && outputs[i].path in r.files.artifacts
                          && artifacts[k] == Artifact(outputs[i], r.files.artifacts[outputs[i].path])
    {
      assert artifacts[k] in artifacts;
      var i :| 0 <= i < |outputs| && outputs[i] == artifacts[k].output;
    }
  }

  /** The run with this seal published and recorded. */
  predicate SealedNow(r: Run, r': Run, seal: Seal, outputs: seq<Output>, author: string, stamp: nat) {
    && r' == r.(seal := Some(seal), rows := r'.rows)
    && |r'.rows| == |r.rows| + 1 && r'.rows[..|r.rows|] == r.rows
    && r'.rows[|r.rows|].id == |r.rows| && r'.rows[|r.rows|].run == r.id && r'.rows[|r.rows|].body == Sealed(seal)
    && seal.run == r.id && seal.author == author && seal.stamp == stamp
    && r.files.package.Some? && seal.package == r.files.package.value.body
    && r.files.workspace == Some(seal.workspace)
    && ReadOff(r.files.artifacts, outputs, seal.artifacts)
  }
}
