// The startup migration loop: `executescript` commits whatever transaction is
// open and then commits each statement by itself, while a version's record opens
// a transaction that only the next script, or the end, commits. A stop between
// any two of those steps must leave a database the next start can finish.
module Migrations {
  import opened Prelude

  datatype TableName =
    | Projects | Seasons | Episodes | ScriptRevisions | Assets | ContinuitySnapshots | ProductionRuns | RunEvents
    | SchemaMigrations | Campaigns | CampaignIntents | CampaignReceipts | CampaignObservations
    | ApprovalRecords | EpisodeEvents | IdempotencyRecords | IdempotentOperations
    | SeasonPlanRevisions | SeasonPlanApprovals | AssetConsents | ProductionRunAssets
    | FeedbackItems | MemoryCards | MemoryCardRevisions | MemoryCardConfirmations
    | LibraryEntities | LibraryEntityRevisions | LibraryEntityConfirmations | ContinuityConfirmations
    | RemoteTaskBindings | FeedbackReviewBundles | FeedbackReleaseLinkages | FeedbackTriage
    | FeedbackExports | FeedbackReconciliations | FeedbackWorkOrders | FeedbackHandoffs
    | FeedbackHandoffReconciliations | FeedbackResults | FeedbackEvidenceReconciliations
    | PublicationReconciliations | PublicationMetrics | DirectorStrategies
    | WriterReceiptReconciliations | WriterProviderReconciliations | RouteDecisions | WriterExecutions

  datatype ColumnName = ArchivedAt | SeasonId | CreativeFormat | ProductionPipeline

  /** The nth index a version creates. */
  datatype Object = Table(t: TableName) | Column(t: TableName, c: ColumnName) | Index(version: nat, n: nat)

  /** CREATE TABLE, ALTER TABLE ADD COLUMN or CREATE INDEX, with or without IF NOT EXISTS. */
  datatype Statement = Create(what: Object, ifNotExists: bool)

  /** How the loop treats a version it has not recorded. */
  datatype Repair = RunScript | SkipIfPresent(column: Object) | AddMissing

  datatype Migration = Migration(statements: seq<Statement>, repair: Repair)

  /** Version k + 1 is migrations[k]. */
  datatype Plan = Plan(base: seq<Object>, migrations: seq<Migration>)

  datatype Db = Db(objects: set<Object>, recorded: set<nat>)

  const EMPTY := Db({}, {})

  // ------------------------------------------------------------- the machine

  datatype Pc =
    | Schema(i: nat) | Deciding(k: nat) | Script(k: nat, i: nat) | Columns(k: nat, i: nat) | Recording(k: nat)
    | Done | Raised

  /** `tx` is what an open transaction sees; `applied` the versions read at the start. */
  datatype Machine = Machine(disk: Db, tx: Option<Db>, applied: set<nat>, pc: Pc)

  function View(m: Machine): Db {
    if m.tx.Some? then m.tx.value else m.disk
  }

  function Start(disk: Db): Machine {
    Machine(disk, None, {}, Schema(0))
  }

  predicate Executes(s: Statement, db: Db) {
    && (s.what in db.objects ==> s.ifNotExists)
    && (s.what.Column? ==> Table(s.what.t) in db.objects)
  }

  function Add(db: Db, what: Object): Db {
    Db(db.objects + {what}, db.recorded)
  }

  function Step(plan: Plan, m: Machine): Machine {
    match m.pc
    case Schema(i) =>
      if i >= |plan.base| then m.(applied := m.disk.recorded, pc := Deciding(0))
      else m.(disk := Add(m.disk, plan.base[i]), pc := Schema(i + 1))
    case Deciding(k) =>
      if k >= |plan.migrations| then Machine(View(m), None, m.applied, Done)
      else if k + 1 in m.applied then m.(pc := Deciding(k + 1))
      else
        (match plan.migrations[k].repair
         case RunScript => Machine(View(m), None, m.applied, Script(k, 0))
         case SkipIfPresent(column) =>
           if column in View(m).objects then m.(pc := Recording(k)) else Machine(View(m), None, m.applied, Script(k, 0))
         case AddMissing => m.(pc := Columns(k, 0)))
    case Script(k, i) =>
      if k >= |plan.migrations| || i >= |plan.migrations[k].statements| then m.(pc := Recording(k))
      else
        var s := plan.migrations[k].statements[i];
        if !Executes(s, m.disk) then m.(tx := None, pc := Raised)
        else m.(disk := Add(m.disk, s.what), pc := Script(k, i + 1))
    case Columns(k, i) =>
      if k >= |plan.migrations| || i >= |plan.migrations[k].statements| then m.(pc := Recording(k))
      else
        var column := plan.migrations[k].statements[i].what;
        if m.tx.Some? then m.(tx := Some(Add(m.tx.value, column)), pc := Columns(k, i + 1))
        else m.(disk := Add(m.disk, column), pc := Columns(k, i + 1))
    case Recording(k) => m.(tx := Some(Db(View(m).objects, View(m).recorded + {k + 1})), pc := Deciding(k + 1))
    case Done => m
    case Raised => m
  }

  /** Stopping drops an uncommitted transaction; starting again begins at the schema. */
  datatype Action = Continue | Interrupt

  function Next(plan: Plan, m: Machine, a: Action): Machine {
    match a
    case Continue => Step(plan, m)
    case Interrupt => Start(m.disk)
  }

  function Run(plan: Plan, m: Machine, actions: seq<Action>): Machine {
    if actions == [] then m else Next(plan, Run(plan, m, actions[..|actions| - 1]), actions[|actions| - 1])
  }

  function Undisturbed(plan: Plan, m: Machine, n: nat): Machine
    decreases n
  {
    if n == 0 then m else Undisturbed(plan, Step(plan, m), n - 1)
  }

  // -------------------------------------------------------- what a plan promises

  predicate Distinct(plan: Plan) {
    && (forall k, i :: 0 <= k < |plan.migrations| && 0 <= i < |plan.migrations[k].statements| ==>
          plan.migrations[k].statements[i].what !in plan.base)
    && (forall k, i, k', i' ::
          (&& 0 <= k < |plan.migrations| && 0 <= i < |plan.migrations[k].statements|
           && 0 <= k' < |plan.migrations| && 0 <= i' < |plan.migrations[k'].statements|
           && plan.migrations[k].statements[i].what == plan.migrations[k'].statements[i'].what)
          ==> k == k' && i == i')
  }

  predicate Strict(m: Migration) {
    m.repair.RunScript? && m.statements != []
    && forall i :: 0 <= i < |m.statements| ==> !m.statements[i].ifNotExists && !m.statements[i].what.Column?
  }

  predicate Repeatable(m: Migration, base: seq<Object>) {
    match m.repair
    case RunScript =>
      forall i :: 0 <= i < |m.statements| ==> m.statements[i].ifNotExists && !m.statements[i].what.Column?
    case SkipIfPresent(column) =>
      && m.statements != [] && m.statements[0] == Create(column, false) && column.Column? && Table(column.t) in base
      && forall i :: 1 <= i < |m.statements| ==> m.statements[i].ifNotExists && m.statements[i].what.Index?
    case AddMissing => forall i :: 0 <= i < |m.statements| ==> m.statements[i].what.Column?
  }

  /** The first three versions have no IF NOT EXISTS; every later one can be repeated. */
  predicate WellFormed(plan: Plan) {
    && |plan.migrations| >= 3 && Distinct(plan)
    && forall k :: 0 <= k < |plan.migrations| ==>
         if k < 3 then Strict(plan.migrations[k]) else Repeatable(plan.migrations[k], plan.base)
  }

  // ----------------------------------------------------------------- invariant

  function Upto(n: nat): set<nat> {
    if n == 0 then {} else Upto(n - 1) + {n}
  }

  /** Every table and column of version k + 1 exists; its indexes are not promised. */
  predicate Built(plan: Plan, k: nat, objects: set<Object>)
    requires k < |plan.migrations|
  {
    var ss := plan.migrations[k].statements;
    forall i :: 0 <= i < |ss| && !ss[i].what.Index? ==> ss[i].what in objects
  }

  predicate HasFirst(plan: Plan, k: nat, i: nat, objects: set<Object>)
    requires k < |plan.migrations|
  {
    var ss := plan.migrations[k].statements;
    forall j :: 0 <= j < i && j < |ss| ==> ss[j].what in objects
  }

  predicate LacksFrom(plan: Plan, k: nat, i: nat, objects: set<Object>)
    requires k < |plan.migrations|
  {
    var ss := plan.migrations[k].statements;
    forall j :: i <= j < |ss| ==> ss[j].what !in objects
  }

  /** The first n versions are recorded and built, the next may be partly there,
      and nothing of a later one exists. */
  ghost predicate Prefix(plan: Plan, db: Db, n: nat) {
    && n <= |plan.migrations| && db.recorded == Upto(n)
    && (forall k :: 0 <= k < n ==> Built(plan, k, db.objects))
    && (forall k :: n < k < |plan.migrations| ==> LacksFrom(plan, k, 0, db.objects))
    && (n < |plan.migrations| ==> exists i: nat :: Partly(plan, n, i, db.objects))
  }

  predicate Partly(plan: Plan, k: nat, i: nat, objects: set<Object>)
    requires k < |plan.migrations|
  {
    i <= |plan.migrations[k].statements| && HasFirst(plan, k, i, objects) && LacksFrom(plan, k, i, objects)
  }

  predicate BaseFrom(plan: Plan, i: nat, objects: set<Object>) {
    forall j :: 0 <= j < i && j < |plan.base| ==> plan.base[j] in objects
  }

  /** d versions are recorded on disk, v in the open transaction, a were read at the start. */
  ghost predicate Sound(plan: Plan, m: Machine, d: nat, v: nat, a: nat) {
    && Prefix(plan, m.disk, d)
    && Prefix(plan, View(m), v)
    && d <= v && (m.tx.None? ==> d == v)
    && PcOk(plan, m, v, a)
  }

  ghost predicate PcOk(plan: Plan, m: Machine, v: nat, a: nat) {
    var objects := View(m).objects;
    && (!m.pc.Schema? && !m.pc.Raised? ==> BaseFrom(plan, |plan.base|, objects) && m.applied == Upto(a) && a <= v)
    && match m.pc
       case Schema(i) => m.tx.None? && BaseFrom(plan, i, objects)
       case Deciding(k) => k <= |plan.migrations| && v == if k < a then a else k
       case Script(k, i) =>
         && m.tx.None? && k == v && a <= k < |plan.migrations| && i <= |plan.migrations[k].statements|
         && !plan.migrations[k].repair.AddMissing? && HasFirst(plan, k, i, objects)
         && (plan.migrations[k].repair.SkipIfPresent? && i == 0 ==> plan.migrations[k].repair.column !in objects)
       case Columns(k, i) =>
         && k == v && k < |plan.migrations| && plan.migrations[k].repair.AddMissing? && a <= k
         && i <= |plan.migrations[k].statements| && HasFirst(plan, k, i, objects)
       case Recording(k) => k == v && a <= k < |plan.migrations| && Built(plan, k, objects)
       case Done => m.tx.None? && v == |plan.migrations|
       case Raised => m.tx.None?
  }

  // -------------------------------------------------------------- preservation

  lemma AddNext(plan: Plan, db: Db, n: nat, i: nat)
    requires WellFormed(plan) && Prefix(plan, db, n) && n < |plan.migrations|
    requires i < |plan.migrations[n].statements| && HasFirst(plan, n, i, db.objects)
    ensures var db' := Add(db, plan.migrations[n].statements[i].what);
            Prefix(plan, db', n) && HasFirst(plan, n, i + 1, db'.objects)
  {
    var ss := plan.migrations[n].statements;
    var db' := Add(db, ss[i].what);
    forall k | 0 <= k < |plan.migrations|
      ensures Built(plan, k, db.objects) ==> Built(plan, k, db'.objects)
      ensures k != n && LacksFrom(plan, k, 0, db.objects) ==> LacksFrom(plan, k, 0, db'.objects)
    {}
    var i0: nat :| Partly(plan, n, i0, db.objects);
    assert i0 < |ss| ==> ss[i0].what !in db.objects;
    if i0 == i {
      assert Partly(plan, n, i + 1, db'.objects);
    } else {
      assert Partly(plan, n, i0, db'.objects);
    }
  }

  lemma AddBase(plan: Plan, db: Db, n: nat, j: nat)
    requires WellFormed(plan) && Prefix(plan, db, n) && j < |plan.base|
    ensures Prefix(plan, Add(db, plan.base[j]), n)
  {
    var db' := Add(db, plan.base[j]);
    forall k | 0 <= k < |plan.migrations|
      ensures Built(plan, k, db.objects) ==> Built(plan, k, db'.objects)
      ensures LacksFrom(plan, k, 0, db.objects) ==> LacksFrom(plan, k, 0, db'.objects)
    {}
    if n < |plan.migrations| {
      var i0: nat :| Partly(plan, n, i0, db.objects);
      assert Partly(plan, n, i0, db'.objects);
    }
  }

  lemma RecordNext(plan: Plan, db: Db, n: nat)
    requires Prefix(plan, db, n) && n < |plan.migrations| && Built(plan, n, db.objects)
    ensures Prefix(plan, Db(db.objects, db.recorded + {n + 1}), n + 1)
  {
    if n + 1 < |plan.migrations| {
      assert Partly(plan, n + 1, 0, db.objects);
    }
  }

  lemma {:induction false} UptoHolds(n: nat, k: nat)
    ensures k in Upto(n) <==> 1 <= k <= n
  {
    if n > 0 {
      UptoHolds(n - 1, k);
    }
  }

  lemma SchemaKeepsSound(plan: Plan, m: Machine, d: nat, v: nat, a: nat)
    requires WellFormed(plan) && Sound(plan, m, d, v, a) && m.pc.Schema?
    ensures Sound(plan, Step(plan, m), d, v, if m.pc.i < |plan.base| then a else v)
  {
    if m.pc.i < |plan.base| {
      AddBase(plan, m.disk, d, m.pc.i);
    }
  }

  lemma DecidingKeepsSound(plan: Plan, m: Machine, d: nat, v: nat, a: nat)
    requires WellFormed(plan) && Sound(plan, m, d, v, a) && m.pc.Deciding?
    ensures Sound(plan, Step(plan, m), if Step(plan, m).pc.Script? || Step(plan, m).pc.Done? then v else d, v, a)
  {
    UptoHolds(a, m.pc.k + 1);
  }

  lemma ScriptKeepsSound(plan: Plan, m: Machine, d: nat, v: nat, a: nat)
    requires WellFormed(plan) && Sound(plan, m, d, v, a) && m.pc.Script?
    ensures Sound(plan, Step(plan, m), d, v, a)
  {
    var k, i := m.pc.k, m.pc.i;
    if i < |plan.migrations[k].statements| && Executes(plan.migrations[k].statements[i], m.disk) {
      AddNext(plan, m.disk, k, i);
    }
  }

  lemma ColumnsKeepSound(plan: Plan, m: Machine, d: nat, v: nat, a: nat)
    requires WellFormed(plan) && Sound(plan, m, d, v, a) && m.pc.Columns?
    ensures Sound(plan, Step(plan, m), d, v, a)
  {
    if m.pc.i < |plan.migrations[m.pc.k].statements| {
      AddNext(plan, View(m), m.pc.k, m.pc.i);
    }
  }

  lemma RecordingKeepsSound(plan: Plan, m: Machine, d: nat, v: nat, a: nat)
    requires WellFormed(plan) && Sound(plan, m, d, v, a) && m.pc.Recording?
    ensures Sound(plan, Step(plan, m), d, v + 1, a)
  {
    RecordNext(plan, View(m), m.pc.k);
  }

  lemma StepKeepsSound(plan: Plan, m: Machine, d: nat, v: nat, a: nat) returns (d': nat, v': nat, a': nat)
    requires WellFormed(plan) && Sound(plan, m, d, v, a)
    ensures Sound(plan, Step(plan, m), d', v', a') && d <= d' && v' == if m.pc.Recording? then v + 1 else v
  {
    d', v', a' := d, v, a;
    match m.pc
    case Schema(i) =>
      SchemaKeepsSound(plan, m, d, v, a);
      a' := if i < |plan.base| then a else v;
    case Deciding(_) =>
      DecidingKeepsSound(plan, m, d, v, a);
      d' := if Step(plan, m).pc.Script? || Step(plan, m).pc.Done? then v else d;
    case Script(_, _) => ScriptKeepsSound(plan, m, d, v, a);
    case Columns(_, _) => ColumnsKeepSound(plan, m, d, v, a);
    case Recording(_) =>
      RecordingKeepsSound(plan, m, d, v, a);
      v' := v + 1;
    case Done =>
    case Raised =>
  }

  lemma {:induction false} RunIsSound(plan: Plan, disk: Db, n: nat, actions: seq<Action>)
    returns (d: nat, v: nat, a: nat)
    requires WellFormed(plan) && Prefix(plan, disk, n)
    ensures Sound(plan, Run(plan, Start(disk), actions), d, v, a) && d >= n
  {
    if actions == [] {
      d, v, a := n, n, 0;
    } else {
      var before := actions[..|actions| - 1];
      d, v, a := RunIsSound(plan, disk, n, before);
      if actions[|actions| - 1].Continue? {
        d, v, a := StepKeepsSound(plan, Run(plan, Start(disk), before), d, v, a);
      } else {
        v, a := d, 0;
      }
    }
  }

  // --------------------------------------------------------------- finishing

  function Position(m: Machine): nat {
    if m.pc.Script? then m.pc.i else 0
  }

  /** Either past the strict versions, or what is left of the current script is untouched. */
  ghost predicate CanFinish(plan: Plan, m: Machine, v: nat) {
    && !m.pc.Raised?
    && (v < 3 && v < |plan.migrations| && !m.pc.Recording? ==> LacksFrom(plan, v, Position(m), View(m).objects))
  }

  lemma AddKeepsLacking(plan: Plan, objects: set<Object>, k: nat, i: nat)
    requires WellFormed(plan) && k < |plan.migrations| && i < |plan.migrations[k].statements|
    requires LacksFrom(plan, k, i, objects)
    ensures LacksFrom(plan, k, i + 1, objects + {plan.migrations[k].statements[i].what})
  {
  }

  lemma ScriptRuns(plan: Plan, m: Machine, v: nat, a: nat)
    requires WellFormed(plan) && PcOk(plan, m, v, a) && CanFinish(plan, m, v)
    requires m.pc.Script? && m.pc.i < |plan.migrations[m.pc.k].statements|
    ensures Executes(plan.migrations[m.pc.k].statements[m.pc.i], m.disk)
  {
    var migration := plan.migrations[m.pc.k];
    if m.pc.k >= 3 {
      assert Repeatable(migration, plan.base);
      if migration.repair.SkipIfPresent? && m.pc.i == 0 {
        assert Table(migration.repair.column.t) in m.disk.objects;
      }
    } else {
      assert Strict(migration);
    }
  }

  lemma StepCanFinish(plan: Plan, m: Machine, d: nat, v: nat, a: nat, v': nat, d': nat, a': nat)
    requires WellFormed(plan) && Sound(plan, m, d, v, a) && CanFinish(plan, m, v)
    requires Sound(plan, Step(plan, m), d', v', a') && v' == if m.pc.Recording? then v + 1 else v
    ensures CanFinish(plan, Step(plan, m), v')
  {
    match m.pc
    case Schema(i) =>
    case Deciding(k) =>
    case Script(k, i) =>
      if i < |plan.migrations[k].statements| {
        ScriptRuns(plan, m, v, a);
        if v < 3 {
          AddKeepsLacking(plan, m.disk.objects, k, i);
        }
      }
    case Columns(k, i) =>
    case Recording(k) =>
    case Done =>
    case Raised =>
  }

  ghost predicate Complete(plan: Plan, db: Db) {
    && db.recorded == Upto(|plan.migrations|)
    && BaseFrom(plan, |plan.base|, db.objects)
    && forall k :: 0 <= k < |plan.migrations| ==> Built(plan, k, db.objects)
  }

  function Phase(pc: Pc): nat {
    if pc.Schema? then 2 else if pc.Done? || pc.Raised? then 0 else 1
  }

  function Here(plan: Plan, pc: Pc): int {
    match pc
    case Schema(i) => |plan.base| - i
    case Deciding(k) => |plan.migrations| - k
    case Script(k, _) => |plan.migrations| - k
    case Columns(k, _) => |plan.migrations| - k
    case Recording(k) => |plan.migrations| - k
    case _ => 0
  }

  function Within(pc: Pc): nat {
    if pc.Deciding? then 2 else if pc.Script? || pc.Columns? then 1 else 0
  }

  function Left(plan: Plan, pc: Pc): int {
    if (pc.Script? || pc.Columns?) && pc.k < |plan.migrations| then |plan.migrations[pc.k].statements| - pc.i else 0
  }

  lemma {:induction false} Finishes(plan: Plan, m: Machine, d: nat, v: nat, a: nat)
    requires WellFormed(plan) && Sound(plan, m, d, v, a) && CanFinish(plan, m, v)
    ensures exists n :: Undisturbed(plan, m, n).pc.Done? && Complete(plan, Undisturbed(plan, m, n).disk)
    decreases Phase(m.pc), Here(plan, m.pc), Within(m.pc), Left(plan, m.pc)
  {
    if m.pc.Done? {
      assert Undisturbed(plan, m, 0) == m;
    } else {
      var d', v', a' := StepKeepsSound(plan, m, d, v, a);
      StepCanFinish(plan, m, d, v, a, v', d', a');
      Finishes(plan, Step(plan, m), d', v', a');
      var n: nat :| Undisturbed(plan, Step(plan, m), n).pc.Done?
          && Complete(plan, Undisturbed(plan, Step(plan, m), n).disk);
      assert Undisturbed(plan, m, n + 1) == Undisturbed(plan, Step(plan, m), n);
    }
  }

  // ------------------------------------------------------------------- sticking

  predicate FirstExists(plan: Plan, n: nat, objects: set<Object>)
    requires n < |plan.migrations|
  {
    plan.migrations[n].statements != [] && plan.migrations[n].statements[0].what in objects
  }

  /** A strict version is unrecorded although its first table is already there. */
  ghost predicate Stuck(plan: Plan, m: Machine, n: nat) {
    && n < 3 && n < |plan.migrations| && m.tx.None? && m.disk.recorded == Upto(n)
        && FirstExists(plan, n, m.disk.objects)
    && match m.pc
       case Schema(_) => true
       case Deciding(k) => k <= n && m.applied == Upto(n)
       case Script(k, i) => k == n && i == 0
       case Raised => true
       case _ => false
  }

  lemma NextKeepsStuck(plan: Plan, m: Machine, n: nat, a: Action)
    requires WellFormed(plan) && Stuck(plan, m, n)
    ensures Stuck(plan, Next(plan, m, a), n)
  {
    if m.pc.Deciding? {
      UptoHolds(n, m.pc.k + 1);
    }
  }

  lemma {:induction false} StaysStuck(plan: Plan, m: Machine, n: nat, actions: seq<Action>)
    requires WellFormed(plan) && Stuck(plan, m, n)
    ensures Stuck(plan, Run(plan, m, actions), n)
  {
    if actions != [] {
      StaysStuck(plan, m, n, actions[..|actions| - 1]);
      NextKeepsStuck(plan, Run(plan, m, actions[..|actions| - 1]), n, actions[|actions| - 1]);
    }
  }

  // --------------------------------------------------------------- main results

  /** However often start-up is interrupted, the recorded versions are a prefix
      and every recorded version's tables and columns exist on disk. */
  lemma {:induction false} RecordedVersionsAreBuilt(plan: Plan, actions: seq<Action>)
    requires WellFormed(plan)
    ensures exists n :: 0 <= n <= |plan.migrations|
              && Run(plan, Start(EMPTY), actions).disk.recorded == Upto(n)
              && forall k :: 0 <= k < n ==> Built(plan, k, Run(plan, Start(EMPTY), actions).disk.objects)
  {
    assert Partly(plan, 0, 0, {});
    var d, v, a := RunIsSound(plan, EMPTY, 0, actions);
  }

  lemma {:induction false} UptoInjective(n: nat, n': nat)
    requires Upto(n) == Upto(n')
    ensures n == n'
  {
    UptoHolds(n, n');
    UptoHolds(n', n');
    UptoHolds(n, n);
    UptoHolds(n', n);
  }

  /** Whatever was interrupted, and wherever: with n versions recorded on disk, an
      undisturbed start ends with every table, column and record exactly when n is
      past version 3 or the next version had not begun; otherwise no later start
      ever succeeds, interrupted or not. */
  lemma {:induction false} NextStartFinishesIff(plan: Plan, history: seq<Action>, n: nat)
    requires WellFormed(plan) && Run(plan, Start(EMPTY), history).disk.recorded == Upto(n)
    ensures var db := Run(plan, Start(EMPTY), history).disk;
            && n <= |plan.migrations|
            && ((exists steps :: Undisturbed(plan, Start(db), steps).pc.Done?
                                 && Complete(plan, Undisturbed(plan, Start(db), steps).disk))
                <==> n >= 3 || !FirstExists(plan, n, db.objects))
            && (n < 3 && FirstExists(plan, n, db.objects) ==>
                  forall actions: seq<Action> :: !Run(plan, Start(db), actions).pc.Done?)
  {
    assert Partly(plan, 0, 0, {});
    var d, v, a := RunIsSound(plan, EMPTY, 0, history);
    UptoInjective(n, d);
    var db := Run(plan, Start(EMPTY), history).disk;
    if n >= 3 || !FirstExists(plan, n, db.objects) {
      if n < 3 {
        var i: nat :| Partly(plan, n, i, db.objects);
      }
      Finishes(plan, Start(db), n, n, 0);
    } else {
      NeverFinishes(plan, db, n);
    }
  }

  lemma NeverFinishes(plan: Plan, db: Db, n: nat)
    requires WellFormed(plan) && Stuck(plan, Start(db), n)
    ensures forall actions: seq<Action> :: !Run(plan, Start(db), actions).pc.Done?
    ensures forall steps: nat :: !Undisturbed(plan, Start(db), steps).pc.Done?
  {
    forall actions: seq<Action> ensures !Run(plan, Start(db), actions).pc.Done? {
      StaysStuck(plan, Start(db), n, actions);
    }
    forall steps: nat ensures !Undisturbed(plan, Start(db), steps).pc.Done? {
      var actions := UndisturbedIsARun(plan, Start(db), steps);
    }
  }

  lemma {:induction false} UndisturbedIsARun(plan: Plan, m: Machine, n: nat) returns (actions: seq<Action>)
    ensures Run(plan, m, actions) == Undisturbed(plan, m, n)
    decreases n
  {
    if n == 0 {
      actions := [];
    } else {
      var rest := UndisturbedIsARun(plan, Step(plan, m), n - 1);
      actions := [Continue] + rest;
      RunFromStep(plan, m, rest);
    }
  }

  lemma {:induction false} RunFromStep(plan: Plan, m: Machine, rest: seq<Action>)
    ensures Run(plan, m, [Continue] + rest) == Run(plan, Step(plan, m), rest)
  {
    if rest == [] {
    } else {
      RunFromStep(plan, m, rest[..|rest| - 1]);
      assert ([Continue] + rest)[..|rest|] == [Continue] + rest[..|rest| - 1];
    }
  }

  // ---------------------------------------------------------- cut inside a script

  /** The nth script has run its first statement, and that statement only. */
  ghost predicate CutShort(plan: Plan, m: Machine, n: nat) {
    && n < |plan.migrations| && m.pc == Script(n, 1) && m.tx.None? && m.disk.recorded == Upto(n)
    && HasFirst(plan, n, 1, m.disk.objects) && LacksFrom(plan, n, 1, m.disk.objects)
  }

  /** On the way to version n + 1's script for the first time. */
  ghost predicate Approaches(plan: Plan, m: Machine, v: nat, n: nat) {
    && n < |plan.migrations| && plan.migrations[n].statements != [] && !plan.migrations[n].repair.AddMissing?
    && v <= n
    && (v == n ==> LacksFrom(plan, n, Position(m), View(m).objects))
    && match m.pc
       case Schema(_) => m.disk.recorded == {}
       case Deciding(k) => k <= n && m.applied == {}
       case Script(k, i) => m.applied == {} && (k < n || (k == n && i <= 1))
       case Columns(k, _) => m.applied == {} && k < n
       case Recording(k) => m.applied == {} && k < n
       case _ => false
  }

  lemma StepApproaches(plan: Plan, m: Machine, d: nat, v: nat, a: nat, d': nat, v': nat, a': nat, n: nat)
    requires WellFormed(plan) && Sound(plan, m, d, v, a) && CanFinish(plan, m, v) && Approaches(plan, m, v, n)
    requires m.pc != Script(n, 1)
    requires Sound(plan, Step(plan, m), d', v', a') && v' == if m.pc.Recording? then v + 1 else v
    ensures Approaches(plan, Step(plan, m), v', n)
  {
    match m.pc
    case Schema(i) => UptoInjective(0, d);
    case Deciding(k) => UptoInjective(0, a);
    case Script(k, i) =>
      if i < |plan.migrations[k].statements| {
        ScriptRuns(plan, m, v, a);
      }
    case Columns(_, _) =>
    case Recording(_) =>
  }

  lemma {:induction false} ReachesScript(plan: Plan, m: Machine, d: nat, v: nat, a: nat, n: nat) returns (steps: nat)
    requires WellFormed(plan) && Sound(plan, m, d, v, a) && CanFinish(plan, m, v) && Approaches(plan, m, v, n)
    ensures CutShort(plan, Undisturbed(plan, m, steps), n)
    decreases Phase(m.pc), Here(plan, m.pc), Within(m.pc), Left(plan, m.pc)
  {
    if m.pc == Script(n, 1) {
      steps := 0;
    } else {
      var d', v', a' := StepKeepsSound(plan, m, d, v, a);
      StepCanFinish(plan, m, d, v, a, v', d', a');
      StepApproaches(plan, m, d, v, a, d', v', a', n);
      steps := ReachesScript(plan, Step(plan, m), d', v', a', n);
      steps := steps + 1;
    }
  }

  /** Any script but an all-columns one can be cut after its first statement. */
  lemma CutShortHappens(plan: Plan, n: nat) returns (history: seq<Action>)
    requires WellFormed(plan) && n < |plan.migrations|
    requires plan.migrations[n].statements != [] && !plan.migrations[n].repair.AddMissing?
    ensures CutShort(plan, Run(plan, Start(EMPTY), history), n)
  {
    assert Partly(plan, 0, 0, {});
    var steps := ReachesScript(plan, Start(EMPTY), 0, 0, 0, n);
    history := UndisturbedIsARun(plan, Start(EMPTY), steps);
  }

  /** This history leaves version n + 1 unrecorded but begun, and no start after it
      ever completes, interrupted or not. */
  ghost predicate StuckAfter(plan: Plan, history: seq<Action>, n: nat) {
    var db := Run(plan, Start(EMPTY), history).disk;
    && n < |plan.migrations| && db.recorded == Upto(n) && FirstExists(plan, n, db.objects)
    && forall later: seq<Action> :: !Run(plan, Start(db), later).pc.Done?
  }

  /** It happens to each of the first three versions. */
  lemma StuckStartHappens(plan: Plan, n: nat)
    requires WellFormed(plan) && n < 3
    ensures exists history :: StuckAfter(plan, history, n)
  {
    var history := CutShortHappens(plan, n);
    NextStartFinishesIff(plan, history, n);
    assert StuckAfter(plan, history, n);
  }

  // ------------------------------------------------------------- what becomes of indexes

  /** A version reconciled by its column, whose script is not running, with one of
      its later statements' objects missing. */
  predicate Missing(plan: Plan, m: Machine, k: nat, i: nat) {
    && k < |plan.migrations| && plan.migrations[k].repair.SkipIfPresent? && 1 <= i < |plan.migrations[k].statements|
    && plan.migrations[k].repair.column in m.disk.objects
    && plan.migrations[k].repair.column in View(m).objects
    && plan.migrations[k].statements[i].what !in m.disk.objects
    && plan.migrations[k].statements[i].what !in View(m).objects
    && !(m.pc.Script? && m.pc.k == k)
    && !(m.pc.Columns? && m.pc.k == k)
  }

  /** Once missing an index never comes back: the column alone marks the version as done. */
  lemma {:induction false} SkippedIndexNeverReturns(plan: Plan, db: Db, k: nat, i: nat, actions: seq<Action>)
    requires WellFormed(plan) && Missing(plan, Start(db), k, i)
    ensures Missing(plan, Run(plan, Start(db), actions), k, i)
  {
    if actions != [] {
      SkippedIndexNeverReturns(plan, db, k, i, actions[..|actions| - 1]);
    }
  }

  /** And it does go missing: by a stop between such a version's ALTER TABLE and its
      CREATE INDEX. */
  lemma {:induction false} LostIndexHappens(plan: Plan, k: nat, i: nat)
    requires WellFormed(plan) && k < |plan.migrations| && plan.migrations[k].repair.SkipIfPresent?
    requires 1 <= i < |plan.migrations[k].statements|
    ensures exists history :: Missing(plan, Start(Run(plan, Start(EMPTY), history).disk), k, i)
  {
    var history := CutShortHappens(plan, k);
    assert plan.migrations[k].statements[0].what in Run(plan, Start(EMPTY), history).disk.objects;
  }

  /** All the objects of version k + 1, its indexes included. */
  predicate Entire(plan: Plan, k: nat, objects: set<Object>)
    requires k < |plan.migrations|
  {
    HasFirst(plan, k, |plan.migrations[k].statements|, objects)
  }

  /** Recorded versions are entire, unless reconciled by a column. */
  ghost predicate Indexed(plan: Plan, m: Machine, d: nat, v: nat) {
    && d <= |plan.migrations| && v <= |plan.migrations|
    && (forall k :: 0 <= k < d ==> plan.migrations[k].repair.SkipIfPresent? || Entire(plan, k, m.disk.objects))
    && (forall k :: 0 <= k < v ==> plan.migrations[k].repair.SkipIfPresent? || Entire(plan, k, View(m).objects))
    && (m.pc.Recording? && m.pc.k < |plan.migrations| ==>
          plan.migrations[m.pc.k].repair.SkipIfPresent? || Entire(plan, m.pc.k, View(m).objects))
  }

  lemma StepKeepsIndexed(plan: Plan, m: Machine, d: nat, v: nat, a: nat, d': nat, v': nat, a': nat)
    requires WellFormed(plan) && Sound(plan, m, d, v, a) && Indexed(plan, m, d, v)
    requires Sound(plan, Step(plan, m), d', v', a') && v' == if m.pc.Recording? then v + 1 else v
    ensures Indexed(plan, Step(plan, m), d', v')
  {
    if Step(plan, m).disk.recorded == m.disk.recorded {
      UptoInjective(d', d);
    } else {
      UptoInjective(d', v);
    }
  }

  /** No index of version k + 1 is missing, but for those its running script has yet to reach. */
  predicate OnlyPending(plan: Plan, m: Machine, k: nat, i: nat)
    requires k < |plan.migrations| && plan.migrations[k].repair.SkipIfPresent? && i < |plan.migrations[k].statements|
  {
    plan.migrations[k].repair.column in View(m).objects && plan.migrations[k].statements[i].what !in View(m).objects
    ==> m.pc.Script? && m.pc.k == k && m.pc.i <= i
  }

  lemma StepKeepsPending(plan: Plan, m: Machine, d: nat, v: nat, a: nat, k: nat, i: nat)
    requires WellFormed(plan) && Sound(plan, m, d, v, a)
    requires k < |plan.migrations| && plan.migrations[k].repair.SkipIfPresent?
    requires 1 <= i < |plan.migrations[k].statements|
    requires OnlyPending(plan, m, k, i)
    ensures OnlyPending(plan, Step(plan, m), k, i)
  {
  }

  lemma {:induction false} RunIsIndexed(plan: Plan, actions: seq<Action>) returns (d: nat, v: nat, a: nat)
    requires WellFormed(plan)
    ensures var m := Run(plan, Start(EMPTY), actions); Sound(plan, m, d, v, a) && Indexed(plan, m, d, v)
  {
    if actions == [] {
      d, v, a := 0, 0, 0;
      assert Partly(plan, 0, 0, {});
    } else {
      var before := Run(plan, Start(EMPTY), actions[..|actions| - 1]);
      d, v, a := RunIsIndexed(plan, actions[..|actions| - 1]);
      if actions[|actions| - 1].Continue? {
        var d', v', a' := StepKeepsSound(plan, before, d, v, a);
        StepKeepsIndexed(plan, before, d, v, a, d', v', a');
        d, v, a := d', v', a';
      } else {
        v, a := d, 0;
      }
    }
  }

  ghost predicate Tracked(plan: Plan, m: Machine, d: nat, v: nat, a: nat, k: nat, i: nat) {
    && Sound(plan, m, d, v, a) && Indexed(plan, m, d, v)
    && k < |plan.migrations| && i < |plan.migrations[k].statements|
    && (plan.migrations[k].repair.SkipIfPresent? ==> 1 <= i && OnlyPending(plan, m, k, i))
  }

  lemma StepKeepsTracked(plan: Plan, m: Machine, d: nat, v: nat, a: nat, k: nat, i: nat)
    returns (d': nat, v': nat, a': nat)
    requires WellFormed(plan) && Tracked(plan, m, d, v, a, k, i)
    ensures Tracked(plan, Step(plan, m), d', v', a', k, i)
  {
    d', v', a' := StepKeepsSound(plan, m, d, v, a);
    StepKeepsIndexed(plan, m, d, v, a, d', v', a');
    if plan.migrations[k].repair.SkipIfPresent? {
      StepKeepsPending(plan, m, d, v, a, k, i);
    }
  }

  /** Along a start that is left alone. */
  lemma {:induction false} UndisturbedIsTracked(plan: Plan, m: Machine, d: nat, v: nat, a: nat, n: nat, k: nat, i: nat)
    returns (d': nat, v': nat, a': nat)
    requires WellFormed(plan) && Tracked(plan, m, d, v, a, k, i)
    ensures Tracked(plan, Undisturbed(plan, m, n), d', v', a', k, i)
    decreases n
  {
    d', v', a' := d, v, a;
    if n > 0 {
      d', v', a' := StepKeepsTracked(plan, m, d, v, a, k, i);
      d', v', a' := UndisturbedIsTracked(plan, Step(plan, m), d', v', a', n - 1, k, i);
    }
  }

  /** After any history, a start that then completes undisturbed has exactly the indexes
      that were not missing when it began. */
  lemma IndexPresentIff(plan: Plan, history: seq<Action>, steps: nat, k: nat, i: nat)
    requires WellFormed(plan)
    requires Undisturbed(plan, Start(Run(plan, Start(EMPTY), history).disk), steps).pc.Done?
    requires k < |plan.migrations| && i < |plan.migrations[k].statements|
    requires plan.migrations[k].statements[i].what.Index?
    ensures var db := Run(plan, Start(EMPTY), history).disk;
            plan.migrations[k].statements[i].what in Undisturbed(plan, Start(db), steps).disk.objects
            <==> !Missing(plan, Start(db), k, i)
  {
    var d, v, a := RunIsIndexed(plan, history);
    var start := Start(Run(plan, Start(EMPTY), history).disk);
    if Missing(plan, start, k, i) {
      var actions := UndisturbedIsARun(plan, start, steps);
      SkippedIndexNeverReturns(plan, start.disk, k, i, actions);
    } else {
      var d', v', a' := UndisturbedIsTracked(plan, start, d, d, 0, steps, k, i);
      assert v' == |plan.migrations| && Built(plan, k, View(Undisturbed(plan, start, steps)).objects);
      assert plan.migrations[k].repair.SkipIfPresent? ==>
          plan.migrations[k].statements[0].what == plan.migrations[k].repair.column;
    }
  }

  // ------------------------------------------------------ start-up as it is written

  class Database {
    var disk: Db
    var tx: Option<Db>

    constructor ()
      ensures disk == EMPTY && tx == None
    {
      disk := EMPTY;
      tx := None;
    }

    method ExecuteScript(plan: Plan, k: nat, ghost start: Machine, ghost applied: set<nat>, ghost n: nat)
      returns (ok: bool, ghost later: nat)
      requires k < |plan.migrations| && tx == None
      requires Undisturbed(plan, start, n) == Machine(disk, None, applied, Script(k, 0))
      modifies this
      ensures tx == None
      ensures Undisturbed(plan, start, later) == Machine(disk, None, applied, if ok then Recording(k) else Raised)
    {
      later := n;
      var ss := plan.migrations[k].statements;
      for i := 0 to |ss|
        invariant tx == None && Undisturbed(plan, start, later) == Machine(disk, None, applied, Script(k, i))
      {
        UndisturbedStep(plan, start, later);
        later := later + 1;
        if ss[i].what in disk.objects && !ss[i].ifNotExists {
          return false, later;
        }
        if ss[i].what.Column? && Table(ss[i].what.t) !in disk.objects {
          return false, later;
        }
        disk := Db(disk.objects + {ss[i].what}, disk.recorded);
      }
      UndisturbedStep(plan, start, later);
      return true, later + 1;
    }

    method AddMissingColumns(plan: Plan, k: nat, ghost start: Machine, ghost applied: set<nat>, ghost n: nat)
      returns (ghost later: nat)
      requires k < |plan.migrations|
      requires Undisturbed(plan, start, n) == Machine(disk, tx, applied, Columns(k, 0))
      modifies this
      ensures Undisturbed(plan, start, later) == Machine(disk, tx, applied, Recording(k))
    {
      later := n;
      var ss := plan.migrations[k].statements;
      for i := 0 to |ss|
        invariant Undisturbed(plan, start, later) == Machine(disk, tx, applied, Columns(k, i))
      {
        UndisturbedStep(plan, start, later);
        later := later + 1;
        if tx.Some? {
          if ss[i].what !in tx.value.objects {
            tx := Some(Db(tx.value.objects + {ss[i].what}, tx.value.recorded));
          } else {
            assert tx.value.objects + {ss[i].what} == tx.value.objects;
          }
        } else if ss[i].what !in disk.objects {
          disk := Db(disk.objects + {ss[i].what}, disk.recorded);
        }
      }
      UndisturbedStep(plan, start, later);
      later := later + 1;
    }

    /** INSERT INTO schema_migrations: opens a transaction unless one is open. */
    method Record(version: nat)
      modifies this
      ensures disk == old(disk)
      ensures var db := if old(tx).Some? then old(tx).value else disk;
              tx == Some(Db(db.objects, db.recorded + {version}))
    {
      var db := if tx.Some? then tx.value else disk;
      tx := Some(Db(db.objects, db.recorded + {version}));
    }

    method Commit()
      modifies this
      ensures tx == None && disk == if old(tx).Some? then old(tx).value else old(disk)
    {
      if tx.Some? {
        disk := tx.value;
      }
      tx := None;
    }

    /** One whole start, undisturbed: it takes exactly the machine's steps. */
    method Initialize(plan: Plan) returns (ok: bool, ghost steps: nat)
      requires tx == None
      modifies this
      ensures tx == None
      ensures Undisturbed(plan, Start(old(disk)), steps).disk == disk
      ensures Undisturbed(plan, Start(old(disk)), steps).pc == if ok then Done else Raised
    {
      ghost var start := Start(disk);
      steps := 0;
      for i := 0 to |plan.base|
        invariant tx == None && Undisturbed(plan, start, steps) == Machine(disk, None, {}, Schema(i))
      {
        UndisturbedStep(plan, start, steps);
        disk := Db(disk.objects + {plan.base[i]}, disk.recorded);
        steps := steps + 1;
      }
      var applied := disk.recorded;
      UndisturbedStep(plan, start, steps);
      steps := steps + 1;
      for k := 0 to |plan.migrations|
        invariant Undisturbed(plan, start, steps) == Machine(disk, tx, applied, Deciding(k))
      {
        UndisturbedStep(plan, start, steps);
        steps := steps + 1;
        if k + 1 in applied {
          continue;
        }
        var repair := plan.migrations[k].repair;
        var objects := if tx.Some? then tx.value.objects else disk.objects;
        if repair.AddMissing? {
          steps := AddMissingColumns(plan, k, start, applied, steps);
        } else if !repair.SkipIfPresent? || repair.column !in objects {
          Commit();
          ok, steps := ExecuteScript(plan, k, start, applied, steps);
          if !ok {
            return;
          }
        }
        UndisturbedStep(plan, start, steps);
        steps := steps + 1;
        Record(k + 1);
      }
      UndisturbedStep(plan, start, steps);
      steps := steps + 1;
      Commit();
      ok := true;
    }
  }

  lemma {:induction false} UndisturbedStep(plan: Plan, m: Machine, n: nat)
    ensures Undisturbed(plan, m, n + 1) == Step(plan, Undisturbed(plan, m, n))
    decreases n
  {
    if n == 0 {
    } else {
      UndisturbedStep(plan, Step(plan, m), n - 1);
    }
  }

  // -------------------------------------------------------- the repository's plan

  function New(t: TableName): Statement {
    Create(Table(t), true)
  }

  /** The version's statements in order; `Index(v, n)` is its nth index. */
  function Statements(version: nat): seq<Statement> {
    match version
    case 1 => [Create(Table(ApprovalRecords), false), Create(Index(1, 0), false)]
    case 2 => [Create(Table(EpisodeEvents), false), Create(Table(IdempotencyRecords), false)]
    case 3 => [Create(Table(IdempotentOperations), false)]
    case 4 => [Create(Column(Projects, ArchivedAt), false)]
    case 5 => [New(SeasonPlanRevisions), New(SeasonPlanApprovals), Create(Index(5, 0), true)]
    case 6 => [New(AssetConsents), Create(Index(6, 0), true), New(ProductionRunAssets)]
    case 7 => [Create(Column(Assets, SeasonId), false), Create(Index(7, 0), true)]
    case 8 => [Create(Column(Projects, CreativeFormat), false), Create(Column(Projects, ProductionPipeline), false)]
    case 9 => [New(FeedbackItems), Create(Index(9, 0), true)]
    case 10 => [New(MemoryCards), Create(Index(10, 0), true), New(MemoryCardRevisions), New(MemoryCardConfirmations)]
    case 11 => [New(LibraryEntities), Create(Index(11, 0), true), New(LibraryEntityRevisions),
                New(LibraryEntityConfirmations)]
    case 12 => [New(ContinuityConfirmations), Create(Index(12, 0), true)]
    case 13 => [New(RemoteTaskBindings), Create(Index(13, 0), true)]
    case 14 => [New(FeedbackReviewBundles)]
    case 15 => [New(FeedbackReleaseLinkages)]
    case 16 => [New(FeedbackTriage)]
    case 17 => [New(FeedbackExports)]
    case 18 => [New(FeedbackReconciliations)]
    case 19 => [New(FeedbackWorkOrders)]
    case 20 => [New(FeedbackHandoffs)]
    case 21 => [New(FeedbackHandoffReconciliations)]
    case 22 => [New(FeedbackResults)]
    case 23 => [New(FeedbackEvidenceReconciliations)]
    case 24 => [New(PublicationReconciliations), New(PublicationMetrics), New(DirectorStrategies),
                Create(Index(24, 0), true), Create(Index(24, 1), true)]
    case 25 => [New(WriterReceiptReconciliations)]
    case 26 => [New(WriterProviderReconciliations)]
    case 27 => [New(RouteDecisions)]
    case 28 => [New(WriterExecutions)]
    case _ => []
  }

  function RepairOf(version: nat): Repair {
    if version == 4 then SkipIfPresent(Column(Projects, ArchivedAt))
    else if version == 7 then SkipIfPresent(Column(Assets, SeasonId))
    else if version == 8 then AddMissing
    else RunScript
  }

  const BASE: seq<Object> := [
    Table(Campaigns), Table(CampaignIntents), Table(CampaignReceipts), Table(CampaignObservations), Table(Projects),
    Table(Seasons), Table(Episodes), Table(ScriptRevisions), Table(Assets), Table(ContinuitySnapshots),
    Table(ProductionRuns), Table(RunEvents), Table(SchemaMigrations)]

  const NALU := Plan(BASE, seq(28, k requires 0 <= k < 28 => Migration(Statements(k + 1), RepairOf(k + 1))))

  /** The version that creates an object, 0 for the base schema. */
  function VersionOf(o: Object): nat {
    match o
    case Index(version, _) => version
    case Column(_, ArchivedAt) => 4
    case Column(_, SeasonId) => 7
    case Column(_, _) => 8
    case Table(t) =>
      match t
      case ApprovalRecords => 1
      case EpisodeEvents => 2 case IdempotencyRecords => 2
      case IdempotentOperations => 3
      case SeasonPlanRevisions => 5 case SeasonPlanApprovals => 5
      case AssetConsents => 6 case ProductionRunAssets => 6
      case FeedbackItems => 9
      case MemoryCards => 10 case MemoryCardRevisions => 10 case MemoryCardConfirmations => 10
      case LibraryEntities => 11 case LibraryEntityRevisions => 11 case LibraryEntityConfirmations => 11
      case ContinuityConfirmations => 12
      case RemoteTaskBindings => 13
      case FeedbackReviewBundles => 14
      case FeedbackReleaseLinkages => 15
      case FeedbackTriage => 16
      case FeedbackExports => 17
      case FeedbackReconciliations => 18
      case FeedbackWorkOrders => 19
      case FeedbackHandoffs => 20
      case FeedbackHandoffReconciliations => 21
      case FeedbackResults => 22
      case FeedbackEvidenceReconciliations => 23
      case PublicationReconciliations => 24 case PublicationMetrics => 24 case DirectorStrategies => 24
      case WriterReceiptReconciliations => 25
      case WriterProviderReconciliations => 26
      case RouteDecisions => 27
      case WriterExecutions => 28
      case _ => 0
  }

  predicate OwnsStatements(version: nat, statements: seq<Statement>) {
    && (forall i :: 0 <= i < |statements| ==> VersionOf(statements[i].what) == version)
    && (forall i, j :: 0 <= i < j < |statements| ==> statements[i].what != statements[j].what)
  }

  lemma VersionsOwnTo8(version: nat)
    requires 1 <= version <= 8
    ensures OwnsStatements(version, Statements(version))
  {
  }

  lemma VersionsOwnTo13(version: nat)
    requires 9 <= version <= 13
    ensures OwnsStatements(version, Statements(version))
  {
  }

  lemma VersionsOwnTo20(version: nat)
    requires 14 <= version <= 20
    ensures OwnsStatements(version, Statements(version))
  {
  }

  lemma VersionsOwnTo23(version: nat)
    requires 21 <= version <= 23
    ensures OwnsStatements(version, Statements(version))
  {
  }

  function Version24(i: nat): Object {
    if i == 0 then Table(PublicationReconciliations) else if i == 1 then Table(PublicationMetrics)
    else if i == 2 then Table(DirectorStrategies) else if i == 3 then Index(24, 0) else Index(24, 1)
  }

  lemma Version24Object(i: nat)
    requires i < 5
    ensures |Statements(24)| == 5 && Statements(24)[i].what == Version24(i) && VersionOf(Version24(i)) == 24
  {
  }

  lemma Version24Owns()
    ensures OwnsStatements(24, Statements(24))
  {
    var ss := Statements(24);
    assert |ss| == 5 by { Version24Object(0); }
    forall i | 0 <= i < 5 ensures ss[i].what == Version24(i) && VersionOf(ss[i].what) == 24 {
      Version24Object(i);
    }
  }

  lemma VersionsOwnTo28(version: nat)
    requires 25 <= version <= 28
    ensures OwnsStatements(version, Statements(version))
  {
  }

  lemma VersionsOwn(version: nat)
    requires 1 <= version <= 28
    ensures OwnsStatements(version, Statements(version))
  {
    if version <= 8 {
      VersionsOwnTo8(version);
    } else if version <= 13 {
      VersionsOwnTo13(version);
    } else if version <= 20 {
      VersionsOwnTo20(version);
    } else if version <= 23 {
      VersionsOwnTo23(version);
    } else if version == 24 {
      Version24Owns();
    } else {
      VersionsOwnTo28(version);
    }
  }

  lemma NaluRepairs(version: nat)
    requires 1 <= version <= 28
    ensures if version <= 3 then Strict(Migration(Statements(version), RepairOf(version)))
            else Repeatable(Migration(Statements(version), RepairOf(version)), BASE)
  {
  }

  lemma BaseIsUnversioned(j: nat)
    requires j < |BASE|
    ensures VersionOf(BASE[j]) == 0
  {
  }

  /** Owning its statements keeps every version's objects apart. */
  lemma OwnersAreDistinct(plan: Plan)
    requires forall k :: 0 <= k < |plan.migrations| ==> Owned(plan, k)
    requires forall j :: 0 <= j < |plan.base| ==> VersionOf(plan.base[j]) == 0
    ensures Distinct(plan)
  {
    forall k, i | 0 <= k < |plan.migrations| && 0 <= i < |plan.migrations[k].statements|
      ensures VersionOf(plan.migrations[k].statements[i].what) == k + 1
      ensures plan.migrations[k].statements[i].what !in plan.base
      ensures forall j :: 0 <= j < |plan.migrations[k].statements| && j != i ==>
                plan.migrations[k].statements[j].what != plan.migrations[k].statements[i].what
    {
      assert Owned(plan, k);
    }
  }

  predicate Owned(plan: Plan, k: nat)
    requires k < |plan.migrations|
  {
    OwnsStatements(k + 1, plan.migrations[k].statements)
  }

  /** The shipped migrations meet every condition the results above rest on. */
  lemma NaluPlanIsWellFormed()
    ensures WellFormed(NALU)
  {
    forall k | 0 <= k < 28
      ensures Owned(NALU, k)
      ensures if k < 3 then Strict(NALU.migrations[k]) else Repeatable(NALU.migrations[k], BASE)
    {
      VersionsOwn(k + 1);
      NaluRepairs(k + 1);
    }
    forall j | 0 <= j < |BASE| ensures VersionOf(BASE[j]) == 0 {
      BaseIsUnversioned(j);
    }
    OwnersAreDistinct(NALU);
  }

  /** Both happen to the shipped plan: stopped inside version 1 it never starts again,
      stopped inside version 7 the assets' season index is gone for good. */
  lemma ShippedPlanIsAffected()
    ensures exists history :: StuckAfter(NALU, history, 0)
    ensures exists history :: Missing(NALU, Start(Run(NALU, Start(EMPTY), history).disk), 6, 1)
  {
    NaluPlanIsWellFormed();
    StuckStartHappens(NALU, 0);
    LostIndexHappens(NALU, 6, 1);
  }
}
