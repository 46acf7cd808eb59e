// Starting a production run for one episode: an idempotency claim, an immutable
// package written beside its final name and renamed over it, an adapter that adds
// a workspace, and one transaction that commits the run. The start lock lets one
// attempt run at a time; it may stop after any step and be retried.
module StartRun {
  import opened Prelude

  type Key = string
  type RunId = string
  type Package = string

  /** What a file holds: all of a package, or the front of one. */
  datatype Content = Torn | Whole(package: Package)

  /** Names the adapter leaves in the run directory. */
  datatype Name = Workspace | PreflightReport | Unexpected(name: string)

  /** `package` is production-package.json, `staging` its .pending sibling. */
  datatype Dir = Dir(package: Option<Content>, staging: Option<Content>, others: set<Name>)

  datatype Status = Pending | Completed | Failed

  datatype Operation = Operation(request: string, resource: RunId, status: Status)

  datatype Row = Row(id: RunId, key: Key, package: Package)

  datatype State = State(ops: map<Key, Operation>, dirs: map<RunId, Dir>, runs: seq<Row>)

  datatype Adapter = Succeeds | Rejects | Breaks

  /** Whether the episode may start; a repair whose source moved on is refused with its claim left pending. */
  datatype Admission = Eligible | Ineligible | RepairStale

  /** What one attempt meets outside: the package its inputs now give, whether the
      episode may start, what the adapter writes and says, whether the commit's own checks pass. */
  datatype Surroundings =
    Surroundings(package: Package, admission: Admission, written: set<Name>, adapter: Adapter, commits: bool)

  datatype Stage = Claimed(recovering: bool) | Placed(recovering: bool) | Writing | Staged | Visible | Checked

  datatype Attempt = Attempt(key: Key, id: RunId, env: Surroundings, at: Stage)

  const NOTHING := Dir(None, None, {})

  function MarkFailed(s: State, key: Key): State
    requires key in s.ops
  {
    s.(ops := s.ops[key := s.ops[key].(status := Failed)])
  }

  function Put(s: State, id: RunId, dir: Dir): State {
    s.(dirs := s.dirs[id := dir])
  }

  predicate Expected(names: set<Name>) {
    forall n :: n in names ==> !n.Unexpected?
  }

  predicate Fresh(s: State, id: RunId) {
    id !in s.dirs && forall k :: k in s.ops ==> s.ops[k].resource != id
  }

  /** claim_operation and the branches on its answer. */
  function Begin(s: State, key: Key, request: string, offered: RunId, env: Surroundings): (State, Option<Attempt>) {
    if key !in s.ops then
      (s.(ops := s.ops[key := Operation(request, offered, Pending)]), Some(Attempt(key, offered, env, Claimed(false))))
    else if s.ops[key].request != request || s.ops[key].status != Pending then (s, None)
    else (s, Some(Attempt(key, s.ops[key].resource, env, Claimed(true))))
  }

  /** One step of an attempt; None where it returns or raises. */
  function Advance(s: State, a: Attempt): (State, Option<Stage>)
    requires a.key in s.ops
  {
    var d := if a.id in s.dirs then s.dirs[a.id] else NOTHING;
    match a.at
    case Claimed(recovering) =>
      if a.env.admission.RepairStale? then (s, None)
      else if a.env.admission.Ineligible? then (MarkFailed(s, a.key), None)
      else if !recovering && a.id in s.dirs then (s, None)
      else (Put(s, a.id, d), Some(Placed(recovering)))
    case Placed(recovering) =>
      if recovering && d.package.Some? then
        if d.package == Some(Whole(a.env.package)) && d.staging.None? && Expected(d.others) then (s, Some(Visible))
        else (MarkFailed(s, a.key), None)
      else if recovering && d.staging.Some? then
        if d.staging == Some(Whole(a.env.package)) && d.others == {} then
          (Put(s, a.id, d.(package := d.staging, staging := None)), Some(Visible))
        else (MarkFailed(s, a.key), None)
      else if recovering && d.others != {} then (MarkFailed(s, a.key), None)
      else if d.staging.Some? then (s, None)
      else (Put(s, a.id, d.(staging := Some(Torn))), Some(Writing))
    case Writing => (Put(s, a.id, d.(staging := Some(Whole(a.env.package)))), Some(Staged))
    case Staged => (Put(s, a.id, d.(package := d.staging, staging := None)), Some(Visible))
    case Visible =>
      var s' := Put(s, a.id, d.(others := d.others + a.env.written));
      (match a.env.adapter
       case Succeeds => (s', Some(Checked))
       case Rejects => (MarkFailed(s', a.key), None)
       case Breaks => (s', None))
    case Checked =>
      if !a.env.commits || s.ops[a.key].resource != a.id || s.ops[a.key].status != Pending then (s, None)
      else
        (s.(ops := s.ops[a.key := s.ops[a.key].(status := Completed)],
            runs := s.runs + [Row(a.id, a.key, a.env.package)]), None)
  }

  // ------------------------------------------------------- crashes and retries

  datatype World = World(state: State, attempt: Option<Attempt>)

  datatype Action =
    | Start(key: Key, request: string, offered: RunId, env: Surroundings)
    | Continue
    | Crash

  const EMPTY := State(map[], map[], [])

  function Next(w: World, action: Action): World {
    match action
    case Start(key, request, offered, env) =>
      if w.attempt.Some? || !Fresh(w.state, offered) then w
      else
        var (s, attempt) := Begin(w.state, key, request, offered, env);
        World(s, attempt)
    case Continue =>
      if w.attempt.None? || w.attempt.value.key !in w.state.ops then w
      else
        var (s, at) := Advance(w.state, w.attempt.value);
        World(s, if at.None? then None else Some(w.attempt.value.(at := at.value)))
    case Crash => w.(attempt := None)
  }

  function Run(actions: seq<Action>): World {
    if actions == [] then World(EMPTY, None) else Next(Run(actions[..|actions| - 1]), actions[|actions| - 1])
  }

  // ----------------------------------------------------------------- invariant

  /** A visible package is whole and alone; before it is visible nothing else is there. */
  predicate DirOk(d: Dir) {
    && (d.package.Some? ==> d.package.value.Whole? && d.staging.None?)
    && (d.package.None? ==> d.others == {})
  }

  predicate OpsOk(s: State) {
    && (forall k, l :: k in s.ops && l in s.ops && k != l ==> s.ops[k].resource != s.ops[l].resource)
    && (forall id :: id in s.dirs ==> DirOk(s.dirs[id]))
  }

  predicate RowOk(s: State, r: Row) {
    && r.key in s.ops && s.ops[r.key].resource == r.id && s.ops[r.key].status == Completed
    && r.id in s.dirs && s.dirs[r.id].package == Some(Whole(r.package))
  }

  predicate HasRun(runs: seq<Row>, key: Key) {
    exists i :: 0 <= i < |runs| && runs[i].key == key
  }

  predicate RunsOk(s: State) {
    && (forall i :: 0 <= i < |s.runs| ==> RowOk(s, s.runs[i]))
    && (forall i, j :: 0 <= i < j < |s.runs| ==> s.runs[i].key != s.runs[j].key)
    && (forall k :: k in s.ops && s.ops[k].status == Completed ==> HasRun(s.runs, k))
  }

  predicate AttemptOk(s: State, a: Attempt) {
    && a.key in s.ops && s.ops[a.key].resource == a.id && s.ops[a.key].status == Pending
    && match a.at
       case Claimed(recovering) => recovering || a.id !in s.dirs
       case Placed(recovering) => a.id in s.dirs && (recovering || s.dirs[a.id] == NOTHING)
       case Writing => a.id in s.dirs && s.dirs[a.id] == NOTHING.(staging := Some(Torn))
       case Staged => a.id in s.dirs && s.dirs[a.id] == NOTHING.(staging := Some(Whole(a.env.package)))
       case Visible => a.id in s.dirs && s.dirs[a.id].package == Some(Whole(a.env.package))
       case Checked => a.id in s.dirs && s.dirs[a.id].package == Some(Whole(a.env.package))
  }

  predicate Sound(w: World) {
    OpsOk(w.state) && RunsOk(w.state) && (w.attempt.Some? ==> AttemptOk(w.state, w.attempt.value))
  }

  lemma PutKeepsOps(s: State, a: Attempt, dir: Dir)
    requires OpsOk(s) && RunsOk(s) && AttemptOk(s, a) && DirOk(dir)
    ensures OpsOk(Put(s, a.id, dir)) && RunsOk(Put(s, a.id, dir))
  {
    forall i | 0 <= i < |s.runs| ensures RowOk(Put(s, a.id, dir), s.runs[i]) {}
  }

  lemma FailKeepsOps(s: State, a: Attempt)
    requires OpsOk(s) && RunsOk(s) && AttemptOk(s, a)
    ensures OpsOk(MarkFailed(s, a.key)) && RunsOk(MarkFailed(s, a.key))
  {
    var s' := MarkFailed(s, a.key);
    forall i | 0 <= i < |s.runs| ensures RowOk(s', s.runs[i]) {}
  }

  lemma CommitKeepsRows(s: State, a: Attempt)
    requires OpsOk(s) && RunsOk(s) && AttemptOk(s, a) && a.at.Checked? && a.env.commits
    ensures var s' := Advance(s, a).0;
            && OpsOk(s')
            && (forall i :: 0 <= i < |s'.runs| ==> RowOk(s', s'.runs[i]))
            && (forall i, j :: 0 <= i < j < |s'.runs| ==> s'.runs[i].key != s'.runs[j].key)
  {
    var s' := Advance(s, a).0;
    forall i | 0 <= i < |s.runs| ensures RowOk(s', s.runs[i]) && s.runs[i].key != a.key {}
  }

  lemma CommitKeepsOps(s: State, a: Attempt)
    requires OpsOk(s) && RunsOk(s) && AttemptOk(s, a) && a.at.Checked? && a.env.commits
    ensures OpsOk(Advance(s, a).0) && RunsOk(Advance(s, a).0)
  {
    var s' := Advance(s, a).0;
    CommitKeepsRows(s, a);
    assert s'.runs[|s.runs|].key == a.key;
    forall k | k in s'.ops && s'.ops[k].status == Completed ensures HasRun(s'.runs, k) {
      if k != a.key {
        var i :| 0 <= i < |s.runs| && s.runs[i].key == k;
        assert s'.runs[i].key == k;
      }
    }
  }

  lemma PlacedKeepsSound(w: World)
    requires Sound(w) && w.attempt.Some? && w.attempt.value.at.Placed?
    ensures Sound(Next(w, Continue))
  {
    var s, a := w.state, w.attempt.value;
    var d := s.dirs[a.id];
    FailKeepsOps(s, a);
    if d.package.None? {
      if a.at.recovering && d.staging == Some(Whole(a.env.package)) && d.others == {} {
        PutKeepsOps(s, a, d.(package := d.staging, staging := None));
      }
      PutKeepsOps(s, a, d.(staging := Some(Torn)));
    }
  }

  lemma VisibleKeepsSound(w: World)
    requires Sound(w) && w.attempt.Some? && w.attempt.value.at.Visible?
    ensures Sound(Next(w, Continue))
  {
    var s, a := w.state, w.attempt.value;
    var wider := s.dirs[a.id].(others := s.dirs[a.id].others + a.env.written);
    PutKeepsOps(s, a, wider);
    FailKeepsOps(Put(s, a.id, wider), a);
  }

  lemma CheckedKeepsSound(w: World)
    requires Sound(w) && w.attempt.Some? && w.attempt.value.at.Checked?
    ensures Sound(Next(w, Continue))
  {
    if w.attempt.value.env.commits {
      CommitKeepsOps(w.state, w.attempt.value);
    }
  }

  lemma ContinueKeepsSound(w: World)
    requires Sound(w)
    ensures Sound(Next(w, Continue))
  {
    if w.attempt.Some? {
      var s, a := w.state, w.attempt.value;
      var d := if a.id in s.dirs then s.dirs[a.id] else NOTHING;
      match a.at
      case Claimed(_) =>
        FailKeepsOps(s, a);
        PutKeepsOps(s, a, d);
      case Placed(_) => PlacedKeepsSound(w);
      case Writing => PutKeepsOps(s, a, d.(staging := Some(Whole(a.env.package))));
      case Staged => PutKeepsOps(s, a, d.(package := d.staging, staging := None));
      case Visible => VisibleKeepsSound(w);
      case Checked => CheckedKeepsSound(w);
    }
  }

  lemma StartKeepsSound(w: World, key: Key, request: string, offered: RunId, env: Surroundings)
    requires Sound(w)
    ensures Sound(Next(w, Start(key, request, offered, env)))
  {
    var s, s' := w.state, Next(w, Start(key, request, offered, env)).state;
    if s' != s {
      forall i | 0 <= i < |s.runs| ensures RowOk(s', s.runs[i]) {}
    }
  }

  lemma {:induction false} EveryRunIsSound(actions: seq<Action>)
    ensures Sound(Run(actions))
  {
    if actions != [] {
      var w, action := Run(actions[..|actions| - 1]), actions[|actions| - 1];
      EveryRunIsSound(actions[..|actions| - 1]);
      match action
      case Start(key, request, offered, env) => StartKeepsSound(w, key, request, offered, env);
      case Continue => ContinueKeepsSound(w);
      case Crash =>
    }
  }

  // --------------------------------------------------------------- main results

  /** At most one run per key, under the id claimed first, over the package that is
      visible in its directory; a key is completed exactly when it has that run. */
  lemma {:induction false} OneRunPerKey(actions: seq<Action>, i: nat, j: nat)
    requires i < |Run(actions).state.runs| && j < |Run(actions).state.runs|
    ensures var s := Run(actions).state;
            && RowOk(s, s.runs[i])
            && (s.runs[i].key == s.runs[j].key || s.runs[i].id == s.runs[j].id ==> i == j)
  {
    EveryRunIsSound(actions);
    var s := Run(actions).state;
  }

  lemma {:induction false} CompletedIffRun(actions: seq<Action>, key: Key)
    requires key in Run(actions).state.ops
    ensures Run(actions).state.ops[key].status == Completed <==> HasRun(Run(actions).state.runs, key)
  {
    EveryRunIsSound(actions);
    var s := Run(actions).state;
    if HasRun(s.runs, key) {
      var i :| 0 <= i < |s.runs| && s.runs[i].key == key;
    }
  }

  /** What one step may do to what is already decided. */
  predicate Settles(s: State, s': State) {
    && (forall k :: k in s.ops ==>
          && k in s'.ops && s'.ops[k].request == s.ops[k].request && s'.ops[k].resource == s.ops[k].resource
          && (s.ops[k].status != Pending ==> s'.ops[k].status == s.ops[k].status))
    && (forall id :: id in s.dirs ==>
        id in s'.dirs && (s.dirs[id].package.Some? ==> s'.dirs[id].package == s.dirs[id].package))
    && s.runs <= s'.runs
  }

  lemma PutSettles(s: State, id: RunId, dir: Dir)
    requires id in s.dirs && s.dirs[id].package.Some? ==> dir.package == s.dirs[id].package
    ensures Settles(s, Put(s, id, dir))
  {
  }

  lemma StatusSettles(s: State, key: Key, status: Status)
    requires key in s.ops && s.ops[key].status == Pending
    ensures Settles(s, s.(ops := s.ops[key := s.ops[key].(status := status)]))
  {
  }

  lemma SettlesTwice(s: State, t: State, u: State)
    requires Settles(s, t) && Settles(t, u)
    ensures Settles(s, u)
  {
  }

  lemma AdvanceSettles(s: State, a: Attempt)
    requires AttemptOk(s, a)
    ensures Settles(s, Advance(s, a).0)
  {
    var d := if a.id in s.dirs then s.dirs[a.id] else NOTHING;
    StatusSettles(s, a.key, Failed);
    match a.at
    case Claimed(_) => PutSettles(s, a.id, d);
    case Placed(_) =>
      if d.package.None? {
        PutSettles(s, a.id, d.(package := d.staging, staging := None));
      }
    case Writing => PutSettles(s, a.id, d.(staging := Some(Whole(a.env.package))));
    case Staged => PutSettles(s, a.id, d.(package := d.staging, staging := None));
    case Visible =>
      var s' := Put(s, a.id, d.(others := d.others + a.env.written));
      PutSettles(s, a.id, d.(others := d.others + a.env.written));
    case Checked => StatusSettles(s, a.key, Completed);
  }

  lemma BeginSettles(s: State, key: Key, request: string, offered: RunId, env: Surroundings)
    ensures Settles(s, Begin(s, key, request, offered, env).0)
  {
  }

  lemma StepSettles(w: World, action: Action)
    requires Sound(w)
    ensures Settles(w.state, Next(w, action).state)
  {
    match action
    case Start(key, request, offered, env) => BeginSettles(w.state, key, request, offered, env);
    case Continue =>
      if w.attempt.Some? {
        AdvanceSettles(w.state, w.attempt.value);
      }
    case Crash =>
  }

  /** Over any crashes and retries: a claim keeps its request and its first id, a
      finished status never changes, a visible package is never replaced, and
      committed runs stay. */
  lemma {:induction false} DecidedStaysDecided(start: seq<Action>, more: seq<Action>)
    ensures Settles(Run(start).state, Run(start + more).state)
  {
    if more == [] {
      assert start + more == start;
    } else {
      var n := |more| - 1;
      DecidedStaysDecided(start, more[..n]);
      assert (start + more)[..|start + more| - 1] == start + more[..n];
      EveryRunIsSound(start + more[..n]);
      StepSettles(Run(start + more[..n]), more[n]);
      SettlesTwice(Run(start).state, Run(start + more[..n]).state, Run(start + more).state);
    }
  }

  /** What a retry can carry on from, given the package its inputs now produce. */
  predicate Resumable(d: Dir, package: Package) {
    if d.package.Some? then d.package == Some(Whole(package)) && Expected(d.others)
    else d.staging.None? || d.staging == Some(Whole(package))
  }

  function Undisturbed(w: World, n: nat): World
    decreases n
  {
    if n == 0 then w else Undisturbed(Next(w, Continue), n - 1)
  }

  lemma {:induction false} UndisturbedPlus(w: World, m: nat, n: nat)
    ensures Undisturbed(w, m + n) == Undisturbed(Undisturbed(w, m), n)
    decreases m
  {
    if m > 0 {
      UndisturbedPlus(Next(w, Continue), m - 1, n);
    }
  }

  lemma {:induction false} NothingLeftToDo(s: State, n: nat)
    ensures Undisturbed(World(s, None), n) == World(s, None)
    decreases n
  {
    if n > 0 {
      NothingLeftToDo(s, n - 1);
    }
  }

  lemma OneMore(w: World, n: nat)
    requires n > 0
    ensures Undisturbed(w, n) == Undisturbed(Next(w, Continue), n - 1)
  {
  }

  /** A retry that went well: this run, over this package, under the claimed id. */
  predicate Committed(s: State, s': State, a: Attempt) {
    && a.key in s'.ops && s'.ops[a.key].status == Completed
    && s'.runs == s.runs + [Row(a.id, a.key, a.env.package)]
    && a.id in s'.dirs && s'.dirs[a.id].package == Some(Whole(a.env.package))
  }

  predicate GoesWell(env: Surroundings) {
    env.admission.Eligible? && env.adapter == Succeeds && env.commits
  }

  lemma {:induction false} FromVisible(s: State, a: Attempt, n: nat)
    requires AttemptOk(s, a) && a.at.Visible? && GoesWell(a.env) && n >= 2
    ensures Committed(s, Undisturbed(World(s, Some(a)), n).state, a)
  {
    var w := World(s, Some(a));
    var w1 := Next(w, Continue);
    var w2 := Next(w1, Continue);
    NothingLeftToDo(w2.state, n - 2);
  }

  lemma FromPlaced(s: State, a: Attempt, d: Dir)
    requires AttemptOk(s, a) && a.at == Placed(true) && GoesWell(a.env) && d == s.dirs[a.id] && DirOk(d)
    ensures var s' := Undisturbed(World(s, Some(a)), 5).state;
            if Resumable(d, a.env.package) then Committed(s, s', a) else s' == MarkFailed(s, a.key)
  {
    var w := World(s, Some(a));
    var w1 := Next(w, Continue);
    if d.package.None? && d.staging.None? {
      var w2 := Next(w1, Continue);
      OneMore(w1, 4);
      var w3 := Next(w2, Continue);
    } else if Resumable(d, a.env.package) {
      FromVisible(w1.state, a.(at := Visible), 4);
    }
  }

  /** A retry of a pending claim that meets nothing else wrong commits the run under
      the claimed id exactly when the directory is resumable, and otherwise marks
      the claim failed and leaves the directory as it was. */
  lemma RetryResumesOrFails(actions: seq<Action>, key: Key, request: string, offered: RunId, env: Surroundings)
    requires Run(actions).attempt.None? && Fresh(Run(actions).state, offered) && GoesWell(env)
    requires var s := Run(actions).state;
             key in s.ops && s.ops[key].status == Pending && s.ops[key].request == request
    ensures var s := Run(actions).state;
            var id := s.ops[key].resource;
            var d := if id in s.dirs then s.dirs[id] else NOTHING;
            var s' := Undisturbed(Next(Run(actions), Start(key, request, offered, env)), 6).state;
            if Resumable(d, env.package) then Committed(s, s', Attempt(key, id, env, Checked))
            else s' == MarkFailed(s, key)
  {
    EveryRunIsSound(actions);
    var s := Run(actions).state;
    var id := s.ops[key].resource;
    var d := if id in s.dirs then s.dirs[id] else NOTHING;
    var a := Attempt(key, id, env, Claimed(true));
    var w := Next(Run(actions), Start(key, request, offered, env));
    var placed := Put(s, id, d);
    FromPlaced(placed, a.(at := Placed(true)), d);
  }

  /** A new key whose first attempt meets nothing wrong commits its run under the id it
      was offered. */
  lemma FirstStartCommits(actions: seq<Action>, key: Key, request: string, offered: RunId, env: Surroundings)
    requires Run(actions).attempt.None? && Fresh(Run(actions).state, offered) && GoesWell(env)
    requires key !in Run(actions).state.ops
    ensures var s := Run(actions).state;
            var s' := Undisturbed(Next(Run(actions), Start(key, request, offered, env)), 6).state;
            Committed(s, s', Attempt(key, offered, env, Checked)) && s'.ops[key].request == request
  {
    var s := Run(actions).state;
    var a := Attempt(key, offered, env, Claimed(false));
    var w := Next(Run(actions), Start(key, request, offered, env));
    var w1 := Next(w, Continue);
    OneMore(w, 6);
    var w2 := Next(w1, Continue);
    OneMore(w1, 5);
    var w3 := Next(w2, Continue);
    var w4 := Next(w3, Continue);
    FromVisible(w4.state, a.(at := Visible), 2);
    RequestStays(w4.state, a.(at := Visible));
  }

  lemma {:induction false} RequestStays(s: State, a: Attempt)
    requires AttemptOk(s, a) && a.at.Visible? && GoesWell(a.env)
    ensures a.key in Undisturbed(World(s, Some(a)), 2).state.ops
    ensures Undisturbed(World(s, Some(a)), 2).state.ops[a.key].request == s.ops[a.key].request
  {
  }

  // ------------------------------------------------------ what a stop can cost

  /** Every attempt under the key had inputs giving this package, and an adapter leaving
      only its own names. */
  predicate SameInputs(actions: seq<Action>, key: Key, package: Package) {
    forall i :: 0 <= i < |actions| && actions[i].Start? && actions[i].key == key ==>
      actions[i].env.package == package && Expected(actions[i].env.written)
  }

  predicate InWriting(w: World, key: Key) {
    w.attempt.Some? && w.attempt.value.key == key && w.attempt.value.at.Writing?
  }

  /** Some stop came inside the write of the key's staged package. */
  predicate CutInWriting(actions: seq<Action>, key: Key) {
    exists i :: 0 <= i < |actions| && actions[i].Crash? && InWriting(Run(actions[..i]), key)
  }

  function DirOf(s: State, key: Key): Dir
    requires key in s.ops
  {
    if s.ops[key].resource in s.dirs then s.dirs[s.ops[key].resource] else NOTHING
  }

  /** Under the same inputs the key's directory holds nothing but its package's stages. */
  predicate OnlyItsPackage(w: World, key: Key, package: Package) {
    && (key in w.state.ops ==>
          var d := DirOf(w.state, key);
          && (d.package.Some? ==> d.package == Some(Whole(package)))
          && (d.staging.Some? && d.staging.value.Whole? ==> d.staging == Some(Whole(package)))
          && Expected(d.others))
    && (w.attempt.Some? && w.attempt.value.key == key ==>
          w.attempt.value.env.package == package && Expected(w.attempt.value.env.written))
  }

  lemma StartKeepsDir(w: World, k: Key, request: string, offered: RunId, env: Surroundings, key: Key)
    requires Sound(w)
    ensures var s' := Next(w, Start(k, request, offered, env)).state;
            if key in w.state.ops then
              key in s'.ops && s'.ops[key] == w.state.ops[key] && DirOf(s', key) == DirOf(w.state, key)
            else key in s'.ops ==> k == key && DirOf(s', key) == NOTHING && s'.ops[key].status == Pending
  {
  }

  /** An attempt touches no other key's claim or directory. */
  lemma AdvanceKeepsDir(s: State, a: Attempt, key: Key)
    requires OpsOk(s) && AttemptOk(s, a) && a.key != key
    ensures var s' := Advance(s, a).0;
            key in s'.ops <==> key in s.ops
    ensures var s' := Advance(s, a).0;
            key in s.ops ==> s'.ops[key] == s.ops[key] && DirOf(s', key) == DirOf(s, key)
  {
  }

  lemma AdvanceKeepsPackage(s: State, a: Attempt, package: Package)
    requires OpsOk(s) && AttemptOk(s, a) && a.env.package == package && Expected(a.env.written)
    requires OnlyItsPackage(World(s, Some(a)), a.key, package)
    ensures var (s', at) := Advance(s, a);
            OnlyItsPackage(World(s', if at.None? then None else Some(a.(at := at.value))), a.key, package)
  {
    match a.at
    case Claimed(_) =>
    case Placed(_) =>
    case Writing =>
    case Staged =>
    case Visible =>
    case Checked =>
  }

  lemma StepKeepsPackage(w: World, action: Action, key: Key, package: Package)
    requires Sound(w) && OnlyItsPackage(w, key, package)
    requires action.Start? && action.key == key ==> action.env.package == package && Expected(action.env.written)
    ensures OnlyItsPackage(Next(w, action), key, package)
  {
    match action
    case Start(k, request, offered, env) => StartKeepsDir(w, k, request, offered, env, key);
    case Continue =>
      if w.attempt.Some? {
        if w.attempt.value.key == key {
          AdvanceKeepsPackage(w.state, w.attempt.value, package);
        } else {
          AdvanceKeepsDir(w.state, w.attempt.value, key);
        }
      }
    case Crash =>
  }

  lemma {:induction false} RunKeepsPackage(actions: seq<Action>, key: Key, package: Package)
    requires SameInputs(actions, key, package)
    ensures OnlyItsPackage(Run(actions), key, package)
  {
    if actions != [] {
      var before := actions[..|actions| - 1];
      RunKeepsPackage(before, key, package);
      EveryRunIsSound(before);
      StepKeepsPackage(Run(before), actions[|actions| - 1], key, package);
    }
  }

  /** While a claim is pending, its staged package is torn exactly if a write of it is
      under way or was stopped. */
  predicate TornIs(w: World, key: Key, torn: bool) {
    && (torn ==> key in w.state.ops && !InWriting(w, key))
    && (key in w.state.ops && w.state.ops[key].status == Pending ==>
          (DirOf(w.state, key).staging == Some(Torn) <==> torn || InWriting(w, key)))
  }

  lemma AdvanceKeepsTorn(s: State, a: Attempt, torn: bool)
    requires OpsOk(s) && AttemptOk(s, a) && TornIs(World(s, Some(a)), a.key, torn)
    ensures var (s', at) := Advance(s, a);
            TornIs(World(s', if at.None? then None else Some(a.(at := at.value))), a.key, torn)
  {
    match a.at
    case Claimed(_) =>
    case Placed(_) =>
    case Writing =>
    case Staged =>
    case Visible =>
    case Checked =>
  }

  lemma StepKeepsTorn(w: World, action: Action, key: Key, torn: bool)
    requires Sound(w) && TornIs(w, key, torn)
    ensures TornIs(Next(w, action), key, torn || (action.Crash? && InWriting(w, key)))
  {
    match action
    case Start(k, request, offered, env) => StartKeepsDir(w, k, request, offered, env, key);
    case Continue =>
      if w.attempt.Some? {
        if w.attempt.value.key == key {
          AdvanceKeepsTorn(w.state, w.attempt.value, torn);
        } else {
          AdvanceKeepsDir(w.state, w.attempt.value, key);
        }
      }
    case Crash =>
  }

  lemma {:induction false} RunKeepsTorn(actions: seq<Action>, key: Key)
    ensures TornIs(Run(actions), key, CutInWriting(actions, key))
  {
    if actions != [] {
      var n := |actions| - 1;
      RunKeepsTorn(actions[..n], key);
      EveryRunIsSound(actions[..n]);
      StepKeepsTorn(Run(actions[..n]), actions[n], key, CutInWriting(actions[..n], key));
      TornSnoc(actions, key);
    }
  }

  lemma TornSnoc(actions: seq<Action>, key: Key)
    requires actions != []
    ensures var n := |actions| - 1;
            CutInWriting(actions, key) <==>
                CutInWriting(actions[..n], key) || (actions[n].Crash? && InWriting(Run(actions[..n]), key))
  {
    var n := |actions| - 1;
    forall i | 0 <= i < n ensures actions[..n][..i] == actions[..i] && actions[..n][i] == actions[i] {}
  }

  /** With unchanged inputs the one stop that costs a claim is inside the write of its
      staged package: a retry that meets nothing wrong commits under the claimed id if
      none came there, and marks the claim failed if one did. */
  lemma OnlyATornStagingCostsTheClaim(actions: seq<Action>, key: Key, request: string, offered: RunId,
                                      env: Surroundings)
    requires SameInputs(actions, key, env.package) && GoesWell(env)
    requires Run(actions).attempt.None? && Fresh(Run(actions).state, offered)
    requires var s := Run(actions).state;
             key in s.ops && s.ops[key].status == Pending && s.ops[key].request == request
    ensures var s := Run(actions).state;
            var s' := Undisturbed(Next(Run(actions), Start(key, request, offered, env)), 6).state;
            if CutInWriting(actions, key) then s' == MarkFailed(s, key)
            else Committed(s, s', Attempt(key, s.ops[key].resource, env, Checked))
  {
    RunKeepsPackage(actions, key, env.package);
    RunKeepsTorn(actions, key);
    RetryResumesOrFails(actions, key, request, offered, env);
    assert Resumable(DirOf(Run(actions).state, key), env.package) <==> !CutInWriting(actions, key) by {
      EveryRunIsSound(actions);
    }
  }

  lemma {:induction false} RunSnoc(actions: seq<Action>, action: Action)
    ensures Run(actions + [action]) == Next(Run(actions), action)
  {
    assert (actions + [action])[..|actions|] == actions;
  }

  function Interrupted(key: Key, request: string, id: RunId, env: Surroundings): seq<Action> {
    [Start(key, request, id, env)] + [Continue] + [Continue] + [Crash]
  }

  lemma InterruptedIs(key: Key, request: string, id: RunId, env: Surroundings)
    requires GoesWell(env)
    ensures var w := Run(Interrupted(key, request, id, env));
            && CutInWriting(Interrupted(key, request, id, env), key)
            && w == World(State(map[key := Operation(request, id, Pending)],
                                map[id := NOTHING.(staging := Some(Torn))], []), None)
  {
    var first := [Start(key, request, id, env)];
    assert Run([]) == World(EMPTY, None);
    RunSnoc([], Start(key, request, id, env));
    assert [] + first == first;
    RunSnoc(first, Continue);
    RunSnoc(first + [Continue], Continue);
    RunSnoc(first + [Continue] + [Continue], Crash);
    assert Interrupted(key, request, id, env)[..3] == first + [Continue] + [Continue];
    assert InWriting(Run(Interrupted(key, request, id, env)[..3]), key);
  }

  /** And it does cost it: started, stopped in that write and started again with nothing
      else wrong, the claim is failed and there is no run. */
  lemma TornClaimHappens(key: Key, request: string, id: RunId, other: RunId, env: Surroundings)
    requires GoesWell(env) && id != other
    ensures var before := Interrupted(key, request, id, env);
            && CutInWriting(before, key) && (Expected(env.written) ==> SameInputs(before, key, env.package))
            && Undisturbed(Next(Run(before), Start(key, request, other, env)), 6).state
               == State(map[key := Operation(request, id, Failed)], map[id := NOTHING.(staging := Some(Torn))], [])
  {
    InterruptedIs(key, request, id, env);
    RetryResumesOrFails(Interrupted(key, request, id, env), key, request, other, env);
  }

  // --------------------------------------------------- how any attempt ends

  /** The directory is empty, or holds this very package, staged or visible; beside a visible
      one there is nothing but what an adapter leaves. */
  predicate CarriesOn(d: Dir, package: Package) {
    && (d.package.Some? ==>
          d.package.value == Whole(package) && forall n :: n in d.others ==> n in {Workspace, PreflightReport})
    && (d.package.None? && d.staging.Some? ==> d.staging.value == Whole(package))
  }

  /** The claim's status after an attempt: a repair whose source moved on, an adapter that broke
      off and a commit that failed leave it open for a retry; a refused episode, a directory
      holding anything else and a rejected package end it. */
  function EndStatus(d: Dir, env: Surroundings): Status {
    match env.admission
    case RepairStale => Pending
    case Ineligible => Failed
    case Eligible =>
      if !CarriesOn(d, env.package) || env.adapter == Rejects then Failed
      else if env.adapter == Succeeds && env.commits then Completed
      else Pending
  }

  /** The claim's own status, run and directory have changed as said, and nothing else has. */
  ghost predicate Ended(s: State, s': State, key: Key, request: string, id: RunId, d: Dir, env: Surroundings) {
    && s'.ops == s.ops[key := Operation(request, id, EndStatus(d, env))]
    && s'.runs == s.runs + (if EndStatus(d, env) == Completed then [Row(id, key, env.package)] else [])
    && (forall other :: other != id ==> (other in s'.dirs <==> other in s.dirs))
    && (forall other :: other in s.dirs && other != id ==> s'.dirs[other] == s.dirs[other])
    && (var d' := if id in s'.dirs then s'.dirs[id] else NOTHING;
        if env.admission.Eligible? && CarriesOn(d, env.package)
        then d' == Dir(Some(Whole(env.package)), None, d.others + env.written)
        else d' == d)
  }

  lemma {:induction false} VisibleEnds(s: State, a: Attempt, n: nat)
    requires AttemptOk(s, a) && a.at.Visible? && a.env.admission.Eligible? && n >= 2
    requires s.dirs[a.id].staging.None? && CarriesOn(s.dirs[a.id], a.env.package)
    ensures var w := Undisturbed(World(s, Some(a)), n);
            w.attempt.None? && Ended(s, w.state, a.key, s.ops[a.key].request, a.id, s.dirs[a.id], a.env)
  {
    var w := World(s, Some(a));
    var w1 := Next(w, Continue);
    if a.env.adapter.Succeeds? {
      var w2 := Next(w1, Continue);
      NothingLeftToDo(w2.state, n - 2);
    } else {
      NothingLeftToDo(w1.state, n - 1);
    }
  }

  lemma EndedAgain(s: State, t: State, u: State, key: Key, request: string, id: RunId, d: Dir, e: Dir,
                   env: Surroundings)
    requires Ended(t, u, key, request, id, e, env) && env.admission.Eligible?
    requires d == e || (CarriesOn(d, env.package) && CarriesOn(e, env.package) && e.others == d.others)
    requires t == s.(ops := t.ops, dirs := t.dirs) && key in t.ops && t.ops == s.ops[key := t.ops[key]]
    requires t.dirs == s.dirs[id := e]
    ensures Ended(s, u, key, request, id, d, env)
  {
    assert EndStatus(d, env) == EndStatus(e, env);
    assert s.ops[key := t.ops[key]][key := u.ops[key]] == s.ops[key := u.ops[key]];
    assert u.ops == u.ops[key := u.ops[key]];
  }

  lemma {:induction false} StagedEnds(s: State, a: Attempt, n: nat)
    requires AttemptOk(s, a) && a.at == Staged && a.env.admission.Eligible? && n >= 3
    ensures var w := Undisturbed(World(s, Some(a)), n);
            w.attempt.None? && Ended(s, w.state, a.key, s.ops[a.key].request, a.id, s.dirs[a.id], a.env)
  {
    var w1 := Next(World(s, Some(a)), Continue);
    VisibleEnds(w1.state, a.(at := Visible), n - 1);
    EndedAgain(s, w1.state, Undisturbed(w1, n - 1).state, a.key, s.ops[a.key].request, a.id, s.dirs[a.id],
               w1.state.dirs[a.id], a.env);
  }

  lemma {:induction false} WritingEnds(s: State, a: Attempt, n: nat)
    requires AttemptOk(s, a) && a.at == Writing && a.env.admission.Eligible? && n >= 4
    requires s.dirs[a.id] == NOTHING.(staging := Some(Torn))
    ensures var w := Undisturbed(World(s, Some(a)), n);
            w.attempt.None? && Ended(s, w.state, a.key, s.ops[a.key].request, a.id, NOTHING, a.env)
  {
    var w1 := Next(World(s, Some(a)), Continue);
    StagedEnds(w1.state, a.(at := Staged), n - 1);
    EndedAgain(s, w1.state, Undisturbed(w1, n - 1).state, a.key, s.ops[a.key].request, a.id, NOTHING,
               w1.state.dirs[a.id], a.env);
  }

  lemma {:induction false} EmptyPlacedEnds(s: State, a: Attempt)
    requires AttemptOk(s, a) && a.at.Placed? && a.env.admission.Eligible? && s.dirs[a.id] == NOTHING
    ensures var w := Undisturbed(World(s, Some(a)), 5);
            w.attempt.None? && Ended(s, w.state, a.key, s.ops[a.key].request, a.id, NOTHING, a.env)
  {
    var w1 := Next(World(s, Some(a)), Continue);
    OneMore(World(s, Some(a)), 5);
    WritingEnds(w1.state, a.(at := Writing), 4);
    assert Ended(s, Undisturbed(w1, 4).state, a.key, s.ops[a.key].request, a.id, NOTHING, a.env);
  }

  lemma {:induction false} PlacedEnds(s: State, a: Attempt)
    requires AttemptOk(s, a) && OpsOk(s) && a.at.Placed? && a.env.admission.Eligible?
    ensures var w := Undisturbed(World(s, Some(a)), 5);
            w.attempt.None? && Ended(s, w.state, a.key, s.ops[a.key].request, a.id, s.dirs[a.id], a.env)
  {
    var d := s.dirs[a.id];
    if d == NOTHING {
      EmptyPlacedEnds(s, a);
    } else {
      var w1 := Next(World(s, Some(a)), Continue);
      OneMore(World(s, Some(a)), 5);
      if CarriesOn(d, a.env.package) {
        VisibleEnds(w1.state, a.(at := Visible), 4);
        EndedAgain(s, w1.state, Undisturbed(w1, 4).state, a.key, s.ops[a.key].request, a.id, d, w1.state.dirs[a.id],
                   a.env);
      } else {
        NothingLeftToDo(w1.state, 4);
      }
    }
  }

  lemma {:induction false} ClaimedEnds(s: State, a: Attempt)
    requires AttemptOk(s, a) && OpsOk(s) && a.at.Claimed?
    ensures var w := Undisturbed(World(s, Some(a)), 6);
            var d := if a.id in s.dirs then s.dirs[a.id] else NOTHING;
            w.attempt.None? && Ended(s, w.state, a.key, s.ops[a.key].request, a.id, d, a.env)
  {
    var w1 := Next(World(s, Some(a)), Continue);
    OneMore(World(s, Some(a)), 6);
    if a.env.admission.Eligible? {
      PlacedEnds(w1.state, w1.attempt.value);
      var d := w1.state.dirs[a.id];
      EndedAgain(s, w1.state, Undisturbed(w1, 5).state, a.key, s.ops[a.key].request, a.id, d, d, a.env);
    } else {
      NothingLeftToDo(w1.state, 5);
    }
  }

  lemma BegunEnds(w: World, key: Key, request: string, offered: RunId, env: Surroundings)
    requires Sound(w) && w.attempt.None? && Fresh(w.state, offered)
    requires key in w.state.ops ==> w.state.ops[key].status == Pending && w.state.ops[key].request == request
    ensures var id := if key in w.state.ops then w.state.ops[key].resource else offered;
            var d := if id in w.state.dirs then w.state.dirs[id] else NOTHING;
            var w' := Undisturbed(Next(w, Start(key, request, offered, env)), 6);
            w'.attempt.None? && Ended(w.state, w'.state, key, request, id, d, env)
  {
    StartKeepsSound(w, key, request, offered, env);
    var begun := Next(w, Start(key, request, offered, env));
    ClaimedEnds(begun.state, begun.attempt.value);
  }

  /** An undisturbed attempt under a new or pending claim, in any reachable state and whatever it
      meets: its claim, its run and its directory end as said, and it touches nothing else. */
  lemma AttemptVerdict(actions: seq<Action>, key: Key, request: string, offered: RunId, env: Surroundings)
    requires Run(actions).attempt.None? && Fresh(Run(actions).state, offered)
    requires var s := Run(actions).state;
             key in s.ops ==> s.ops[key].status == Pending && s.ops[key].request == request
    ensures var s := Run(actions).state;
            var id := if key in s.ops then s.ops[key].resource else offered;
            var d := if id in s.dirs then s.dirs[id] else NOTHING;
            var w := Undisturbed(Next(Run(actions), Start(key, request, offered, env)), 6);
            w.attempt.None? && Ended(s, w.state, key, request, id, d, env)
  {
    EveryRunIsSound(actions);
    BegunEnds(Run(actions), key, request, offered, env);
  }

  /** What recovery finds beside a visible package is only what an adapter leaves. */
  predicate OnlyAdapterNames(d: Dir) {
    forall n :: n in d.others ==> n in {Workspace, PreflightReport}
  }

  /** Whatever a claimed directory holds, tampered with or not: recovery takes up a visible package
      or a staged one that is exactly this one with nothing foreign beside it, writes a new one only
      into an empty directory, and fails the claim over anything else. */
  lemma RecoveryVerdict(s: State, a: Attempt, d: Dir)
    requires a.key in s.ops && a.at == Placed(true) && a.id in s.dirs && s.dirs[a.id] == d
    ensures var ours := Some(Whole(a.env.package));
            Advance(s, a)
            == if d.package == ours && d.staging == None && OnlyAdapterNames(d) then (s, Some(Visible))
               else if d.package == None && d.staging == ours && d.others == {}
               then (Put(s, a.id, Dir(ours, None, {})), Some(Visible))
               else if d == Dir(None, None, {}) then (Put(s, a.id, Dir(None, Some(Torn), {})), Some(Writing))
               else (s.(ops := s.ops[a.key := s.ops[a.key].(status := Failed)]), None)
  {
    assert Expected(d.others) <==> OnlyAdapterNames(d) by {
      forall n | n in d.others ensures n.Unexpected? <==> n !in {Workspace, PreflightReport} {}
    }
  }

  /** The commit checks once more that the claim is still pending under this id. */
  lemma CommitVerdict(s: State, a: Attempt)
    requires a.key in s.ops && a.at == Checked
    ensures Advance(s, a)
            == (if a.env.commits && s.ops[a.key].resource == a.id && s.ops[a.key].status == Pending
                then s.(ops := s.ops[a.key := s.ops[a.key].(status := Completed)],
                        runs := s.runs + [Row(a.id, a.key, a.env.package)])
                else s, None)
  {
  }

  /** A key already decided, or claimed for another request, starts nothing. */
  lemma DecidedKeyStartsNothing(w: World, key: Key, request: string, offered: RunId, env: Surroundings)
    requires key in w.state.ops && (w.state.ops[key].status != Pending || w.state.ops[key].request != request)
    ensures Next(w, Start(key, request, offered, env)) == w
  {
  }

  // -------------------------------------------------- one attempt as it is written

  lemma ThenOne(w: World, n: nat)
    ensures Undisturbed(w, n + 1) == Next(Undisturbed(w, n), Continue)
  {
    UndisturbedPlus(w, n, 1);
  }

  class ProductionEngine {
    var ops: map<Key, Operation>
    var dirs: map<RunId, Dir>
    var runs: seq<Row>

    function Current(): State
      reads this
    {
      State(ops, dirs, runs)
    }

    constructor ()
      ensures Current() == EMPTY
    {
      ops := map[];
      dirs := map[];
      runs := [];
    }

    method FinishOperation(key: Key)
      requires key in ops
      modifies this
      ensures Current() == MarkFailed(old(Current()), key)
    {
      ops := ops[key := ops[key].(status := Failed)];
    }

    method WriteAndPromote(a: Attempt, ghost w: World, ghost n: nat)
      requires a.key in ops && a.id in dirs && dirs[a.id].staging.None?
      requires a.at.Placed? && (a.at.recovering ==> dirs[a.id].package.None? && dirs[a.id].others == {})
      requires Undisturbed(w, n) == World(Current(), Some(a))
      modifies this
      ensures Undisturbed(w, n + 3) == World(Current(), Some(a.(at := Visible)))
      ensures ops == old(ops) && dirs.Keys == old(dirs.Keys)
    {
      var d := dirs[a.id];
      dirs := dirs[a.id := d.(staging := Some(Torn))];
      ThenOne(w, n);
      dirs := dirs[a.id := d.(staging := Some(Whole(a.env.package)))];
      ThenOne(w, n + 1);
      dirs := dirs[a.id := d.(package := Some(Whole(a.env.package)), staging := None)];
      ThenOne(w, n + 2);
    }

    /** From the directory to a visible package, or to a failed or abandoned attempt. */
    method PlacePackage(a: Attempt, ghost w: World, ghost n: nat) returns (placed: bool, ghost later: nat)
      requires a.key in ops && a.id in dirs && a.at.Placed?
      requires Undisturbed(w, n) == World(Current(), Some(a))
      modifies this
      ensures Undisturbed(w, later) == World(Current(), if placed then Some(a.(at := Visible)) else None)
      ensures placed ==> a.key in ops && a.id in dirs
    {
      var d := dirs[a.id];
      ThenOne(w, n);
      if a.at.recovering && d.package.Some? {
        placed := d.package == Some(Whole(a.env.package)) && d.staging.None? && Expected(d.others);
        if !placed {
          FinishOperation(a.key);
        }
        return placed, n + 1;
      }
      if a.at.recovering && d.staging.Some? {
        placed := d.staging == Some(Whole(a.env.package)) && d.others == {};
        if placed {
          dirs := dirs[a.id := d.(package := d.staging, staging := None)];
        } else {
          FinishOperation(a.key);
        }
        return placed, n + 1;
      }
      if a.at.recovering && d.others != {} {
        FinishOperation(a.key);
        return false, n + 1;
      }
      if d.staging.Some? {
        return false, n + 1;
      }
      WriteAndPromote(a, w, n);
      return true, n + 3;
    }

    method PreflightAndCommit(a: Attempt, ghost w: World, ghost n: nat) returns (ok: bool, ghost later: nat)
      requires a.key in ops && a.id in dirs && a.at.Visible?
      requires Undisturbed(w, n) == World(Current(), Some(a))
      modifies this
      ensures Undisturbed(w, later) == World(Current(), None)
      ensures runs == old(runs) + if ok then [Row(a.id, a.key, a.env.package)] else []
    {
      dirs := dirs[a.id := dirs[a.id].(others := dirs[a.id].others + a.env.written)];
      ThenOne(w, n);
      if a.env.adapter.Rejects? {
        FinishOperation(a.key);
        return false, n + 1;
      }
      if a.env.adapter.Breaks? {
        return false, n + 1;
      }
      ThenOne(w, n + 1);
      if !a.env.commits || ops[a.key].resource != a.id || ops[a.key].status != Pending {
        return false, n + 2;
      }
      ops := ops[a.key := ops[a.key].(status := Completed)];
      runs := runs + [Row(a.id, a.key, a.env.package)];
      return true, n + 2;
    }

    /** The body under the start lock: exactly the machine's steps, to their end. */
    method StartRunLocked(key: Key, request: string, offered: RunId, env: Surroundings)
      returns (ok: bool, ghost steps: nat)
      requires Fresh(Current(), offered)
      modifies this
      ensures var w := Next(World(old(Current()), None), Start(key, request, offered, env));
              Undisturbed(w, steps) == World(Current(), None)
      ensures old(key in ops && ops[key].status != Pending) ==>
                Current() == old(Current())
                    && (ok <==> old(ops[key]).status == Completed && old(ops[key]).request == request)
    {
      ghost var w := Next(World(Current(), None), Start(key, request, offered, env));
      var recovering := key in ops;
      if recovering {
        if ops[key].request != request || ops[key].status == Failed {
          return false, 0;
        }
        if ops[key].status == Completed {
          return true, 0;
        }
      } else {
        ops := ops[key := Operation(request, offered, Pending)];
      }
      var a := Attempt(key, ops[key].resource, env, Claimed(recovering));
      ThenOne(w, 0);
      if env.admission.RepairStale? {
        return false, 1;
      }
      if env.admission.Ineligible? {
        FinishOperation(key);
        return false, 1;
      }
      if a.id !in dirs {
        dirs := dirs[a.id := NOTHING];
      }
      ok, steps := PlacePackage(a.(at := Placed(recovering)), w, 1);
      if ok {
        ok, steps := PreflightAndCommit(a.(at := Visible), w, steps);
      }
    }
  }
}
