// Managed assets live in two places at once: a directory of bytes and a SQLite
// row. Import and deletion move the directory between three names so that
// recovery can tell, after a stop at any step, which of the two should win.
module AssetStore {
  import opened Prelude

  type Id = string
  type Bytes = seq<bv8>

  const MAX_ASSET_BYTES := 100 * 1024 * 1024

  const MARKER_NAME := ".nalu-asset-import.pending.json"

  /** SHA-256, injective: modelled by the bytes themselves. */
  datatype Sha = Sha(content: Bytes)

  datatype File = File(name: string, bytes: Bytes)

  /** The import marker's JSON, or whatever an interrupted write left of it. */
  datatype Marker = Torn | Marker(asset: Id, project: string, filename: string, sha: Sha, size: nat)

  datatype Dir = Dir(file: Option<File>, marker: Option<Marker>)

  /** A row of `assets`; local_uri is home/id/filename. */
  datatype Row = Row(project: string, filename: string, sha: Sha, size: nat)

  /** Everything one asset id may own: `.id.pending`, `id`, `.id.deleting` and a row. */
  datatype Slot = Slot(home: string, pending: Option<Dir>, final: Option<Dir>, deleting: Option<Dir>, row: Option<Row>)

  type Store = map<Id, Slot>

  predicate Acceptable(file: File) {
    0 < |file.bytes| <= MAX_ASSET_BYTES
  }

  datatype Stage = Pending | Final | Deleting

  /** One name in a project directory. */
  datatype Entry = Entry(id: Id, stage: Stage)

  function Empty(home: string): Slot {
    Slot(home, None, None, None, None)
  }

  function RowFor(home: string, file: File): Row {
    Row(home, file.name, Sha(file.bytes), |file.bytes|)
  }

  function MarkerFor(id: Id, home: string, file: File): Marker {
    Marker(id, home, file.name, Sha(file.bytes), |file.bytes|)
  }

  function At(s: Slot, stage: Stage): Option<Dir> {
    match stage
    case Pending => s.pending
    case Final => s.final
    case Deleting => s.deleting
  }

  // ----------------------------------------------------------------- recovery

  predicate MarkerBinds(m: Marker, id: Id, home: string) {
    m.Marker? && m.asset == id && m.project == home
  }

  predicate Verified(dir: Dir, row: Row, home: string)
    requires dir.marker.Some? && dir.marker.value.Marker?
  {
    var m := dir.marker.value;
    && dir.file.Some? && dir.file.value.name == m.filename
    && row.project == home && row.filename == m.filename
    && Sha(dir.file.value.bytes) == m.sha && row.sha == m.sha && row.size == m.size
  }

  /** One pass of the recovery loop's body; None where it raises. */
  function RecoverEntry(id: Id, s: Slot, stage: Stage): Option<Slot> {
    match stage
    case Deleting =>
      if s.row.None? then Some(s.(deleting := None))
      else if s.final.Some? || s.row.value.project != s.home then None
      else Some(s.(final := s.deleting, deleting := None))
    case Pending => Some(s.(pending := None))
    case Final =>
      if s.final.None? || s.final.value.marker.None? then Some(s)
      else if !MarkerBinds(s.final.value.marker.value, id, s.home) then None
      else if s.row.None? then Some(s.(final := None))
      else if !Verified(s.final.value, s.row.value, s.home) then None
      else Some(s.(final := Some(s.final.value.(marker := None))))
  }

  /** The whole pass over a directory listing: the store it leaves, and whether it finished. */
  function RecoverAll(store: Store, entries: seq<Entry>): (Store, bool) {
    if entries == [] then (store, true)
    else
      var (before, ok) := RecoverAll(store, entries[..|entries| - 1]);
      var e := entries[|entries| - 1];
      if !ok || e.id !in before then (before, false)
      else
        match RecoverEntry(e.id, before[e.id], e.stage)
        case None => (before, false)
        case Some(s) => (before[e.id := s], true)
  }

  /** A listing names each existing directory once, in any order. */
  ghost predicate Listing(store: Store, entries: seq<Entry>) {
    && (forall i :: 0 <= i < |entries| ==> entries[i].id in store && At(store[entries[i].id], entries[i].stage).Some?)
    && (forall i, j :: 0 <= i < j < |entries| ==> entries[i] != entries[j])
    && (forall id, stage :: id in store && At(store[id], stage).Some? ==> Entry(id, stage) in entries)
  }

  // -------------------------------------------- the service, with nothing failing halfway

  class AssetService {
    var store: Store

    constructor ()
      ensures store == map[]
    {
      store := map[];
    }

    /** The constructor's pass over what an earlier process left behind. */
    method RecoverInterruptedImports(entries: seq<Entry>) returns (ok: bool)
      requires forall i :: 0 <= i < |entries| ==> entries[i].id in store
      modifies this
      ensures (store, ok) == RecoverAll(old(store), entries)
    {
      for k := 0 to |entries|
        invariant (store, true) == RecoverAll(old(store), entries[..k])
        invariant store.Keys == old(store).Keys
      {
        var e := entries[k];
        var s := store[e.id];
        assert entries[..k + 1][..k] == entries[..k];
        RecoverStops(old(store), entries, k + 1);
        match e.stage {
          case Deleting =>
            if s.row.None? {
              s := s.(deleting := None);
            } else {
              if s.final.Some? || s.row.value.project != s.home {
                return false;
              }
              s := s.(final := s.deleting, deleting := None);
            }
          case Pending =>
            s := s.(pending := None);
          case Final =>
            if s.final.Some? && s.final.value.marker.Some? {
              var dir := s.final.value;
              if !MarkerBinds(dir.marker.value, e.id, s.home) {
                return false;
              }
              if s.row.None? {
                s := s.(final := None);
              } else {
                if !Verified(dir, s.row.value, s.home) {
                  return false;
                }
                s := s.(final := Some(dir.(marker := None)));
              }
            }
        }
        store := store[e.id := s];
      }
      assert entries[..|entries|] == entries;
      return true;
    }

    /** One caller's import with no interruption. A file named like the marker
        stops at the marker's exclusive create and leaves its staging directory. */
    method ImportBytes(id: Id, home: string, file: File, commits: bool) returns (ok: bool)
      requires id !in store
      modifies this
      ensures ok <==> commits && file.name != MARKER_NAME && 0 < |file.bytes| <= 104_857_600
      ensures store == if |file.bytes| == 0 || |file.bytes| > 104_857_600 then old(store) else old(store)[id :=
                if file.name == MARKER_NAME then Slot(home, Some(Dir(Some(file), None)), None, None, None)
                else if commits then Slot(home, None, Some(Dir(Some(file), None)), None, Some(RowFor(home, file)))
                else Empty(home)]
    {
      if !Acceptable(file) {
        return false;
      }
      var s := Slot(home, Some(Dir(None, None)), None, None, None);
      store := store[id := s];
      s := s.(pending := Some(Dir(Some(file), None)));
      store := store[id := s];
      assert store == old(store)[id := s];
      if file.name == MARKER_NAME {
        return false;
      }
      s := s.(pending := Some(Dir(Some(file), Some(MarkerFor(id, home, file)))));
      store := store[id := s];
      s := s.(final := s.pending, pending := None);
      store := store[id := s];
      assert store == old(store)[id := s];
      if !commits {
        store := store[id := s.(final := None)];
        return false;
      }
      s := s.(row := Some(RowFor(home, file)));
      store := store[id := s];
      store := store[id := s.(final := Some(Dir(Some(file), None)))];
      return true;
    }

    /** One caller's deletion with no interruption. */
    method DeleteAsset(id: Id, deletes: bool) returns (ok: bool)
      modifies this
      ensures ok <==> deletes && id in old(store) && Deletable(old(store)[id])
      ensures store == if ok
          then old(store)[id := Slot(old(store)[id].home, old(store)[id].pending, None, None, None)] else old(store)
    {
      if id !in store || !Deletable(store[id]) {
        return false;
      }
      var s := store[id];
      var retired := s.(deleting := s.final, final := None);
      store := store[id := retired];
      if !deletes {
        store := store[id := retired.(final := retired.deleting, deleting := None)];
        return false;
      }
      retired := retired.(row := None);
      store := store[id := retired];
      store := store[id := retired.(deleting := None)];
      return true;
    }
  }

  /** Once the pass has raised, later entries change nothing. */
  lemma {:induction false} RecoverStops(store: Store, entries: seq<Entry>, k: nat)
    requires k <= |entries|
    ensures !RecoverAll(store, entries[..k]).1 ==> RecoverAll(store, entries) == RecoverAll(store, entries[..k])
    decreases |entries| - k
  {
    if k < |entries| {
      assert entries[..k + 1][..k] == entries[..k];
      RecoverStops(store, entries, k + 1);
    } else {
      assert entries[..k] == entries;
    }
  }

  /** What delete_asset looks for before it renames anything. */
  predicate Deletable(s: Slot) {
    && s.row.Some? && s.final.Some? && s.deleting.None?
    && s.final.value.file.Some? && s.final.value.file.value.name == s.row.value.filename
  }

  // ---------------------------------------------------- interleavings and crashes

  datatype ImportStep =
    Reserved | Made | Writing(n: nat) | MarkerStarted | Ready | Promoted | Failed | Discarding | Committed

  datatype DeleteStep = Checked | Retired | Refused | RowGone

  datatype Caller =
    | Importer(id: Id, file: File, at: ImportStep)
    | Deleter(id: Id, step: DeleteStep)

  datatype Mode = Serving | Down | Recovering(todo: seq<Entry>)

  datatype World = World(store: Store, callers: map<nat, Caller>, mode: Mode)

  /** How a create_asset transaction ends: the third is a commit whose call still raised. */
  datatype CommitResult = Commits | RollsBack | CommitsAndRaises

  datatype Action =
    | BeginImport(pid: nat, id: Id, home: string, file: File)
    | BeginDelete(pid: nat, id: Id)
    | Advance(pid: nat, written: nat, commit: CommitResult, deletes: bool)
    | CallerDies(pid: nat)
    | Crash
    | StartRecovery(entries: seq<Entry>)
    | RecoverNext

  const START := World(map[], map[], Serving)

  /** One step of an import: its next slot, and its next step or None once it ends. */
  function ImportAdvance(s: Slot, id: Id, file: File, at: ImportStep, written: nat, commit: CommitResult)
    : (Slot, Option<ImportStep>)
  {
    match at
    case Reserved => (s.(pending := Some(Dir(None, None))), Some(Made))
    case Made => (s.(pending := Some(Dir(Some(File(file.name, [])), None))), Some(Writing(0)))
    case Writing(n) =>
      if n >= |file.bytes| then
        if file.name == MARKER_NAME then (s, None)
        else (s.(pending := Some(Dir(Some(file), Some(Torn)))), Some(MarkerStarted))
      else
        var m := if written <= n || written > |file.bytes| then |file.bytes| else written;
        (s.(pending := Some(Dir(Some(File(file.name, file.bytes[..m])), None))), Some(Writing(m)))
    case MarkerStarted => (s.(pending := Some(Dir(Some(file), Some(MarkerFor(id, s.home, file))))), Some(Ready))
    case Ready => (s.(final := s.pending, pending := None), Some(Promoted))
    case Promoted =>
      (match commit
       case Commits => (s.(row := Some(RowFor(s.home, file))), Some(Committed))
       case RollsBack => (s, Some(Failed))
       case CommitsAndRaises => (s.(row := Some(RowFor(s.home, file))), Some(Failed)))
    case Failed => if s.row.Some? then (s, None) else (s, Some(Discarding))
    case Discarding => (s.(final := None), None)
    case Committed =>
      if s.final.Some? then (s.(final := Some(s.final.value.(marker := None))), None) else (s, None)
  }

  /** One step of a deletion. */
  function DeleteAdvance(s: Slot, at: DeleteStep, deletes: bool): (Slot, Option<DeleteStep>) {
    match at
    case Checked =>
      if s.final.None? || s.deleting.Some? then (s, None)
      else (s.(deleting := s.final, final := None), Some(Retired))
    case Retired =>
      if !deletes || s.row.None? then (s, Some(Refused)) else (s.(row := None), Some(RowGone))
    case Refused =>
      if s.final.None? && s.deleting.Some? then (s.(final := s.deleting, deleting := None), None) else (s, None)
    case RowGone => (s.(deleting := None), None)
  }

  ghost function Next(w: World, a: Action): World {
    match a
    case BeginImport(pid, id, home, file) =>
      if !w.mode.Serving? || pid in w.callers || id in w.store || !Acceptable(file) then w
      else w.(store := w.store[id := Empty(home)], callers := w.callers[pid := Importer(id, file, Reserved)])
    case BeginDelete(pid, id) =>
      if !w.mode.Serving? || pid in w.callers || id !in w.store || !Deletable(w.store[id]) then w
      else w.(callers := w.callers[pid := Deleter(id, Checked)])
    case Advance(pid, written, commit, deletes) =>
      if pid !in w.callers || w.callers[pid].id !in w.store then w
      else AdvanceCaller(w, pid, written, commit, deletes)
    case CallerDies(pid) => w.(callers := w.callers - {pid})
    case Crash => w.(callers := map[], mode := Down)
    case StartRecovery(entries) =>
      if w.mode.Down? && Listing(w.store, entries) then w.(mode := Recovering(entries)) else w
    case RecoverNext =>
      if !w.mode.Recovering? then w
      else if w.mode.todo == [] then w.(mode := Serving)
      else
        var e := w.mode.todo[0];
        (match if e.id in w.store then RecoverEntry(e.id, w.store[e.id], e.stage) else None
         case None => w.(mode := Down)
         case Some(s) => w.(store := w.store[e.id := s], mode := Recovering(w.mode.todo[1..])))
  }

  function AdvanceCaller(w: World, pid: nat, written: nat, commit: CommitResult, deletes: bool): World
    requires pid in w.callers && w.callers[pid].id in w.store
  {
    var c := w.callers[pid];
    match c
    case Importer(id, file, at) =>
      var (s, next) := ImportAdvance(w.store[id], id, file, at, written, commit);
      w.(store := w.store[id := s],
         callers := if next.None? then w.callers - {pid} else w.callers[pid := Importer(id, file, next.value)])
    case Deleter(id, at) =>
      var (s, next) := DeleteAdvance(w.store[id], at, deletes);
      w.(store := w.store[id := s],
         callers := if next.None? then w.callers - {pid} else w.callers[pid := Deleter(id, next.value)])
  }

  ghost function Run(actions: seq<Action>): World {
    if actions == [] then START else Next(Run(actions[..|actions| - 1]), actions[|actions| - 1])
  }

  // ----------------------------------------------------------------- invariant

  predicate OneDirectory(s: Slot) {
    (s.pending.None? && s.final.None?) || (s.pending.None? && s.deleting.None?) || (s.final.None? && s.deleting.None?)
  }

  /** This directory's bytes are the row's, under any marker an import may still own. */
  predicate Backs(id: Id, dir: Option<Dir>, s: Slot) {
    && s.row.Some? && dir.Some? && dir.value.file.Some?
    && s.row.value == RowFor(s.home, dir.value.file.value)
    && (dir.value.marker == None || dir.value.marker == Some(MarkerFor(id, s.home, dir.value.file.value)))
  }

  predicate Promotable(id: Id, dir: Dir, home: string) {
    dir.file.Some? && dir.marker == Some(MarkerFor(id, home, dir.file.value))
  }

  predicate SlotOk(id: Id, s: Slot) {
    && OneDirectory(s)
    && (s.row.Some? ==> Backs(id, s.final, s) || Backs(id, s.deleting, s))
    && (s.row.None? && s.final.Some? ==> Promotable(id, s.final.value, s.home))
  }

  predicate ImportOk(id: Id, file: File, at: ImportStep, s: Slot) {
    match at
    case Reserved => s == Empty(s.home)
    case Made => s == Empty(s.home).(pending := Some(Dir(None, None)))
    case Writing(n) =>
      n <= |file.bytes| && s == Empty(s.home).(pending := Some(Dir(Some(File(file.name, file.bytes[..n])), None)))
    case MarkerStarted => s == Empty(s.home).(pending := Some(Dir(Some(file), Some(Torn))))
    case Ready => s == Empty(s.home).(pending := Some(Dir(Some(file), Some(MarkerFor(id, s.home, file)))))
    case Promoted => s == Empty(s.home).(final := Some(Dir(Some(file), Some(MarkerFor(id, s.home, file)))))
    case Discarding => s.row.None?
    case Failed => true
    case Committed => s.row.None? ==> s.final.None?
  }

  predicate DeleteOk(at: DeleteStep, s: Slot) {
    match at
    case Checked => s.row.None? ==> s.final.None?
    case RowGone => s.deleting.Some? && s.row.None?
    case _ => s.deleting.Some? && s.row.Some?
  }

  predicate CallerOk(c: Caller, s: Slot) {
    match c
    case Importer(id, file, at) => ImportOk(id, file, at, s)
    case Deleter(_, at) => DeleteOk(at, s)
  }

  predicate PastCommit(at: ImportStep) {
    at.Failed? || at.Discarding? || at.Committed?
  }

  /** Two callers of one asset: never two imports, nor two deletions past their
      rename, and a deletion only once the import has been through its commit. */
  predicate Compatible(c: Caller, d: Caller) {
    c.id == d.id ==>
      && !(c.Importer? && d.Importer?)
      && (c.Deleter? && d.Deleter? ==> c.step.Checked? || d.step.Checked?)
      && (c.Importer? ==> PastCommit(c.at))
      && (d.Importer? ==> PastCommit(d.at))
  }

  ghost predicate StoreOk(store: Store) {
    forall id :: id in store ==> SlotOk(id, store[id])
  }

  predicate TodoOk(store: Store, todo: seq<Entry>) {
    && (forall i :: 0 <= i < |todo| ==> todo[i].id in store && At(store[todo[i].id], todo[i].stage).Some?)
    && (forall i, j :: 0 <= i < j < |todo| ==> todo[i].id != todo[j].id)
  }

  ghost predicate Sound(w: World) {
    && StoreOk(w.store)
    && (forall p :: p in w.callers ==> w.callers[p].id in w.store && CallerOk(w.callers[p], w.store[w.callers[p].id]))
    && (forall p, q :: p in w.callers && q in w.callers && p != q ==> Compatible(w.callers[p], w.callers[q]))
    && (!w.mode.Serving? ==> w.callers == map[])
    && (w.mode.Recovering? ==> TodoOk(w.store, w.mode.todo))
  }

  // -------------------------------------------------------------- preservation

  /** One caller's step, with its choices, on its slot. */
  function StepOf(c: Caller, s: Slot, written: nat, commit: CommitResult, deletes: bool): (Slot, Option<Caller>) {
    match c
    case Importer(id, file, at) =>
      var (s', next) := ImportAdvance(s, id, file, at, written, commit);
      (s', if next.None? then None else Some(Importer(id, file, next.value)))
    case Deleter(id, at) =>
      var (s', next) := DeleteAdvance(s, at, deletes);
      (s', if next.None? then None else Some(Deleter(id, next.value)))
  }

  predicate Carries(id: Id, home: string, s: Slot, next: Option<Caller>) {
    SlotOk(id, s) && s.home == home && (next.Some? ==> next.value.id == id && CallerOk(next.value, s))
  }

  lemma WritingKeepsSlot(c: Caller, s: Slot, written: nat, commit: CommitResult)
    requires SlotOk(c.id, s) && CallerOk(c, s) && c.Importer? && c.at.Writing?
    ensures var (s', next) := StepOf(c, s, written, commit, false); Carries(c.id, s.home, s', next)
  {
  }

  lemma StagingKeepsSlot(c: Caller, s: Slot, written: nat, commit: CommitResult)
    requires SlotOk(c.id, s) && CallerOk(c, s) && c.Importer? && !c.at.Writing? && !c.at.Promoted? && !PastCommit(c.at)
    ensures var (s', next) := StepOf(c, s, written, commit, false); Carries(c.id, s.home, s', next)
  {
  }

  lemma CommitKeepsSlot(c: Caller, s: Slot, written: nat, commit: CommitResult)
    requires SlotOk(c.id, s) && CallerOk(c, s) && c.Importer? && (c.at.Promoted? || PastCommit(c.at))
    ensures var (s', next) := StepOf(c, s, written, commit, false); Carries(c.id, s.home, s', next)
  {
  }

  lemma DeleteKeepsSlot(c: Caller, s: Slot, deletes: bool)
    requires SlotOk(c.id, s) && CallerOk(c, s) && c.Deleter?
    ensures var (s', next) := StepOf(c, s, 0, Commits, deletes); Carries(c.id, s.home, s', next)
  {
  }

  lemma {:induction false} StepKeepsSlot(c: Caller, s: Slot, written: nat, commit: CommitResult, deletes: bool)
    requires SlotOk(c.id, s) && CallerOk(c, s)
    ensures var (s', next) := StepOf(c, s, written, commit, deletes); Carries(c.id, s.home, s', next)
  {
    match c
    case Deleter(_, _) => DeleteKeepsSlot(c, s, deletes);
    case Importer(_, _, at) =>
      if at.Writing? {
        WritingKeepsSlot(c, s, written, commit);
      } else if at.Promoted? || PastCommit(at) {
        CommitKeepsSlot(c, s, written, commit);
      } else {
        StagingKeepsSlot(c, s, written, commit);
      }
  }

  /** A step never invalidates what another caller of the same asset relies on. */
  lemma StepKeepsOthers(c: Caller, d: Caller, s: Slot, written: nat, commit: CommitResult, deletes: bool)
    requires SlotOk(c.id, s) && CallerOk(c, s) && CallerOk(d, s) && c.id == d.id && Compatible(c, d)
    ensures var (s', next) := StepOf(c, s, written, commit, deletes);
            CallerOk(d, s') && (next.Some? ==> Compatible(next.value, d))
  {
  }

  lemma {:induction false} OthersStayOk(w: World, pid: nat, p: nat, written: nat, commit: CommitResult, deletes: bool)
    requires Sound(w) && pid in w.callers && p in w.callers && p != pid
    ensures var w' := AdvanceCaller(w, pid, written, commit, deletes);
            && p in w'.callers && w'.callers[p] == w.callers[p]
            && w'.callers[p].id in w'.store && CallerOk(w'.callers[p], w'.store[w'.callers[p].id])
            && (pid in w'.callers ==>
                Compatible(w'.callers[pid], w'.callers[p]) && Compatible(w'.callers[p], w'.callers[pid]))
  {
    if w.callers[p].id == w.callers[pid].id {
      StepKeepsOthers(w.callers[pid], w.callers[p], w.store[w.callers[pid].id], written, commit, deletes);
    } else {
      StepKeepsSlot(w.callers[pid], w.store[w.callers[pid].id], written, commit, deletes);
    }
  }

  lemma {:induction false} AdvanceKeepsSound(w: World, pid: nat, written: nat, commit: CommitResult, deletes: bool)
    requires Sound(w) && pid in w.callers
    ensures Sound(AdvanceCaller(w, pid, written, commit, deletes))
  {
    var c := w.callers[pid];
    StepKeepsSlot(c, w.store[c.id], written, commit, deletes);
    var w' := AdvanceCaller(w, pid, written, commit, deletes);
    forall p | p in w'.callers && p != pid
      ensures p in w.callers && w'.callers[p] == w.callers[p]
      ensures w'.callers[p].id in w'.store && CallerOk(w'.callers[p], w'.store[w'.callers[p].id])
      ensures pid in w'.callers ==>
          Compatible(w'.callers[pid], w'.callers[p]) && Compatible(w'.callers[p], w'.callers[pid])
    {
      OthersStayOk(w, pid, p, written, commit, deletes);
    }
  }

  lemma RecoverEntryOk(id: Id, s: Slot, stage: Stage)
    requires SlotOk(id, s) && At(s, stage).Some?
    ensures RecoverEntry(id, s, stage) == Some(AfterRecovery(s)) && SlotOk(id, AfterRecovery(s))
  {
  }

  /** The row decides: its bytes come back to the final directory, or nothing stays. */
  function AfterRecovery(s: Slot): Slot {
    if s.row.None? then Empty(s.home)
    else if s.deleting.Some? then Slot(s.home, None, s.deleting, None, s.row)
    else if s.final.Some? then Slot(s.home, None, Some(Dir(s.final.value.file, None)), None, s.row)
    else s
  }

  lemma ListingIsTodo(store: Store, entries: seq<Entry>)
    requires StoreOk(store) && Listing(store, entries)
    ensures TodoOk(store, entries)
  {
  }

  lemma RecoverNextKeepsSound(w: World)
    requires Sound(w)
    ensures Sound(Next(w, RecoverNext))
  {
    if w.mode.Recovering? && w.mode.todo != [] {
      var e := w.mode.todo[0];
      RecoverEntryOk(e.id, w.store[e.id], e.stage);
    }
  }

  lemma BeginImportKeepsSound(w: World, pid: nat, id: Id, home: string, file: File)
    requires Sound(w)
    ensures Sound(Next(w, BeginImport(pid, id, home, file)))
  {
  }

  /** A deletable asset's importer, if it is still there, is past its commit. */
  lemma DeletableIsCommitted(w: World, id: Id, p: nat)
    requires Sound(w) && id in w.store && Deletable(w.store[id]) && p in w.callers
    ensures Compatible(Deleter(id, Checked), w.callers[p]) && Compatible(w.callers[p], Deleter(id, Checked))
  {
  }

  lemma {:induction false} BeginDeleteKeepsSound(w: World, pid: nat, id: Id)
    requires Sound(w)
    ensures Sound(Next(w, BeginDelete(pid, id)))
  {
    if w.mode.Serving? && pid !in w.callers && id in w.store && Deletable(w.store[id]) {
      forall p | p in w.callers
        ensures Compatible(Deleter(id, Checked), w.callers[p]) && Compatible(w.callers[p], Deleter(id, Checked))
      {
        DeletableIsCommitted(w, id, p);
      }
    }
  }

  lemma StartRecoveryKeepsSound(w: World, entries: seq<Entry>)
    requires Sound(w)
    ensures Sound(Next(w, StartRecovery(entries)))
  {
  }

  lemma CallersLeaveSound(w: World, pid: nat)
    requires Sound(w)
    ensures Sound(Next(w, CallerDies(pid))) && Sound(Next(w, Crash))
  {
  }

  lemma {:induction false} StepKeepsSound(w: World, a: Action)
    requires Sound(w)
    ensures Sound(Next(w, a))
  {
    match a
    case BeginImport(pid, id, home, file) => BeginImportKeepsSound(w, pid, id, home, file);
    case BeginDelete(pid, id) => BeginDeleteKeepsSound(w, pid, id);
    case Advance(pid, written, commit, deletes) =>
      if pid in w.callers {
        AdvanceKeepsSound(w, pid, written, commit, deletes);
      }
    case CallerDies(pid) => CallersLeaveSound(w, pid);
    case Crash => CallersLeaveSound(w, 0);
    case StartRecovery(entries) => StartRecoveryKeepsSound(w, entries);
    case RecoverNext => RecoverNextKeepsSound(w);
  }

  lemma {:induction false} EveryRunIsSound(actions: seq<Action>)
    ensures Sound(Run(actions))
  {
    if actions != [] {
      EveryRunIsSound(actions[..|actions| - 1]);
      StepKeepsSound(Run(actions[..|actions| - 1]), actions[|actions| - 1]);
    }
  }

  // --------------------------------------------------------------- main results

  /** What every stop leaves behind: at most one directory, and for each row its
      exact bytes in the final or the `.deleting` directory. */
  lemma {:induction false} RowImpliesBytes(actions: seq<Action>, id: Id)
    requires id in Run(actions).store
    ensures var s := Run(actions).store[id];
            OneDirectory(s) && (s.row.Some? ==> Backs(id, s.final, s) || Backs(id, s.deleting, s))
  {
    EveryRunIsSound(actions);
  }

  /** A row with exactly its bytes in its final directory and no marker, or nothing. */
  predicate Settled(s: Slot) {
    || s == Empty(s.home)
    || (s.row.Some?
        && s == Slot(s.home, None, Some(Dir(Some(File(s.row.value.filename, s.row.value.sha.content)), None)), None,
                     s.row)
        && s.row.value.project == s.home && s.row.value.size == |s.row.value.sha.content|)
  }

  predicate Listed(entries: seq<Entry>, id: Id) {
    exists i :: 0 <= i < |entries| && entries[i].id == id
  }

  /** After a pass over these entries: their assets recovered, the others untouched. */
  ghost predicate Passed(store: Store, store': Store, entries: seq<Entry>) {
    && store'.Keys == store.Keys
    && forall id :: id in store ==> store'[id] == if Listed(entries, id) then AfterRecovery(store[id]) else store[id]
  }

  lemma PassedStep(store: Store, before: Store, entries: seq<Entry>, e: Entry)
    requires Passed(store, before, entries) && e.id in store && !Listed(entries, e.id)
    ensures before[e.id] == store[e.id]
    ensures Passed(store, before[e.id := AfterRecovery(store[e.id])], entries + [e])
  {
    forall id | id in store ensures Listed(entries + [e], id) <==> Listed(entries, id) || id == e.id {
      if i :| 0 <= i < |entries| && entries[i].id == id {
        assert (entries + [e])[i].id == id;
      }
      if id == e.id {
        assert (entries + [e])[|entries|].id == id;
      }
    }
  }

  lemma {:induction false} RecoverAllSlots(store: Store, entries: seq<Entry>)
    requires StoreOk(store) && TodoOk(store, entries)
    ensures RecoverAll(store, entries).1 && Passed(store, RecoverAll(store, entries).0, entries)
  {
    if entries != [] {
      var n := |entries| - 1;
      var e := entries[n];
      RecoverAllSlots(store, entries[..n]);
      PassedStep(store, RecoverAll(store, entries[..n]).0, entries[..n], e);
      assert entries[..n] + [e] == entries;
      RecoverEntryOk(e.id, store[e.id], e.stage);
    }
  }

  lemma NotListedIsEmpty(store: Store, entries: seq<Entry>, id: Id)
    requires StoreOk(store) && Listing(store, entries) && id in store
    requires !Listed(entries, id)
    ensures store[id] == AfterRecovery(store[id])
  {
    assert Entry(id, Pending) !in entries && Entry(id, Final) !in entries && Entry(id, Deleting) !in entries;
  }

  lemma {:induction false} PassFollowsTheRow(store: Store, entries: seq<Entry>)
    requires StoreOk(store) && Listing(store, entries)
    ensures var (store', ok) := RecoverAll(store, entries);
            && ok && store'.Keys == store.Keys && StoreOk(store')
            && (forall id :: id in store ==> store'[id] == AfterRecovery(store[id]))
  {
    ListingIsTodo(store, entries);
    RecoverAllSlots(store, entries);
    var store' := RecoverAll(store, entries).0;
    forall id | id in store ensures store'[id] == AfterRecovery(store[id]) && SlotOk(id, store'[id]) {
      if Listed(entries, id) {
      } else {
        NotListedIsEmpty(store, entries, id);
      }
    }
  }

  /** The recovery pass never raises on a state the service can leave behind, and
      whatever the listing's order it gives each asset the outcome its row decides. */
  lemma {:induction false} RecoveryFollowsTheRow(actions: seq<Action>, entries: seq<Entry>)
    requires Listing(Run(actions).store, entries)
    ensures var store := Run(actions).store;
            var (store', ok) := RecoverAll(store, entries);
            && ok && store'.Keys == store.Keys
            && (forall id :: id in store ==> store'[id] == AfterRecovery(store[id]))
  {
    EveryRunIsSound(actions);
    PassFollowsTheRow(Run(actions).store, entries);
  }

  /** One pass settles an asset exactly when no deletion was stopped while its
      directory still held the import marker; the rename back is not rescanned. */
  lemma {:induction false} OnePassSettles(actions: seq<Action>, id: Id)
    requires id in Run(actions).store
    ensures var s := Run(actions).store[id];
            Settled(AfterRecovery(s)) <==> !(s.row.Some? && s.deleting.Some? && s.deleting.value.marker.Some?)
  {
    EveryRunIsSound(actions);
  }

  lemma {:induction false} RunSnoc(actions: seq<Action>, a: Action)
    ensures Run(actions + [a]) == Next(Run(actions), a)
  {
  }

  /** The unlucky order does happen: a deletion renames the directory between the
      import's commit and its marker removal, and everything stops there. */
  lemma MarkerCanOutliveOnePass(id: Id, home: string, file: File)
    requires file.name != MARKER_NAME && |file.bytes| == 1
    ensures exists actions ::
              && id in Run(actions).store
              && Run(actions).mode.Down?
              && !Settled(AfterRecovery(Run(actions).store[id]))
  {
    var go := Advance(0, 1, Commits, true);
    assert file.bytes[..1] == file.bytes;
    var a1 := [BeginImport(0, id, home, file)];
    RunSnoc([], a1[0]);
    var a2 := ImportUpToCommit(a1, id, home, file);
    assert Run(a2).callers == map[0 := Importer(id, file, Committed)];
    var a3 := a2 + [BeginDelete(1, id)];
    RunSnoc(a3, Advance(1, 0, Commits, true));
    var a4 := a3 + [Advance(1, 0, Commits, true)];
    RunSnoc(a4, Crash);
    assert Run(a4 + [Crash]).mode.Down?;
  }

  function Solo(id: Id, s: Slot, file: File, at: ImportStep): World {
    World(map[id := s], map[0 := Importer(id, file, at)], Serving)
  }

  lemma {:induction false} SoloSteps(start: seq<Action>, n: nat, id: Id, s: Slot, file: File, at: ImportStep)
    requires Run(start) == Solo(id, s, file, at)
    requires SoloReaches(n, id, s, file, at).Some?
    ensures exists actions :: Run(actions) == SoloReaches(n, id, s, file, at).value
    decreases n
  {
    if n > 0 {
      var (s', at') := ImportAdvance(s, id, file, at, 1, Commits);
      SoloSteps(start + [Advance(0, 1, Commits, true)], n - 1, id, s', file, at'.value);
    }
  }

  function SoloReaches(n: nat, id: Id, s: Slot, file: File, at: ImportStep): Option<World>
    decreases n
  {
    if n == 0 then Some(Solo(id, s, file, at))
    else
      var (s', at') := ImportAdvance(s, id, file, at, 1, Commits);
      if at'.None? then None else SoloReaches(n - 1, id, s', file, at'.value)
  }

  lemma ImportUpToCommit(start: seq<Action>, id: Id, home: string, file: File) returns (actions: seq<Action>)
    requires file.name != MARKER_NAME && |file.bytes| == 1
    requires Run(start) == Solo(id, Empty(home), file, Reserved)
    ensures Run(actions) == Solo(id,
              Slot(home, None, Some(Dir(Some(file), Some(MarkerFor(id, home, file)))), None,
                   Some(RowFor(home, file))), file, Committed)
  {
    SoloSteps(start, 7, id, Empty(home), file, Reserved);
    assert SoloReaches(7, id, Empty(home), file, Reserved)
           == Some(Solo(id, Slot(home, None, Some(Dir(Some(file), Some(MarkerFor(id, home, file)))), None,
                                 Some(RowFor(home, file))), file, Committed));
    actions :| Run(actions) == SoloReaches(7, id, Empty(home), file, Reserved).value;
  }

  /** A second pass settles every asset, and a third changes nothing. */
  lemma TwoPassesAlwaysSettle(actions: seq<Action>, first: seq<Entry>, second: seq<Entry>, third: seq<Entry>)
    requires Listing(Run(actions).store, first)
    requires Listing(RecoverAll(Run(actions).store, first).0, second)
    requires Listing(RecoverAll(RecoverAll(Run(actions).store, first).0, second).0, third)
    ensures var store := RecoverAll(RecoverAll(Run(actions).store, first).0, second).0;
            && (forall id :: id in store ==> Settled(store[id]))
            && RecoverAll(store, third) == (store, true)
  {
    EveryRunIsSound(actions);
    var s0 := Run(actions).store;
    PassFollowsTheRow(s0, first);
    var s1 := RecoverAll(s0, first).0;
    PassFollowsTheRow(s1, second);
    var s2 := RecoverAll(s1, second).0;
    PassFollowsTheRow(s2, third);
    forall id | id in s2 ensures Settled(s2[id]) && AfterRecovery(s2[id]) == s2[id] {
      TwicePerAsset(id, s0[id]);
    }
    assert RecoverAll(s2, third).0 == s2;
  }

  lemma TwicePerAsset(id: Id, s: Slot)
    requires SlotOk(id, s)
    ensures var twice := AfterRecovery(AfterRecovery(s)); Settled(twice) && AfterRecovery(twice) == twice
  {
  }

  lemma {:induction false} RecoverAllStep(store: Store, entries: seq<Entry>, k: nat)
    requires k < |entries| && RecoverAll(store, entries[..k + 1]).1
    ensures var before, e := RecoverAll(store, entries[..k]).0, entries[k];
            && e.id in before && RecoverEntry(e.id, before[e.id], e.stage).Some?
            && RecoverAll(store, entries[..k + 1]).0 == before[e.id := RecoverEntry(e.id, before[e.id], e.stage).value]
  {
    assert entries[..k + 1][..k] == entries[..k];
  }

  lemma RecoverNextFollows(store: Store, entries: seq<Entry>, k: nat)
    requires StoreOk(store) && TodoOk(store, entries) && k < |entries|
    ensures Next(Midway(store, entries, k), RecoverNext) == Midway(store, entries, k + 1)
  {
    assert RecoverAll(store, entries[..k + 1]).1 by { RecoverAllSlots(store, entries[..k + 1]); }
    RecoverAllStep(store, entries, k);
  }

  /** The world halfway through a pass that has handled the first k entries. */
  ghost function Midway(store: Store, entries: seq<Entry>, k: nat): World
    requires k <= |entries|
  {
    World(RecoverAll(store, entries[..k]).0, map[], Recovering(entries[k..]))
  }

  lemma {:induction false} LastRecoverNext(store: Store, entries: seq<Entry>)
    ensures Undisturbed(Midway(store, entries, |entries|), 1) == World(RecoverAll(store, entries).0, map[], Serving)
  {
    assert entries[..|entries|] == entries && entries[|entries|..] == [];
    var done := Next(Midway(store, entries, |entries|), RecoverNext);
  }

  lemma UndisturbedOne(w: World, next: World, n: nat)
    requires Next(w, RecoverNext) == next
    ensures Undisturbed(w, n + 1) == Undisturbed(next, n)
  {
  }

  /** The steps a restarted process takes are that pass: undisturbed, it ends serving
      with the store RecoverAll describes. */
  lemma {:induction false} RestartRunsThePass(store: Store, entries: seq<Entry>, k: nat)
    requires StoreOk(store) && TodoOk(store, entries) && k <= |entries|
    ensures Undisturbed(Midway(store, entries, k), |entries| - k + 1)
        == World(RecoverAll(store, entries).0, map[], Serving)
    decreases |entries| - k
  {
    if k == |entries| {
      LastRecoverNext(store, entries);
    } else {
      RecoverNextFollows(store, entries, k);
      UndisturbedOne(Midway(store, entries, k), Midway(store, entries, k + 1), |entries| - k);
      RestartRunsThePass(store, entries, k + 1);
    }
  }

  ghost function Undisturbed(w: World, n: nat): World
    decreases n
  {
    if n == 0 then w else Undisturbed(Next(w, RecoverNext), n - 1)
  }

  /** Rows are written only by a committing import of that very file, never change,
      and disappear only by a deletion that has already renamed the directory. */
  lemma {:induction false} RowsChangeOnlyOnce(actions: seq<Action>, a: Action, id: Id)
    requires id in Next(Run(actions), a).store
    ensures var w, w' := Run(actions), Next(Run(actions), a);
            var before := if id in w.store then w.store[id].row else None;
            w'.store[id].row != before ==>
              && a.Advance? && a.pid in w.callers && w.callers[a.pid].id == id
              && match w.callers[a.pid]
                 case Importer(_, file, at) =>
                   at.Promoted? && before == None && w'.store[id].row == Some(RowFor(w.store[id].home, file))
                 case Deleter(_, at) =>
                   at.Retired? && w'.store[id] == w.store[id].(row := None) && w.store[id].deleting.Some?
  {
    EveryRunIsSound(actions);
    if a.Advance? {
      if a.pid in Run(actions).callers {
        AdvanceWritesRows(Run(actions), a.pid, a.written, a.commit, a.deletes, id);
      }
    } else {
      OthersKeepRows(Run(actions), a, id);
    }
  }

  lemma OthersKeepRows(w: World, a: Action, id: Id)
    requires Sound(w) && !a.Advance? && id in Next(w, a).store
    ensures Next(w, a).store[id].row == if id in w.store then w.store[id].row else None
  {
    if a.RecoverNext? && w.mode.Recovering? && w.mode.todo != [] {
      var e := w.mode.todo[0];
      RecoverEntryOk(e.id, w.store[e.id], e.stage);
    }
  }

  lemma AdvanceWritesRows(w: World, pid: nat, written: nat, commit: CommitResult, deletes: bool, id: Id)
    requires Sound(w) && pid in w.callers && id in w.store
    ensures var c, slot := w.callers[pid], Next(w, Advance(pid, written, commit, deletes)).store[id];
            slot.row != w.store[id].row ==>
              && c.id == id
              && match c
                 case Importer(_, file, at) =>
                   at.Promoted? && w.store[id].row == None && slot.row == Some(RowFor(w.store[id].home, file))
                 case Deleter(_, at) =>
                   at.Retired? && slot == w.store[id].(row := None) && w.store[id].deleting.Some?
  {
    assert CallerOk(w.callers[pid], w.store[w.callers[pid].id]);
  }

  // ------------------------------------------------- one operation to its end

  function StepsLeft(at: ImportStep, file: File): nat {
    match at
    case Reserved => |file.bytes| + 9
    case Made => |file.bytes| + 8
    case Writing(n) => if n <= |file.bytes| then |file.bytes| - n + 7 else 7
    case MarkerStarted => 6
    case Ready => 5
    case Promoted => 4
    case Failed => 3
    case Discarding => 2
    case Committed => 1
  }

  /** The steps of an import nobody else and no stop disturbs, from the given one to the end;
      the write reports progress in whatever portions. */
  function Imported(s: Slot, id: Id, file: File, at: ImportStep, written: nat, commit: CommitResult): Slot
    decreases StepsLeft(at, file)
  {
    var (s', next) := ImportAdvance(s, id, file, at, written, commit);
    if next.None? then s' else Imported(s', id, file, next.value, written, commit)
  }

  /** The directory the rename puts in place. */
  function Promotion(id: Id, home: string, file: File): Dir {
    Dir(Some(file), Some(Marker(id, home, file.name, Sha(file.bytes), |file.bytes|)))
  }

  lemma ImportedFromReady(id: Id, home: string, file: File, written: nat, commit: CommitResult)
    ensures Imported(Slot(home, Some(Promotion(id, home, file)), None, None, None), id, file, Ready, written, commit)
            == AfterImport(id, home, file, commit)
  {
    var promoted := Slot(home, None, Some(Promotion(id, home, file)), None, None);
    assert Imported(promoted, id, file, Promoted, written, commit) == AfterImport(id, home, file, commit) by {
      match commit
      case Commits =>
      case RollsBack =>
        assert Imported(promoted, id, file, Failed, written, commit)
               == Imported(promoted, id, file, Discarding, written, commit);
      case CommitsAndRaises =>
    }
  }

  /** What the import leaves once its file is complete: a committed one its row and exactly its
      bytes, under no marker; a rolled back one nothing; one whose commit was reported as a
      failure its row, its bytes and the marker recovery looks for. */
  function AfterImport(id: Id, home: string, file: File, commit: CommitResult): Slot {
    match commit
    case Commits =>
      Slot(home, None, Some(Dir(Some(file), None)), None, Some(Row(home, file.name, Sha(file.bytes), |file.bytes|)))
    case RollsBack => Slot(home, None, None, None, None)
    case CommitsAndRaises =>
      Slot(home, None, Some(Promotion(id, home, file)), None, Some(Row(home, file.name, Sha(file.bytes), |file.bytes|)))
  }

  lemma {:induction false} ImportedFromWriting(id: Id, home: string, file: File, n: nat, written: nat,
                                               commit: CommitResult)
    requires n <= |file.bytes|
    ensures Imported(Slot(home, Some(Dir(Some(File(file.name, file.bytes[..n])), None)), None, None, None), id, file,
                     Writing(n), written, commit)
            == if file.name == ".nalu-asset-import.pending.json"
               then Slot(home, Some(Dir(Some(file), None)), None, None, None)
               else AfterImport(id, home, file, commit)
    decreases |file.bytes| - n
  {
    if n < |file.bytes| {
      var m := if written <= n || written > |file.bytes| then |file.bytes| else written;
      ImportedFromWriting(id, home, file, m, written, commit);
    } else {
      assert file.bytes[..n] == file.bytes;
      ImportedFromReady(id, home, file, written, commit);
    }
  }

  /** A whole import, step by step: the outcome depends on its commit and on nothing else, save
      that a file named like the marker never leaves its staging directory. */
  lemma ImportEnds(id: Id, home: string, file: File, written: nat, commit: CommitResult)
    ensures Imported(Slot(home, None, None, None, None), id, file, Reserved, written, commit)
            == if file.name == ".nalu-asset-import.pending.json"
               then Slot(home, Some(Dir(Some(file), None)), None, None, None)
               else AfterImport(id, home, file, commit)
  {
    ImportedFromWriting(id, home, file, 0, written, commit);
    assert file.bytes[..0] == [];
  }

  /** An import begins under a fresh id, in a serving process, for one byte to 100 MB. */
  lemma ImportStartsIff(w: World, pid: nat, id: Id, home: string, file: File)
    requires w.mode.Serving? && pid !in w.callers && id !in w.store
    ensures Next(w, BeginImport(pid, id, home, file))
            == if 1 <= |file.bytes| <= 104_857_600
               then w.(store := w.store[id := Slot(home, None, None, None, None)],
                       callers := w.callers[pid := Importer(id, file, Reserved)])
               else w
  {
  }

  function DeletionsLeft(at: DeleteStep): nat {
    match at
    case Checked => 3
    case Retired => 2
    case Refused => 1
    case RowGone => 1
  }

  function Deleted(s: Slot, at: DeleteStep, deletes: bool): Slot
    decreases DeletionsLeft(at)
  {
    var (s', next) := DeleteAdvance(s, at, deletes);
    if next.None? then s' else Deleted(s', next.value, deletes)
  }

  /** A whole deletion: it starts on exactly an asset whose row names the file in its one
      directory, and then removes row and directory, or, where the row's deletion is refused,
      puts everything back. */
  lemma {:induction false} DeletionEnds(s: Slot, deletes: bool)
    ensures Deletable(s) <==>
              && s.row.Some? && s.final.Some? && s.deleting.None?
              && s.final.value.file.Some? && s.final.value.file.value.name == s.row.value.filename
    ensures Deletable(s) ==>
              Deleted(s, Checked, deletes) == if deletes then Slot(s.home, s.pending, None, None, None) else s
  {
    if Deletable(s) {
      var retired := s.(deleting := s.final, final := None);
      if deletes {
        assert Deleted(retired.(row := None), RowGone, deletes) == Slot(s.home, s.pending, None, None, None);
      } else {
        assert Deleted(retired, Refused, deletes) == s;
      }
    }
  }

  /** The marker in an asset's directory is readable and this asset's own. */
  predicate OwnMarker(id: Id, s: Slot)
    requires s.final.Some? && s.final.value.marker.Some?
  {
    && s.final.value.marker.value.Marker?
    && s.final.value.marker.value.asset == id && s.final.value.marker.value.project == s.home
  }

  /** Directory, marker and row all name one file in this project, and its bytes have the hash and
      the row the hash and size the marker was written with. */
  predicate AllAgree(s: Slot)
    requires s.final.Some? && s.final.value.marker.Some? && s.final.value.marker.value.Marker? && s.row.Some?
  {
    var dir, m, row := s.final.value, s.final.value.marker.value, s.row.value;
    && dir.file.Some? && dir.file.value.name == m.filename && row.filename == m.filename && row.project == s.home
    && m.sha.content == dir.file.value.bytes && row.sha.content == dir.file.value.bytes && row.size == m.size
  }

  /** What recovery does with each directory, whatever is in it: staged bytes go; retired ones
      go with their row, come back to their own project's free name, or stop the pass; promoted
      ones lose an own marker when everything agrees, go when there is no row, or stop the pass. */
  lemma RecoveryVerdict(id: Id, s: Slot)
    ensures RecoverEntry(id, s, Pending) == Some(Slot(s.home, None, s.final, s.deleting, s.row))
    ensures RecoverEntry(id, s, Deleting)
            == if s.row.None? then Some(Slot(s.home, s.pending, s.final, None, None))
               else if s.final.None? && s.row.value.project == s.home
               then Some(Slot(s.home, s.pending, s.deleting, None, s.row))
               else None
    ensures s.final.None? || s.final.value.marker.None? ==> RecoverEntry(id, s, Final) == Some(s)
    ensures s.final.Some? && s.final.value.marker.Some? ==>
              RecoverEntry(id, s, Final)
              == if !OwnMarker(id, s) then None
                 else if s.row.None? then Some(Slot(s.home, s.pending, None, s.deleting, None))
                 else if AllAgree(s)
                 then Some(Slot(s.home, s.pending, Some(Dir(s.final.value.file, None)), s.deleting, s.row))
                 else None
  {
  }
}
