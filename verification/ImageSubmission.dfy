// Single-attempt paid image submission: a durable intent in the run's event log,
// one POST, then its outcome. Any number of callers interleave, and a caller or
// the whole process may stop between any two steps.
module ImageSubmission {
  import opened Prelude
  import opened EventLog
  import opened ImagePayload

  type RunId = string
  type TaskKey = string

  /** SHA-256 of endpoint, NUL and the canonical JSON: injective, so modelled by
      the payload itself. */
  datatype RequestSha = RequestSha(payload: Payload)

  /** digest({run_id, task_key, kind: image}) */
  datatype IntentId = IntentId(run: RunId, task: TaskKey)

  datatype Kind = Intent | Unconfirmed | Submitted | Other

  datatype Record = Record(run: RunId, task: TaskKey, intent: IntentId, request: RequestSha,
                           providerTask: Option<string>)

  /** What a row of run_events holds; `recordSha` is the digest stored inside its payload. */
  datatype Body = Body(kind: Kind, record: Record, recordSha: Record)

  type Row = Event<Body>

  type Rows = Log<Body>

  predicate Concerns(e: Row, run: RunId, task: TaskKey) {
    e.run == run && e.body.kind != Other && e.body.record.task == task
  }

  predicate Intact(e: Row, run: RunId) {
    e.body.record.run == run && e.body.recordSha == e.body.record
  }

  /** The rows `_latest` looks at. */
  function Slice(log: Rows, run: RunId, task: TaskKey): Rows {
    if log == [] then []
    else
      var last := log[|log| - 1];
      Slice(log[..|log| - 1], run, task) + (if Concerns(last, run, task) then [last] else [])
  }

  predicate AllIntact(rows: Rows, run: RunId) {
    forall i :: 0 <= i < |rows| ==> Intact(rows[i], run)
  }

  datatype LatestResult = NeedsReconciliation | NoEvent | Latest(event: Row)

  function LatestOf(log: Rows, run: RunId, task: TaskKey): LatestResult {
    var rows := Slice(log, run, task);
    if !AllIntact(rows, run) then NeedsReconciliation
    else if rows == [] then NoEvent
    else Latest(rows[|rows| - 1])
  }

  function Write(log: Rows, run: RunId, kind: Kind, record: Record): Rows {
    Append(log, run, Body(kind, record, record))
  }

  function NewRecord(run: RunId, task: TaskKey, request: RequestSha): Record {
    Record(run, task, IntentId(run, task), request, None)
  }

  datatype Opening = Refused | Existing(event: Row) | Opened(intentEvent: nat)

  /** The first transaction of `submit`. */
  function Open(log: Rows, run: RunId, task: TaskKey, request: RequestSha, allowed: bool): (Rows, Opening) {
    match LatestOf(log, run, task)
    case NeedsReconciliation => (log, Refused)
    case Latest(event) => (log, if event.body.record.request != request then Refused else Existing(event))
    case NoEvent =>
      if !allowed then (log, Refused)
      else (Write(log, run, Intent, NewRecord(run, task, request)), Opened(|log|))
  }

  /** authorize_transport's own read of the log, once identity and hash agree. */
  predicate StillLatest(log: Rows, run: RunId, task: TaskKey, intentEvent: nat) {
    var latest := LatestOf(log, run, task);
    latest.Latest? && latest.event.id == intentEvent
  }

  /** The closing transaction: an outcome is appended only over its own intent. */
  function Close(log: Rows, run: RunId, task: TaskKey, request: RequestSha, intentEvent: nat,
                 receipt: Option<string>): Rows {
    if !StillLatest(log, run, task, intentEvent) then log
    else
      var record := NewRecord(run, task, request);
      if receipt.Some? then Write(log, run, Submitted, record.(providerTask := receipt))
      else Write(log, run, Unconfirmed, record)
  }

  function LastOf(rows: Rows): Option<Row> {
    if rows == [] then None else Some(rows[|rows| - 1])
  }

  lemma {:induction false} SliceStep(rows: Rows, i: nat, run: RunId, task: TaskKey)
    requires i < |rows|
    ensures Slice(rows[..i + 1], run, task)
            == if Concerns(rows[i], run, task) then Slice(rows[..i], run, task) + [rows[i]]
                else Slice(rows[..i], run, task)
  {
    assert rows[..i + 1][..i] == rows[..i];
  }

  /** A damaged row of the task is found whatever follows it. */
  lemma {:induction false} DamageStays(rows: Rows, i: nat, run: RunId, task: TaskKey)
    requires i < |rows| && Concerns(rows[i], run, task) && !Intact(rows[i], run)
    ensures !AllIntact(Slice(rows, run, task), run)
  {
    SliceStep(rows, i, run, task);
    SlicePrefix(rows, i + 1, run, task);
    var before := Slice(rows[..i], run, task);
    assert Slice(rows[..i + 1], run, task)[|before|] == rows[i];
  }

  /** The transactions as the service runs them, on the table they mutate. */
  class EventTable {
    var rows: Rows

    constructor ()
      ensures rows == []
    {
      rows := [];
    }

    method FindLatest(run: RunId, task: TaskKey) returns (r: LatestResult)
      ensures r == LatestOf(rows, run, task)
    {
      var latest: Option<Row> := None;
      for i := 0 to |rows|
        invariant AllIntact(Slice(rows[..i], run, task), run)
        invariant latest == LastOf(Slice(rows[..i], run, task))
      {
        SliceStep(rows, i, run, task);
        if rows[i].run != run || rows[i].body.kind == Other || rows[i].body.record.task != task {
          continue;
        }
        if rows[i].body.record.run != run || rows[i].body.recordSha != rows[i].body.record {
          DamageStays(rows, i, run, task);
          return NeedsReconciliation;
        }
        latest := Some(rows[i]);
      }
      assert rows[..|rows|] == rows;
      return if latest == None then NoEvent else Latest(latest.value);
    }

    method Insert(run: RunId, kind: Kind, record: Record) returns (id: nat)
      modifies this
      ensures rows == Write(old(rows), run, kind, record) && id == |old(rows)|
    {
      var sequence := NextSequence(rows, run);
      id := |rows|;
      rows := rows + [Event(id, run, sequence, Body(kind, record, record))];
    }

    method OpenIntent(run: RunId, task: TaskKey, request: RequestSha, allowed: bool) returns (r: Opening)
      modifies this
      ensures (rows, r) == Open(old(rows), run, task, request, allowed)
    {
      var existing := FindLatest(run, task);
      if existing.NeedsReconciliation? {
        return Refused;
      }
      if existing.Latest? {
        if existing.event.body.record.request != request {
          return Refused;
        }
        return Existing(existing.event);
      }
      if !allowed {
        return Refused;
      }
      var id := Insert(run, Intent, NewRecord(run, task, request));
      return Opened(id);
    }

    method RecordOutcome(run: RunId, task: TaskKey, request: RequestSha, intentEvent: nat, receipt: Option<string>)
      returns (recorded: bool)
      modifies this
      ensures rows == Close(old(rows), run, task, request, intentEvent, receipt)
      ensures recorded <==> StillLatest(old(rows), run, task, intentEvent)
    {
      var current := FindLatest(run, task);
      if !current.Latest? || current.event.id != intentEvent {
        return false;
      }
      var record := NewRecord(run, task, request);
      if receipt.Some? {
        var _ := Insert(run, Submitted, record.(providerTask := receipt));
      } else {
        var _ := Insert(run, Unconfirmed, record);
      }
      return true;
    }
  }

  lemma {:induction false} SlicePrefix(log: Rows, n: nat, run: RunId, task: TaskKey)
    requires n <= |log|
    ensures Slice(log[..n], run, task) <= Slice(log, run, task)
    decreases |log| - n
  {
    if n < |log| {
      assert log[..n + 1][..n] == log[..n];
      SlicePrefix(log, n + 1, run, task);
    } else {
      assert log[..n] == log;
    }
  }

  // ---------------------------------------------------------- interleavings

  /** What one caller of `submit` still holds between its transactions. */
  datatype Caller =
    | Holding(run: RunId, task: TaskKey, payload: Payload, intentEvent: nat)   // intent committed
    | Cleared(run: RunId, task: TaskKey, payload: Payload, intentEvent: nat)   // authorize passed, POST next
    | Settling(run: RunId, task: TaskKey, payload: Payload, intentEvent: nat, receipt: Option<string>)

  datatype Post = Post(run: RunId, task: TaskKey, payload: Payload, key: IntentId)

  datatype World = World(log: Rows, callers: map<nat, Caller>, posts: seq<Post>)

  datatype Action =
    | Begin(pid: nat, run: RunId, task: TaskKey, incoming: Request, allowed: bool)
    | Authorize(pid: nat, allowed: bool)
    | SecretUnavailable(pid: nat)
    | Send(pid: nat, reply: Option<string>)
    | Settle(pid: nat)
    | OtherEvent(run: RunId, record: Record)
    | CallerDies(pid: nat)
    | Restart

  const START := World([], map[], [])

  function Next(w: World, a: Action): World {
    match a
    case Begin(pid, run, task, incoming, allowed) =>
      if pid in w.callers || NormalForm(incoming).Err? then w
      else
        var payload := NormalForm(incoming).value;
        var (log, opening) := Open(w.log, run, task, RequestSha(payload), allowed);
        (match opening
         case Opened(id) => w.(log := log, callers := w.callers[pid := Holding(run, task, payload, id)])
         case _ => w.(log := log))
    case Authorize(pid, allowed) =>
      if pid in w.callers && w.callers[pid].Holding? then
        var c := w.callers[pid];
        // The transport normalises and hashes the payload again before asking.
        var again := NormalForm(c.payload.body);
        if again.Err? || again.value != c.payload || !allowed || !StillLatest(w.log, c.run, c.task, c.intentEvent)
        then w.(callers := w.callers[pid := Settling(c.run, c.task, c.payload, c.intentEvent, None)])
        else w.(callers := w.callers[pid := Cleared(c.run, c.task, again.value, c.intentEvent)])
      else w
    case SecretUnavailable(pid) =>
      if pid in w.callers && w.callers[pid].Cleared? then
        var c := w.callers[pid];
        w.(callers := w.callers[pid := Settling(c.run, c.task, c.payload, c.intentEvent, None)])
      else w
    case Send(pid, reply) =>
      if pid in w.callers && w.callers[pid].Cleared? then
        var c := w.callers[pid];
        w.(callers := w.callers[pid := Settling(c.run, c.task, c.payload, c.intentEvent, reply)],
           posts := w.posts + [Post(c.run, c.task, c.payload, IntentId(c.run, c.task))])
      else w
    case Settle(pid) =>
      if pid in w.callers && w.callers[pid].Settling? then
        var c := w.callers[pid];
        w.(log := Close(w.log, c.run, c.task, RequestSha(c.payload), c.intentEvent, c.receipt),
           callers := w.callers - {pid})
      else w
    case OtherEvent(run, record) => w.(log := Write(w.log, run, Other, record))
    case CallerDies(pid) => w.(callers := w.callers - {pid})
    case Restart => w.(callers := map[])
  }

  function Run(actions: seq<Action>): World {
    if actions == [] then START else Next(Run(actions[..|actions| - 1]), actions[|actions| - 1])
  }

  // -------------------------------------------------------------- invariant

  /** One task's rows: nothing, an intent, or an intent and its one outcome, all
      under one request hash. */
  predicate Shape(rows: Rows, run: RunId, task: TaskKey) {
    && |rows| <= 2
    && (forall i :: 0 <= i < |rows| ==>
          && Intact(rows[i], run)
          && rows[i].body.record.intent == IntentId(run, task)
          && rows[i].body.record.request == rows[0].body.record.request)
    && (|rows| >= 1 ==> rows[0].body.kind == Intent)
    && (|rows| == 2 ==> rows[1].body.kind == Unconfirmed || rows[1].body.kind == Submitted)
  }

  ghost predicate Shaped(log: Rows) {
    forall run: RunId, task: TaskKey :: Shape(Slice(log, run, task), run, task)
  }

  /** The caller's intent is in the log, under its own run, task and hash. */
  predicate HoldsIntent(log: Rows, c: Caller) {
    && c.intentEvent < |log|
    && Concerns(log[c.intentEvent], c.run, c.task)
    && log[c.intentEvent].body.kind == Intent
    && log[c.intentEvent].body.record.request == RequestSha(c.payload)
  }

  predicate PostedFor(posts: seq<Post>, run: RunId, task: TaskKey) {
    exists i :: 0 <= i < |posts| && posts[i].run == run && posts[i].task == task
  }

  ghost predicate CallersSound(w: World) {
    && (forall p :: p in w.callers ==> HoldsIntent(w.log, w.callers[p]))
    && (forall p, q :: p in w.callers && q in w.callers && p != q ==>
          w.callers[p].intentEvent != w.callers[q].intentEvent)
    && (forall p :: p in w.callers && !w.callers[p].Settling? ==>
        !PostedFor(w.posts, w.callers[p].run, w.callers[p].task))
    && (forall p :: p in w.callers && w.callers[p].Settling? && w.callers[p].receipt.Some? ==>
          PostedFor(w.posts, w.callers[p].run, w.callers[p].task))
  }

  predicate PostsSound(w: World) {
    && (forall i :: 0 <= i < |w.posts| ==> PostRecorded(w.log, w.posts[i]))
    && (forall i, j :: 0 <= i < j < |w.posts| ==>
        (w.posts[i].run, w.posts[i].task) != (w.posts[j].run, w.posts[j].task))
  }

  /** The log holds an intent whose hash is that of the posted bytes. */
  predicate PostRecorded(log: Rows, p: Post) {
    && p.key == IntentId(p.run, p.task)
    && var rows := Slice(log, p.run, p.task);
       rows != [] && rows[0].body.kind == Intent && rows[0].body.record.request == RequestSha(p.payload)
  }

  predicate SubmittedWerePosted(w: World) {
    forall i :: 0 <= i < |w.log| && w.log[i].body.kind == Submitted ==>
        PostedFor(w.posts, w.log[i].run, w.log[i].body.record.task)
  }

  ghost predicate Sound(w: World) {
    && IdsArePositions(w.log) && Shaped(w.log) && CallersSound(w) && PostsSound(w) && SubmittedWerePosted(w)
  }

  lemma SliceOfAppend(log: Rows, e: Row, run: RunId, task: TaskKey)
    ensures Slice(log + [e], run, task) == Slice(log, run, task) + (if Concerns(e, run, task) then [e] else [])
  {
  }

  // ------------------------------------------------------------ preservation

  lemma {:induction false} SliceHolds(log: Rows, run: RunId, task: TaskKey, i: nat)
    requires i < |log| && Concerns(log[i], run, task)
    ensures log[i] in Slice(log, run, task)
  {
    if i < |log| - 1 {
      SliceHolds(log[..|log| - 1], run, task, i);
    }
  }

  lemma {:induction false} SliceFromLog(log: Rows, run: RunId, task: TaskKey)
    ensures forall e :: e in Slice(log, run, task) ==> e in log && Concerns(e, run, task)
  {
    if log != [] {
      SliceFromLog(log[..|log| - 1], run, task);
    }
  }

  lemma {:induction false} IntentLeads(log: Rows, run: RunId, task: TaskKey, i: nat)
    requires Shaped(log) && i < |log| && Concerns(log[i], run, task) && log[i].body.kind == Intent
    ensures var rows := Slice(log, run, task); rows != [] && rows[0] == log[i]
  {
    SliceHolds(log, run, task, i);
  }

  lemma {:induction false} ReadIsClean(log: Rows, run: RunId, task: TaskKey)
    requires Shaped(log)
    ensures LatestOf(log, run, task) != NeedsReconciliation
    ensures LatestOf(log, run, task) == NoEvent <==> Slice(log, run, task) == []
  {
  }

  lemma AppendOther(log: Rows, run: RunId, record: Record)
    requires Shaped(log) && IdsArePositions(log)
    ensures Shaped(Write(log, run, Other, record)) && IdsArePositions(Write(log, run, Other, record))
  {
  }

  lemma AppendIntent(log: Rows, run: RunId, task: TaskKey, request: RequestSha)
    requires Shaped(log) && IdsArePositions(log) && Slice(log, run, task) == []
    ensures var log' := Write(log, run, Intent, NewRecord(run, task, request)); Shaped(log') && IdsArePositions(log')
  {
  }

  /** Over its own intent there is room for exactly one outcome. */
  lemma {:induction false} LatestIntentStandsAlone(log: Rows, c: Caller)
    requires Shaped(log) && IdsArePositions(log) && HoldsIntent(log, c)
    requires StillLatest(log, c.run, c.task, c.intentEvent)
    ensures Slice(log, c.run, c.task) == [log[c.intentEvent]]
  {
    var rows := Slice(log, c.run, c.task);
    SliceFromLog(log, c.run, c.task);
    assert rows[|rows| - 1] in log;
  }

  lemma CloseKeepsShape(log: Rows, c: Caller, receipt: Option<string>)
    requires Shaped(log) && IdsArePositions(log) && HoldsIntent(log, c)
    ensures var log' := Close(log, c.run, c.task, RequestSha(c.payload), c.intentEvent, receipt);
            Shaped(log') && IdsArePositions(log') && log <= log'
  {
    if StillLatest(log, c.run, c.task, c.intentEvent) {
      LatestIntentStandsAlone(log, c);
      var log' := Close(log, c.run, c.task, RequestSha(c.payload), c.intentEvent, receipt);
      var e := log'[|log|];
      assert log' == log + [e];
      assert Shape(Slice(log, c.run, c.task), c.run, c.task);
      forall r: RunId, t: TaskKey ensures Shape(Slice(log', r, t), r, t) {
        SliceOfAppend(log, e, r, t);
        assert Shape(Slice(log, r, t), r, t);
      }
    }
  }

  /** Growing the log keeps every caller's intent and every post's record. */
  lemma LongerLog(log: Rows, log': Rows, posts: seq<Post>)
    requires log <= log'
    requires forall i :: 0 <= i < |posts| ==> PostRecorded(log, posts[i])
    ensures forall i :: 0 <= i < |posts| ==> PostRecorded(log', posts[i])
  {
    forall i | 0 <= i < |posts| ensures PostRecorded(log', posts[i]) {
      SlicePrefix(log', |log|, posts[i].run, posts[i].task);
      assert log'[..|log|] == log;
    }
  }

  lemma OpenKeepsSound(w: World, pid: nat, run: RunId, task: TaskKey, payload: Payload)
    requires Sound(w) && pid !in w.callers && Slice(w.log, run, task) == []
    ensures var log' := Write(w.log, run, Intent, NewRecord(run, task, RequestSha(payload)));
            Sound(w.(log := log', callers := w.callers[pid := Holding(run, task, payload, |w.log|)]))
  {
    var log' := Write(w.log, run, Intent, NewRecord(run, task, RequestSha(payload)));
    AppendIntent(w.log, run, task, RequestSha(payload));
    LongerLog(w.log, log', w.posts);
  }

  lemma {:induction false} BeginKeepsSound(w: World, pid: nat, run: RunId, task: TaskKey, incoming: Request,
                                           allowed: bool)
    requires Sound(w)
    ensures Sound(Next(w, Begin(pid, run, task, incoming, allowed)))
  {
    var normal := NormalForm(incoming);
    if pid !in w.callers && normal.Ok? {
      if Slice(w.log, run, task) == [] {
        ReadIsClean(w.log, run, task);
        OpenKeepsSound(w, pid, run, task, normal.value);
      } else {
        OpenOnRecord(w.log, run, task, RequestSha(normal.value), allowed);
      }
    }
  }

  lemma SendKeepsSound(w: World, pid: nat, reply: Option<string>)
    requires Sound(w)
    ensures Sound(Next(w, Send(pid, reply)))
  {
    if pid in w.callers && w.callers[pid].Cleared? {
      var c, w' := w.callers[pid], Next(w, Send(pid, reply));
      IntentLeads(w.log, c.run, c.task, c.intentEvent);
      assert PostedFor(w'.posts, c.run, c.task) by { assert w'.posts[|w.posts|].run == c.run; }
      PostsGrow(w.posts, w'.posts[|w.posts|]);
      forall p | p in w'.callers && !w'.callers[p].Settling?
        ensures !PostedFor(w'.posts, w'.callers[p].run, w'.callers[p].task)
      {
        var d := w.callers[p];
        assert HoldsIntent(w.log, d);
        if d.run == c.run && d.task == c.task {
          IntentLeads(w.log, d.run, d.task, d.intentEvent);
        }
      }
    }
  }

  lemma PostsGrow(posts: seq<Post>, post: Post)
    ensures forall r: RunId, t: TaskKey :: PostedFor(posts, r, t) ==> PostedFor(posts + [post], r, t)
    ensures forall r: RunId, t: TaskKey :: PostedFor(posts + [post], r, t) ==>
              PostedFor(posts, r, t) || (r == post.run && t == post.task)
  {
    forall r: RunId, t: TaskKey | PostedFor(posts, r, t) ensures PostedFor(posts + [post], r, t) {
      var i :| 0 <= i < |posts| && posts[i].run == r && posts[i].task == t;
      assert (posts + [post])[i] == posts[i];
    }
  }

  lemma SettleKeepsSound(w: World, pid: nat)
    requires Sound(w)
    ensures Sound(Next(w, Settle(pid)))
  {
    if pid in w.callers && w.callers[pid].Settling? {
      var c, w' := w.callers[pid], Next(w, Settle(pid));
      CloseKeepsShape(w.log, c, c.receipt);
      LongerLog(w.log, w'.log, w.posts);
    }
  }

  lemma OtherKeepsSound(w: World, run: RunId, record: Record)
    requires Sound(w)
    ensures Sound(Next(w, OtherEvent(run, record)))
  {
    AppendOther(w.log, run, record);
  }

  lemma AuthorizeKeepsSound(w: World, pid: nat, allowed: bool)
    requires Sound(w)
    ensures Sound(Next(w, Authorize(pid, allowed)))
  {
  }

  lemma SecretKeepsSound(w: World, pid: nat)
    requires Sound(w)
    ensures Sound(Next(w, SecretUnavailable(pid)))
  {
  }

  lemma DyingKeepsSound(w: World, pid: nat)
    requires Sound(w)
    ensures Sound(Next(w, CallerDies(pid))) && Sound(Next(w, Restart))
  {
  }

  lemma {:induction false} StepKeepsSound(w: World, a: Action)
    requires Sound(w)
    ensures Sound(Next(w, a))
  {
    match a
    case Begin(pid, run, task, incoming, allowed) => BeginKeepsSound(w, pid, run, task, incoming, allowed);
    case Authorize(pid, allowed) => AuthorizeKeepsSound(w, pid, allowed);
    case SecretUnavailable(pid) => SecretKeepsSound(w, pid);
    case Send(pid, reply) => SendKeepsSound(w, pid, reply);
    case Settle(pid) => SettleKeepsSound(w, pid);
    case OtherEvent(run, record) => OtherKeepsSound(w, run, record);
    case CallerDies(pid) => DyingKeepsSound(w, pid);
    case Restart => DyingKeepsSound(w, 0);
  }

  lemma {:induction false} EveryRunIsSound(actions: seq<Action>)
    ensures Sound(Run(actions))
  {
    if actions != [] {
      EveryRunIsSound(actions[..|actions| - 1]);
      StepKeepsSound(Run(actions[..|actions| - 1]), actions[|actions| - 1]);
    }
  }

  // ------------------------------------------------------------ main results

  /** However callers interleave, die and restart, the provider sees at most one
      POST for a run and task. */
  lemma {:induction false} AtMostOnePost(actions: seq<Action>)
    ensures var posts := Run(actions).posts;
            forall i, j :: 0 <= i < j < |posts| ==> (posts[i].run, posts[i].task) != (posts[j].run, posts[j].task)
  {
    EveryRunIsSound(actions);
  }

  /** Every POST's bytes are those the durable intent was hashed from. */
  lemma {:induction false} PostedBytesMatchIntent(actions: seq<Action>, i: nat)
    requires i < |Run(actions).posts|
    ensures PostRecorded(Run(actions).log, Run(actions).posts[i])
  {
    EveryRunIsSound(actions);
  }

  /** Every task's rows have the promised shape, pass their integrity check, and
      a submitted outcome is never recorded without a POST. */
  lemma {:induction false} LogTellsTheTruth(actions: seq<Action>, run: RunId, task: TaskKey)
    ensures var w := Run(actions);
            && Shape(Slice(w.log, run, task), run, task)
            && LatestOf(w.log, run, task) != NeedsReconciliation
            && (forall e :: e in Slice(w.log, run, task) && e.body.kind == Submitted ==> PostedFor(w.posts, run, task))
  {
    EveryRunIsSound(actions);
    var w := Run(actions);
    SliceFromLog(w.log, run, task);
    forall e | e in Slice(w.log, run, task) && e.body.kind == Submitted ensures PostedFor(w.posts, run, task) {}
  }

  lemma OpenOnRecord(log: Rows, run: RunId, task: TaskKey, request: RequestSha, allowed: bool)
    requires Shaped(log) && Slice(log, run, task) != []
    ensures var rows := Slice(log, run, task);
            Open(log, run, task, request, allowed)
            == (log, if rows[0].body.record.request == request then Existing(rows[|rows| - 1]) else Refused)
  {
  }

  /** Once a task has any record, asking again never changes log, callers or posts:
      the same request is answered from the log and another one is refused. */
  lemma {:induction false} AskingAgainIsInert(actions: seq<Action>, pid: nat, run: RunId, task: TaskKey,
                                              incoming: Request, allowed: bool)
    requires Slice(Run(actions).log, run, task) != [] && NormalForm(incoming).Ok?
    ensures var w, request := Run(actions), RequestSha(NormalForm(incoming).value);
            var rows := Slice(w.log, run, task);
            && Next(w, Begin(pid, run, task, incoming, allowed)) == w
            && Open(w.log, run, task, request, allowed).1
               == (if rows[0].body.record.request == request then Existing(rows[|rows| - 1]) else Refused)
  {
    EveryRunIsSound(actions);
    BeginOnRecord(Run(actions), pid, run, task, incoming, allowed);
  }

  lemma BeginOnRecord(w: World, pid: nat, run: RunId, task: TaskKey, incoming: Request, allowed: bool)
    requires Shaped(w.log) && Slice(w.log, run, task) != [] && NormalForm(incoming).Ok?
    ensures var rows, request := Slice(w.log, run, task), RequestSha(NormalForm(incoming).value);
            && Next(w, Begin(pid, run, task, incoming, allowed)) == w
            && Open(w.log, run, task, request, allowed).1
               == (if rows[0].body.record.request == request then Existing(rows[|rows| - 1]) else Refused)
  {
  }

  /** A live caller's task has its intent and nothing else, and its payload is in normal form. */
  ghost predicate Unrivalled(log: Rows, c: Caller) {
    c.intentEvent < |log| && Slice(log, c.run, c.task) == [log[c.intentEvent]] && IsNormal(c.payload)
  }

  ghost predicate IsNormal(payload: Payload) {
    exists r: Request :: NormalForm(r) == Ok(payload)
  }

  lemma NormalIsStable(payload: Payload)
    requires IsNormal(payload)
    ensures NormalForm(payload.body) == Ok(payload)
  {
    var r: Request :| NormalForm(r) == Ok(payload);
    NormalFormIsStable(r);
  }

  ghost predicate AllUnrivalled(w: World) {
    forall p :: p in w.callers ==> Unrivalled(w.log, w.callers[p])
  }

  lemma AppendKeepsUnrivalled(log: Rows, e: Row, c: Caller)
    requires Unrivalled(log, c) && !Concerns(e, c.run, c.task)
    ensures Unrivalled(log + [e], c)
  {
    SliceOfAppend(log, e, c.run, c.task);
  }

  lemma OpenKeepsUnrivalled(w: World, pid: nat, run: RunId, task: TaskKey, payload: Payload)
    requires AllUnrivalled(w) && Slice(w.log, run, task) == [] && IsNormal(payload)
    ensures var log' := Write(w.log, run, Intent, NewRecord(run, task, RequestSha(payload)));
            AllUnrivalled(w.(log := log', callers := w.callers[pid := Holding(run, task, payload, |w.log|)]))
  {
    var log' := Write(w.log, run, Intent, NewRecord(run, task, RequestSha(payload)));
    SliceOfAppend(w.log, log'[|w.log|], run, task);
    forall p | p in w.callers ensures Unrivalled(log', w.callers[p]) {
      AppendKeepsUnrivalled(w.log, log'[|w.log|], w.callers[p]);
    }
  }

  lemma BeginOpensOrNot(w: World, pid: nat, run: RunId, task: TaskKey, incoming: Request, allowed: bool)
    requires Shaped(w.log)
    ensures var w' := Next(w, Begin(pid, run, task, incoming, allowed));
            || w' == w
            || (NormalForm(incoming).Ok? && Slice(w.log, run, task) == []
                && var payload := NormalForm(incoming).value;
                   w' == w.(log := Write(w.log, run, Intent, NewRecord(run, task, RequestSha(payload))),
                            callers := w.callers[pid := Holding(run, task, payload, |w.log|)]))
  {
    ReadIsClean(w.log, run, task);
  }

  lemma BeginKeepsUnrivalled(w: World, pid: nat, run: RunId, task: TaskKey, incoming: Request, allowed: bool)
    requires Sound(w) && AllUnrivalled(w)
    ensures AllUnrivalled(Next(w, Begin(pid, run, task, incoming, allowed)))
  {
    BeginOpensOrNot(w, pid, run, task, incoming, allowed);
    if Next(w, Begin(pid, run, task, incoming, allowed)) != w {
      OpenKeepsUnrivalled(w, pid, run, task, NormalForm(incoming).value);
    }
  }

  lemma SettleKeepsUnrivalled(w: World, pid: nat)
    requires Sound(w) && AllUnrivalled(w)
    ensures AllUnrivalled(Next(w, Settle(pid)))
  {
    if pid in w.callers && w.callers[pid].Settling? {
      var c, w' := w.callers[pid], Next(w, Settle(pid));
      forall p | p in w'.callers ensures Unrivalled(w'.log, w'.callers[p]) {
        var d := w.callers[p];
        assert w.log[d.intentEvent].id != w.log[c.intentEvent].id;
        if w'.log != w.log {
          AppendKeepsUnrivalled(w.log, w'.log[|w.log|], d);
        }
      }
    }
  }

  lemma OtherKeepsUnrivalled(w: World, run: RunId, record: Record)
    requires AllUnrivalled(w)
    ensures AllUnrivalled(Next(w, OtherEvent(run, record)))
  {
    var log' := Write(w.log, run, Other, record);
    forall p | p in w.callers ensures Unrivalled(log', w.callers[p]) {
      AppendKeepsUnrivalled(w.log, log'[|w.log|], w.callers[p]);
    }
  }

  /** The steps that leave the log alone. */
  lemma QuietKeepsUnrivalled(w: World, a: Action)
    requires AllUnrivalled(w) && (a.Authorize? || a.SecretUnavailable? || a.Send? || a.CallerDies? || a.Restart?)
    ensures AllUnrivalled(Next(w, a))
  {
  }

  lemma {:induction false} EveryCallerIsUnrivalled(actions: seq<Action>)
    ensures AllUnrivalled(Run(actions))
  {
    if actions != [] {
      var w, last := Run(actions[..|actions| - 1]), actions[|actions| - 1];
      EveryCallerIsUnrivalled(actions[..|actions| - 1]);
      EveryRunIsSound(actions[..|actions| - 1]);
      match last
      case Begin(pid, run, task, incoming, allowed) => BeginKeepsUnrivalled(w, pid, run, task, incoming, allowed);
      case Settle(pid) => SettleKeepsUnrivalled(w, pid);
      case OtherEvent(run, record) => OtherKeepsUnrivalled(w, run, record);
      case _ => QuietKeepsUnrivalled(w, last);
    }
  }

  /** In every reachable state the transport's second normalisation, hash and look at the
      log never stop a caller whose authority still stands; one whose authority is gone
      settles without a POST. */
  lemma {:induction false} AuthorizedCallersProceed(actions: seq<Action>, pid: nat, allowed: bool)
    requires pid in Run(actions).callers && Run(actions).callers[pid].Holding?
    ensures var w := Run(actions);
            var c := w.callers[pid];
            Next(w, Authorize(pid, allowed))
            == w.(callers := w.callers[pid := if allowed then Cleared(c.run, c.task, c.payload, c.intentEvent)
                                              else Settling(c.run, c.task, c.payload, c.intentEvent, None)])
  {
    EveryRunIsSound(actions);
    EveryCallerIsUnrivalled(actions);
    IntentIsLatest(Run(actions), Run(actions).callers[pid]);
    NormalIsStable(Run(actions).callers[pid].payload);
  }

  lemma IntentIsLatest(w: World, c: Caller)
    requires Sound(w) && Unrivalled(w.log, c)
    ensures StillLatest(w.log, c.run, c.task, c.intentEvent)
  {
    assert Shape(Slice(w.log, c.run, c.task), c.run, c.task);
  }

  /** And a caller that lives to settle always records its own outcome, whoever else came. */
  lemma {:induction false} LiveCallersRecord(actions: seq<Action>, pid: nat)
    requires pid in Run(actions).callers && Run(actions).callers[pid].Settling?
    ensures RecordsOutcome(Next(Run(actions), Settle(pid)).log, Run(actions).callers[pid])
  {
    EveryRunIsSound(actions);
    EveryCallerIsUnrivalled(actions);
    SettlingRecords(Run(actions), pid);
  }

  lemma SettlingRecords(w: World, pid: nat)
    requires Sound(w) && pid in w.callers && w.callers[pid].Settling? && Unrivalled(w.log, w.callers[pid])
    ensures RecordsOutcome(Next(w, Settle(pid)).log, w.callers[pid])
  {
    IntentIsLatest(w, w.callers[pid]);
    CloseRecords(w.log, w.callers[pid], w.callers[pid].receipt);
  }

  /** The task's rows are the caller's intent and its outcome. */
  predicate RecordsOutcome(log: Rows, c: Caller)
    requires c.Settling?
  {
    var rows := Slice(log, c.run, c.task);
    && |rows| == 2 && rows[0].id == c.intentEvent
    && rows[1].body.kind == (if c.receipt.Some? then Submitted else Unconfirmed)
    && rows[1].body.record.request == RequestSha(c.payload) && rows[1].body.record.providerTask == c.receipt
  }

  lemma CloseRecords(log: Rows, c: Caller, receipt: Option<string>)
    requires Unrivalled(log, c) && StillLatest(log, c.run, c.task, c.intentEvent)
    ensures var rows := Slice(Close(log, c.run, c.task, RequestSha(c.payload), c.intentEvent, receipt), c.run, c.task);
            && |rows| == 2 && rows[0] == log[c.intentEvent]
            && rows[1].body.kind == (if receipt.Some? then Submitted else Unconfirmed)
            && rows[1].body.record.request == RequestSha(c.payload) && rows[1].body.record.providerTask == receipt
  {
    SliceOfAppend(log, Close(log, c.run, c.task, RequestSha(c.payload), c.intentEvent, receipt)[|log|], c.run, c.task);
  }

  // ----------------------------------------------- what one submission leaves

  /** No row of the run's submission kinds names the task. */
  predicate Unrecorded(log: Rows, run: RunId, task: TaskKey) {
    forall i :: 0 <= i < |log| ==>
      !(log[i].run == run && log[i].body.kind != Other && log[i].body.record.task == task)
  }

  lemma {:induction false} UnrecordedHasNoRows(log: Rows, run: RunId, task: TaskKey)
    requires Unrecorded(log, run, task)
    ensures Slice(log, run, task) == []
  {
    if log != [] {
      UnrecordedHasNoRows(log[..|log| - 1], run, task);
    }
  }

  /** Row i is the last one naming the task. */
  predicate LastNaming(log: Rows, run: RunId, task: TaskKey, i: nat) {
    && i < |log| && log[i].run == run && log[i].body.kind != Other && log[i].body.record.task == task
    && forall j :: i < j < |log| ==>
         !(log[j].run == run && log[j].body.kind != Other && log[j].body.record.task == task)
  }

  lemma {:induction false} LastRowEndsTheSlice(log: Rows, run: RunId, task: TaskKey, i: nat)
    requires LastNaming(log, run, task, i)
    ensures var rows := Slice(log, run, task); rows != [] && rows[|rows| - 1] == log[i]
  {
    if i < |log| - 1 {
      LastRowEndsTheSlice(log[..|log| - 1], run, task, i);
    }
  }

  /** Row i names the task but is not the record it was written as, or not this run's. */
  predicate Damaged(log: Rows, run: RunId, task: TaskKey, i: nat) {
    && i < |log| && log[i].run == run && log[i].body.kind != Other && log[i].body.record.task == task
    && (log[i].body.recordSha != log[i].body.record || log[i].body.record.run != run)
  }

  /** Whatever else the log holds, one damaged row of the task stops it: nothing is opened,
      cleared or recorded until it is reconciled. */
  lemma DamagedRowStops(log: Rows, run: RunId, task: TaskKey, i: nat, request: RequestSha, allowed: bool,
                        intentEvent: nat, receipt: Option<string>)
    requires Damaged(log, run, task, i)
    ensures Open(log, run, task, request, allowed) == (log, Refused)
    ensures !StillLatest(log, run, task, intentEvent)
    ensures Close(log, run, task, request, intentEvent, receipt) == log
  {
    DamageStays(log, i, run, task);
  }

  /** And an undamaged log is read: the task's last row, if it has one. */
  lemma UndamagedIsRead(log: Rows, run: RunId, task: TaskKey)
    requires forall i: nat :: !Damaged(log, run, task, i)
    ensures Unrecorded(log, run, task) ==> LatestOf(log, run, task) == NoEvent
    ensures forall i: nat :: LastNaming(log, run, task, i) ==> LatestOf(log, run, task) == Latest(log[i])
  {
    RowsAreUndamaged(log, run, task);
    if Unrecorded(log, run, task) {
      UnrecordedHasNoRows(log, run, task);
    }
    forall i: nat | LastNaming(log, run, task, i) ensures LatestOf(log, run, task) == Latest(log[i]) {
      LastRowEndsTheSlice(log, run, task, i);
    }
  }

  lemma {:induction false} RowsAreUndamaged(log: Rows, run: RunId, task: TaskKey)
    requires forall i: nat :: !Damaged(log, run, task, i)
    ensures AllIntact(Slice(log, run, task), run)
  {
    if log != [] {
      var n := |log| - 1;
      forall i: nat ensures !Damaged(log[..n], run, task, i) {
        assert !Damaged(log, run, task, i);
      }
      RowsAreUndamaged(log[..n], run, task);
      assert !Damaged(log, run, task, n);
    }
  }

  /** The world with the task's durable intent appended and its caller holding it. */
  ghost predicate IntentOpened(w: World, w': World, pid: nat, run: RunId, task: TaskKey, payload: Payload) {
    && |w'.log| == |w.log| + 1 && w'.log[..|w.log|] == w.log
    && w'.log[|w.log|].id == |w.log| && w'.log[|w.log|].run == run
    && w'.log[|w.log|].body.kind == Intent
    && w'.log[|w.log|].body.record == Record(run, task, IntentId(run, task), RequestSha(payload), None)
    && w'.log[|w.log|].body.recordSha == w'.log[|w.log|].body.record
    && w'.callers == w.callers[pid := Holding(run, task, payload, |w.log|)]
    && w'.posts == w.posts
  }

  /** The first request for a task: an accepted one by an eligible, authorized caller
      appends its own intent and nothing else, and every other one leaves no trace. */
  lemma FirstRequestOpens(actions: seq<Action>, pid: nat, run: RunId, task: TaskKey, incoming: Request, allowed: bool)
    requires pid !in Run(actions).callers && Unrecorded(Run(actions).log, run, task)
    ensures var w, w' := Run(actions), Next(Run(actions), Begin(pid, run, task, incoming, allowed));
            if allowed && NormalForm(incoming).Ok?
            then IntentOpened(w, w', pid, run, task, NormalForm(incoming).value)
            else w' == w
  {
    UnrecordedHasNoRows(Run(actions).log, run, task);
  }

  /** Any later request, allowed or not, leaves no trace: the last row naming the task answers the same
      request, and a different one is refused. */
  lemma LastRowAnswers(actions: seq<Action>, pid: nat, run: RunId, task: TaskKey, incoming: Request, allowed: bool,
                       i: nat)
    requires NormalForm(incoming).Ok? && LastNaming(Run(actions).log, run, task, i)
    ensures var w, request := Run(actions), RequestSha(NormalForm(incoming).value);
            && Next(w, Begin(pid, run, task, incoming, allowed)) == w
            && Open(w.log, run, task, request, allowed).1
               == (if w.log[i].body.record.request == request then Existing(w.log[i]) else Refused)
  {
    EveryRunIsSound(actions);
    LastRowEndsTheSlice(Run(actions).log, run, task, i);
    BeginOnRecord(Run(actions), pid, run, task, incoming, allowed);
    assert Shape(Slice(Run(actions).log, run, task), run, task);
  }

  /** One more row after the intent: the outcome, under the intent's own request. */
  predicate OutcomeRecorded(log: Rows, n: nat, run: RunId, task: TaskKey, payload: Payload, receipt: Option<string>) {
    && |log| == n + 2 && log[n].body.kind == Intent && log[n + 1].run == run
    && log[n + 1].body.kind == (if receipt.Some? then Submitted else Unconfirmed)
    && log[n + 1].body.record == Record(run, task, IntentId(run, task), RequestSha(payload), receipt)
    && log[n + 1].body.recordSha == log[n + 1].body.record
  }

  function Undisturbed(pid: nat, run: RunId, task: TaskKey, incoming: Request, allowed: bool,
                       reply: Option<string>): seq<Action>
  {
    [Begin(pid, run, task, incoming, true), Authorize(pid, allowed), Send(pid, reply), Settle(pid)]
  }

  lemma {:induction false} RunOne(actions: seq<Action>, a: Action)
    ensures Run(actions + [a]) == Next(Run(actions), a)
  {
    assert (actions + [a])[..|actions|] == actions;
  }

  lemma RunFour(actions: seq<Action>, a: Action, b: Action, c: Action, d: Action)
    ensures Run(actions + [a, b, c, d]) == Next(Next(Next(Next(Run(actions), a), b), c), d)
  {
    RunOne(actions, a);
    RunOne(actions + [a], b);
    RunOne(actions + [a, b], c);
    RunOne(actions + [a, b, c], d);
    assert actions + [a] + [b] == actions + [a, b];
    assert actions + [a, b] + [c] == actions + [a, b, c];
    assert actions + [a, b, c] + [d] == actions + [a, b, c, d];
  }

  /** A submission nothing disturbs, from its first request to its outcome: with standing authority it makes
      exactly one POST, of the payload its intent was hashed from, and records the provider's answer; without
      it makes none and records that the attempt is unconfirmed. */
  lemma WholeSubmission(actions: seq<Action>, pid: nat, run: RunId, task: TaskKey, incoming: Request, allowed: bool,
                        reply: Option<string>)
    requires pid !in Run(actions).callers && Unrecorded(Run(actions).log, run, task) && NormalForm(incoming).Ok?
    ensures var w, payload := Run(actions), NormalForm(incoming).value;
            var w' := Run(actions + Undisturbed(pid, run, task, incoming, allowed, reply));
            && w'.callers == w.callers
            && w'.posts == w.posts + (if allowed then [Post(run, task, payload, IntentId(run, task))] else [])
            && OutcomeRecorded(w'.log, |w.log|, run, task, payload, if allowed then reply else None)
            && w'.log[..|w.log|] == w.log
  {
    var w, payload := Run(actions), NormalForm(incoming).value;
    FirstRequestOpens(actions, pid, run, task, incoming, true);
    RunFour(actions, Begin(pid, run, task, incoming, true), Authorize(pid, allowed), Send(pid, reply), Settle(pid));
    UnrecordedHasNoRows(w.log, run, task);
    var begun := Next(w, Begin(pid, run, task, incoming, true));
    IntentStandsAlone(w.log, begun.log, run, task);
    NormalFormIsStable(incoming);
    SettlesOnce(begun, pid, run, task, payload, |w.log|, allowed, reply);
  }

  lemma {:induction false} IntentStandsAlone(log: Rows, log': Rows, run: RunId, task: TaskKey)
    requires |log'| == |log| + 1 && log'[..|log|] == log && Slice(log, run, task) == []
    requires Concerns(log'[|log|], run, task) && Intact(log'[|log|], run)
    ensures LatestOf(log', run, task) == Latest(log'[|log|])
  {
  }

  lemma SettlesOnce(w: World, pid: nat, run: RunId, task: TaskKey, payload: Payload, n: nat, allowed: bool,
                    reply: Option<string>)
    requires pid in w.callers && w.callers[pid] == Holding(run, task, payload, n)
    requires StillLatest(w.log, run, task, n) && NormalForm(payload.body) == Ok(payload)
    ensures var w' := Next(Next(Next(w, Authorize(pid, allowed)), Send(pid, reply)), Settle(pid));
            && w'.callers == w.callers - {pid}
            && w'.posts == w.posts + (if allowed then [Post(run, task, payload, IntentId(run, task))] else [])
            && |w'.log| == |w.log| + 1 && w'.log[..|w.log|] == w.log
            && w'.log[|w.log|].run == run
            && w'.log[|w.log|].body
               == (var receipt := if allowed then reply else None;
                   var record := Record(run, task, IntentId(run, task), RequestSha(payload), receipt);
                   Body(if receipt.Some? then Submitted else Unconfirmed, record, record))
  {
    var w1 := Next(w, Authorize(pid, allowed));
    var w2 := Next(w1, Send(pid, reply));
    assert w2.log == w.log;
    assert w2.callers - {pid} == w.callers - {pid};
  }
}
