// The four review services share one transaction: find the subject's latest
// decision, return it if this very request made it, refuse a request that does not
// name it, refuse once downstream work has begun, else append.
module Reviews {
  import opened Prelude
  import opened EventLog

  /** What a decision is about: an edit, a cue's recording, a take's captions, a shot's frame. */
  datatype Subject =
    Edit(edit: string) | Recording(plan: string, shot: nat) | Captions(take: string) | Frame(task: string)

  datatype Decision = Accept | Reject

  /** `target` is the exact thing looked at: preview, take, transcript or image. */
  datatype Request = Request(subject: Subject, target: string, expected: Option<nat>, decision: Decision, note: string)

  /** `seal` is the digest stored with the decision, injective. */
  datatype Body =
    | Review(request: Request, seal: Request)
    | MasterWork
    | VideoWork(task: Option<string>)
    | Other

  type Rows = Log<Body>

  /** What the transaction's other reads found: whether the target is still the exact
      current one and, for an image, which shot it was prepared for. */
  datatype Context = Context(current: bool, shot: string, sharedReference: bool)

  datatype Outcome = Saved(event: Event<Body>) | Existing(event: Event<Body>) | Stale | Locked | Refused

  predicate Decides(e: Event<Body>, run: string, subject: Subject) {
    e.run == run && e.body.Review? && e.body.request.subject == subject
  }

  /** The subject's decisions in the order they were made. */
  function Chain(log: Rows, run: string, subject: Subject): (chain: Rows)
    ensures forall k :: 0 <= k < |chain| ==> Decides(chain[k], run, subject)
  {
    if log == [] then []
    else
      Chain(log[..|log| - 1], run, subject)
      + (if Decides(log[|log| - 1], run, subject) then [log[|log| - 1]] else [])
  }

  function Last(chain: Rows): Option<Event<Body>> {
    if chain == [] then None else Some(chain[|chain| - 1])
  }

  function IdOf(e: Option<Event<Body>>): Option<nat> {
    if e.None? then None else Some(e.value.id)
  }

  /** An entry image belongs to one shot's video; any other image to every shot's. */
  function VideoKey(image: string, context: Context): Option<string> {
    if !context.sharedReference && image == context.shot + "-entry" then Some(context.shot) else None
  }

  predicate Blocks(e: Event<Body>, run: string, subject: Subject, context: Context) {
    && e.run == run
    && match subject
       case Captions(_) => false
       case Frame(task) =>
         var key := VideoKey(task, context);
         e.body.VideoWork? && (key == None || e.body.task == None || e.body.task == key)
       case _ => e.body.MasterWork?
  }

  predicate Bound(bindings: seq<(string, string)>, run: string, subject: Subject, context: Context) {
    && subject.Frame?
    && var key := VideoKey(subject.task, context);
       exists i :: 0 <= i < |bindings| && bindings[i].0 == run && (key == None || key == Some(bindings[i].1))
  }

  predicate IsLocked(log: Rows, bindings: seq<(string, string)>, run: string, subject: Subject, context: Context) {
    (exists i :: 0 <= i < |log| && Blocks(log[i], run, subject, context)) || Bound(bindings, run, subject, context)
  }

  /** Caption review compares the whole stored decision with its own instead. */
  predicate ChecksSeal(subject: Subject) {
    !subject.Captions?
  }

  /** The transaction: the log it leaves and its answer. */
  function Reviewed(log: Rows, bindings: seq<(string, string)>, run: string, request: Request, context: Context)
    : (Rows, Outcome)
  {
    var latest := Last(Chain(log, run, request.subject));
    if !context.current then (log, Refused)
    else if latest.Some? && ChecksSeal(request.subject) && latest.value.body.seal != latest.value.body.request
    then (log, Refused)
    else if latest.Some? && latest.value.body == Review(request, request) then (log, Existing(latest.value))
    else if request.expected != IdOf(latest) then (log, Stale)
    else if IsLocked(log, bindings, run, request.subject, context) then (log, Locked)
    else
      var log' := Append(log, run, Review(request, request));
      (log', Saved(log'[|log|]))
  }

  class ReviewService {
    var rows: Rows
    var bindings: seq<(string, string)>

    constructor ()
      ensures rows == [] && bindings == []
    {
      rows := [];
      bindings := [];
    }

    method LatestDecision(run: string, subject: Subject) returns (latest: Option<Event<Body>>)
      ensures latest == Last(Chain(rows, run, subject))
    {
      latest := None;
      for i := 0 to |rows|
        invariant latest == Last(Chain(rows[..i], run, subject))
      {
        assert rows[..i + 1][..i] == rows[..i];
        if Decides(rows[i], run, subject) {
          latest := Some(rows[i]);
        }
      }
      assert rows[..|rows|] == rows;
    }

    method DownstreamExists(run: string, subject: Subject, context: Context) returns (locked: bool)
      ensures locked <==> IsLocked(rows, bindings, run, subject, context)
    {
      locked := Bound(bindings, run, subject, context);
      for i := 0 to |rows|
        invariant locked <==> Bound(bindings, run, subject, context)
                              || exists k :: 0 <= k < i && Blocks(rows[k], run, subject, context)
      {
        locked := locked || Blocks(rows[i], run, subject, context);
      }
    }

    method SaveReview(run: string, request: Request, context: Context) returns (r: Outcome)
      modifies this`rows
      ensures (rows, r) == Reviewed(old(rows), bindings, run, request, context)
    {
      if !context.current {
        return Refused;
      }
      var latest := LatestDecision(run, request.subject);
      if latest.Some? {
        LastDecides(rows, run, request.subject);
        if ChecksSeal(request.subject) && latest.value.body.seal != latest.value.body.request {
          return Refused;
        }
        if latest.value.body == Review(request, request) {
          return Existing(latest.value);
        }
      }
      if request.expected != (if latest.None? then None else Some(latest.value.id)) {
        return Stale;
      }
      var locked := DownstreamExists(run, request.subject, context);
      if locked {
        return Locked;
      }
      var sequence := NextSequence(rows, run);
      rows := rows + [Event(|rows|, run, sequence, Review(request, request))];
      return Saved(rows[|rows| - 1]);
    }
  }

  lemma {:induction false} LastDecides(log: Rows, run: string, subject: Subject)
    ensures Last(Chain(log, run, subject)).Some? ==>
              Decides(Last(Chain(log, run, subject)).value, run, subject)
  {
  }

  // ------------------------------------------------------------- interleavings

  datatype World = World(rows: Rows, bindings: seq<(string, string)>)

  /** Each is one transaction; everything between transactions interleaves freely. */
  datatype Action =
    | Submit(run: string, request: Request, context: Context)
    | Elsewhere(run: string, body: Body)
    | Bind(run: string, task: string)

  const START := World([], [])

  function Next(w: World, a: Action): World {
    match a
    case Submit(run, request, context) => w.(rows := Reviewed(w.rows, w.bindings, run, request, context).0)
    case Elsewhere(run, body) => if body.Review? then w else w.(rows := Append(w.rows, run, body))
    case Bind(run, task) => w.(bindings := w.bindings + [(run, task)])
  }

  function Run(actions: seq<Action>): World {
    if actions == [] then START else Next(Run(actions[..|actions| - 1]), actions[|actions| - 1])
  }

  // ----------------------------------------------------------------- invariant

  /** Each decision names the one before it, and was sealed over its own request. */
  predicate Linked(chain: Rows) {
    && (forall k :: 0 <= k < |chain| ==> chain[k].body.Review? && chain[k].body.seal == chain[k].body.request)
    && (chain != [] ==> chain[0].body.request.expected == None)
    && (forall k, j :: 1 <= k < |chain| && j == k - 1 ==> chain[k].body.request.expected == Some(chain[j].id))
  }

  /** Ids grow along the chain and stay below the log's length. */
  predicate Rising(chain: Rows, bound: nat) {
    && (forall k :: 0 <= k < |chain| ==> chain[k].id < bound)
    && (forall j, k :: 0 <= j < k < |chain| ==> chain[j].id < chain[k].id)
  }

  ghost predicate Sound(w: World) {
    && Numbered(w.rows)
    && forall run: string, subject: Subject :: ChainOk(w.rows, run, subject)
  }

  ghost predicate ChainOk(rows: Rows, run: string, subject: Subject) {
    Linked(Chain(rows, run, subject)) && Rising(Chain(rows, run, subject), |rows|)
  }

  lemma LinkedSnoc(chain: Rows, e: Event<Body>, bound: nat)
    requires Linked(chain) && Rising(chain, bound) && e.id == bound
    requires e.body.Review? && e.body.seal == e.body.request && e.body.request.expected == IdOf(Last(chain))
    ensures Linked(chain + [e]) && Rising(chain + [e], bound + 1)
  {
  }

  lemma {:induction false} AppendKeepsChain(rows: Rows, run: string, body: Body, r: string, subject: Subject)
    requires ChainOk(rows, r, subject)
    requires body.Review? && r == run && body.request.subject == subject ==>
               body.seal == body.request && body.request.expected == IdOf(Last(Chain(rows, run, subject)))
    ensures ChainOk(Append(rows, run, body), r, subject)
  {
    var e := Append(rows, run, body)[|rows|];
    if Decides(e, r, subject) {
      LinkedSnoc(Chain(rows, r, subject), e, |rows|);
    }
  }

  lemma AppendKeepsSound(w: World, run: string, body: Body)
    requires Sound(w)
    requires body.Review? ==>
               body.seal == body.request
                   && body.request.expected == IdOf(Last(Chain(w.rows, run, body.request.subject)))
    ensures Sound(w.(rows := Append(w.rows, run, body)))
  {
    AppendKeepsNumbered(w.rows, run, body);
    forall r: string, subject: Subject ensures ChainOk(Append(w.rows, run, body), r, subject) {
      AppendKeepsChain(w.rows, run, body, r, subject);
    }
  }

  lemma NextKeepsSound(w: World, a: Action)
    requires Sound(w)
    ensures Sound(Next(w, a))
  {
    match a
    case Submit(run, request, context) =>
      if Reviewed(w.rows, w.bindings, run, request, context).1.Saved? {
        AppendKeepsSound(w, run, Review(request, request));
      }
    case Elsewhere(run, body) => if !body.Review? { AppendKeepsSound(w, run, body); }
    case Bind(_, _) =>
  }

  lemma {:induction false} EveryRunIsSound(actions: seq<Action>)
    ensures Sound(Run(actions))
  {
    if actions == [] {
    } else {
      EveryRunIsSound(actions[..|actions| - 1]);
      NextKeepsSound(Run(actions[..|actions| - 1]), actions[|actions| - 1]);
    }
  }

  // --------------------------------------------------------------- main results

  /** A subject's decisions are one chain: each names the one before it. */
  lemma {:induction false} DecisionsFormOneChain(actions: seq<Action>, run: string, subject: Subject)
    ensures Linked(Chain(Run(actions).rows, run, subject))
  {
    EveryRunIsSound(actions);
    assert ChainOk(Run(actions).rows, run, subject);
  }

  /** No request is ever saved twice, however often and whenever it is repeated. */
  lemma NoRequestIsSavedTwice(actions: seq<Action>, run: string, subject: Subject, j: nat, k: nat)
    requires j < k < |Chain(Run(actions).rows, run, subject)|
    ensures var chain := Chain(Run(actions).rows, run, subject); chain[j].body.request != chain[k].body.request
  {
    EveryRunIsSound(actions);
    var chain := Chain(Run(actions).rows, run, subject);
    assert ChainOk(Run(actions).rows, run, subject);
    var previous := k - 1;
    assert chain[k].body.request.expected == Some(chain[previous].id);
    if j > 0 {
      var earlier := j - 1;
      assert chain[j].body.request.expected == Some(chain[earlier].id);
    }
  }

  /** Every run's events, reviews and others alike, are numbered 1..n without gaps. */
  lemma {:induction false} SequencesHaveNoGaps(actions: seq<Action>, run: string, k: nat)
    requires k < |OfRun(Run(actions).rows, run)|
    ensures OfRun(Run(actions).rows, run)[k].sequence == k + 1
  {
    EveryRunIsSound(actions);
  }

  lemma SavedIsLatest(w: World, run: string, request: Request, context: Context, saved: Event<Body>)
    requires Reviewed(w.rows, w.bindings, run, request, context).1 == Saved(saved)
    ensures saved.body == Review(request, request)
    ensures Last(Chain(Reviewed(w.rows, w.bindings, run, request, context).0, run, request.subject)) == Some(saved)
  {
  }

  /** Repeating the latest request returns its event and writes nothing, even after
      downstream work has locked the subject. */
  lemma {:induction false} RetryReturnsTheSameEvent(w: World, run: string, request: Request, context: Context,
                                                    saved: Event<Body>, again: Context,
                                                    work: seq<(string, Body)>, bindings: seq<(string, string)>)
    requires Reviewed(w.rows, w.bindings, run, request, context).1 == Saved(saved)
    requires again.current && forall i :: 0 <= i < |work| ==> Apart(work[i], run, request.subject)
    ensures var later := Happened(Reviewed(w.rows, w.bindings, run, request, context).0, work);
            Reviewed(later, bindings, run, request, again) == (later, Existing(saved))
  {
    var rows := Reviewed(w.rows, w.bindings, run, request, context).0;
    SavedIsLatest(w, run, request, context, saved);
    WorkLeavesChains(rows, work, run, request.subject);
  }

  /** Any event but a decision on this subject. */
  predicate Apart(work: (string, Body), run: string, subject: Subject) {
    !(work.0 == run && work.1.Review? && work.1.request.subject == subject)
  }

  /** Events appended one by one. */
  function Happened(rows: Rows, work: seq<(string, Body)>): Rows {
    if work == [] then rows
    else
      var (run, body) := work[|work| - 1];
      Append(Happened(rows, work[..|work| - 1]), run, body)
  }

  lemma {:induction false} WorkLeavesChains(rows: Rows, work: seq<(string, Body)>, run: string, subject: Subject)
    requires forall i :: 0 <= i < |work| ==> Apart(work[i], run, subject)
    ensures Chain(Happened(rows, work), run, subject) == Chain(rows, run, subject)
  {
    if work != [] {
      var before := Happened(rows, work[..|work| - 1]);
      WorkLeavesChains(rows, work[..|work| - 1], run, subject);
    }
  }

  /** Chains only grow, at the end, and so does the log. */
  lemma NextGrows(w: World, a: Action, run: string, subject: Subject)
    ensures w.rows <= Next(w, a).rows
    ensures Chain(w.rows, run, subject) <= Chain(Next(w, a).rows, run, subject)
  {
  }

  lemma {:induction false} RunSplit(start: seq<Action>, more: seq<Action>)
    requires more != []
    ensures Run(start + more) == Next(Run(start + more[..|more| - 1]), more[|more| - 1])
  {
    assert (start + more)[..|start + more| - 1] == start + more[..|more| - 1];
  }

  lemma {:induction false} ChainsGrow(start: seq<Action>, more: seq<Action>, run: string, subject: Subject)
    ensures Chain(Run(start).rows, run, subject) <= Chain(Run(start + more).rows, run, subject)
  {
    if more == [] {
      assert start + more == start;
    } else {
      var n := |more| - 1;
      ChainsGrow(start, more[..n], run, subject);
      RunSplit(start, more);
      NextGrows(Run(start + more[..n]), more[n], run, subject);
    }
  }

  lemma LongerChainHasAnotherEnd(before: Rows, chain: Rows, bound: nat)
    requires before <= chain && |before| < |chain| && Rising(chain, bound)
    ensures IdOf(Last(chain)) != IdOf(Last(before))
  {
  }

  lemma SavedNamesTheLatest(w: World, run: string, request: Request, context: Context)
    requires Reviewed(w.rows, w.bindings, run, request, context).1.Saved?
    ensures request.expected == IdOf(Last(Chain(w.rows, run, request.subject)))
    ensures var rows' := Next(w, Submit(run, request, context)).rows;
            |Chain(rows', run, request.subject)| > |Chain(w.rows, run, request.subject)|
            && Chain(w.rows, run, request.subject) <= Chain(rows', run, request.subject)
  {
  }

  /** Two writers who both saw the same decision: once one of them has saved, the
      other is never saved, whatever happens in between. */
  lemma StaleWriterNeverSaves(start: seq<Action>, more: seq<Action>, run: string, request: Request, context: Context,
                              rival: Request, rivalContext: Context)
    requires Reviewed(Run(start).rows, Run(start).bindings, run, request, context).1.Saved?
    requires rival.subject == request.subject && rival.expected == request.expected
    ensures var w := Run(start + [Submit(run, request, context)] + more);
            !Reviewed(w.rows, w.bindings, run, rival, rivalContext).1.Saved?
  {
    var saved := start + [Submit(run, request, context)];
    assert Run(saved) == Next(Run(start), Submit(run, request, context));
    SavedNamesTheLatest(Run(start), run, request, context);
    ChainsGrow(saved, more, run, request.subject);
    EveryRunIsSound(saved + more);
    assert ChainOk(Run(saved + more).rows, run, request.subject);
    LongerChainHasAnotherEnd(Chain(Run(start).rows, run, request.subject),
                             Chain(Run(saved + more).rows, run, request.subject), |Run(saved + more).rows|);
  }

  /** From then on no decision of this subject is saved. */
  predicate Freezes(subject: Subject) {
    subject.Edit? || subject.Recording?
  }

  lemma NextKeepsFrozen(w: World, a: Action, run: string, subject: Subject, i: nat)
    requires Freezes(subject) && i < |w.rows| && w.rows[i].run == run && w.rows[i].body.MasterWork?
    ensures Chain(Next(w, a).rows, run, subject) == Chain(w.rows, run, subject)
  {
  }

  /** Once master work exists in the run, its edit and recording decisions are final. */
  lemma {:induction false} MasterWorkFreezesDecisions(start: seq<Action>, more: seq<Action>, run: string,
                                                      subject: Subject, i: nat)
    requires Freezes(subject) && i < |Run(start).rows|
    requires Run(start).rows[i].run == run && Run(start).rows[i].body.MasterWork?
    ensures Run(start).rows <= Run(start + more).rows
    ensures Chain(Run(start + more).rows, run, subject) == Chain(Run(start).rows, run, subject)
  {
    if more == [] {
      assert start + more == start;
    } else {
      var n := |more| - 1;
      MasterWorkFreezesDecisions(start, more[..n], run, subject, i);
      RunSplit(start, more);
      NextGrows(Run(start + more[..n]), more[n], run, subject);
      NextKeepsFrozen(Run(start + more[..n]), more[n], run, subject, i);
    }
  }

  /** Video work that concerns an image: `key` is its shot, None for an image every shot uses. */
  predicate StartsVideo(a: Action, run: string, key: Option<string>) {
    || (a.Elsewhere? && a.run == run && a.body.VideoWork? && (key == None || a.body.task == None || a.body.task == key))
    || (a.Bind? && a.run == run && (key == None || key == Some(a.task)))
  }

  lemma NextLocks(w: World, a: Action, run: string, image: string, context: Context)
    ensures var w' := Next(w, a);
            IsLocked(w'.rows, w'.bindings, run, Frame(image), context) <==>
              IsLocked(w.rows, w.bindings, run, Frame(image), context) || StartsVideo(a, run, VideoKey(image, context))
  {
    var w' := Next(w, a);
    assert w.rows <= w'.rows && w.bindings <= w'.bindings;
    if a.Elsewhere? && !a.body.Review? {
      assert w'.rows[|w.rows|].body == a.body;
    }
    if a.Bind? {
      assert w'.bindings[|w.bindings|] == (a.run, a.task);
    }
  }

  /** In every reachable state a frame is locked exactly when some earlier step was video
      work for its own shot, or for a shot left unnamed, or, for an image shared between
      shots, any at all: one shot's work never locks another's entry image. */
  lemma {:induction false} OneShotLocksOnlyItsFrames(actions: seq<Action>, run: string, image: string, context: Context)
    ensures IsLocked(Run(actions).rows, Run(actions).bindings, run, Frame(image), context)
            <==> exists i :: 0 <= i < |actions| && StartsVideo(actions[i], run, VideoKey(image, context))
  {
    if actions != [] {
      var n := |actions| - 1;
      OneShotLocksOnlyItsFrames(actions[..n], run, image, context);
      NextLocks(Run(actions[..n]), actions[n], run, image, context);
      assert actions == actions[..n] + [actions[n]];
    }
  }

  // --------------------------------------------------- the verdict on a request

  /** The subject's latest decision is row i of the log. */
  predicate DecidedAt(log: Rows, run: string, subject: Subject, i: nat) {
    && i < |log| && log[i].run == run && log[i].body.Review? && log[i].body.request.subject == subject
    && forall j :: i < j < |log| ==>
         !(log[j].run == run && log[j].body.Review? && log[j].body.request.subject == subject)
  }

  predicate Undecided(log: Rows, run: string, subject: Subject) {
    forall j :: 0 <= j < |log| ==> !(log[j].run == run && log[j].body.Review? && log[j].body.request.subject == subject)
  }

  lemma {:induction false} DecidedAtIsLast(log: Rows, run: string, subject: Subject, i: nat)
    requires DecidedAt(log, run, subject, i)
    ensures Last(Chain(log, run, subject)) == Some(log[i])
  {
    if i < |log| - 1 {
      DecidedAtIsLast(log[..|log| - 1], run, subject, i);
    }
  }

  lemma {:induction false} UndecidedHasNoChain(log: Rows, run: string, subject: Subject)
    requires Undecided(log, run, subject)
    ensures Chain(log, run, subject) == []
  {
    if log != [] {
      UndecidedHasNoChain(log[..|log| - 1], run, subject);
    }
  }

  /** Work has begun that a new decision would contradict: master work for an edit or a
      recording, video work using it for a frame, nothing for captions. A frame is used by
      its own shot alone when it is that shot's entry image and no shared reference. */
  predicate WorkBegun(w: World, run: string, subject: Subject, context: Context) {
    match subject
    case Captions(_) => false
    case Edit(_) => exists i :: 0 <= i < |w.rows| && w.rows[i].run == run && w.rows[i].body == MasterWork
    case Recording(_, _) => exists i :: 0 <= i < |w.rows| && w.rows[i].run == run && w.rows[i].body == MasterWork
    case Frame(image) =>
      var anyShot := context.sharedReference || image != context.shot + "-entry";
      || (exists i :: 0 <= i < |w.rows| && w.rows[i].run == run && w.rows[i].body.VideoWork?
                      && (anyShot || w.rows[i].body.task in {None, Some(context.shot)}))
      || (exists i :: 0 <= i < |w.bindings| && w.bindings[i].0 == run && (anyShot || w.bindings[i].1 == context.shot))
  }

  lemma WorkBegunIs(w: World, run: string, subject: Subject, context: Context)
    ensures IsLocked(w.rows, w.bindings, run, subject, context) <==> WorkBegun(w, run, subject, context)
  {
  }

  /** The log with exactly this decision appended. */
  predicate Appended(rows: Rows, rows': Rows, run: string, request: Request) {
    && |rows'| == |rows| + 1 && rows'[..|rows|] == rows
    && rows'[|rows|].id == |rows| && rows'[|rows|].run == run && rows'[|rows|].body == Review(request, request)
  }

  /** The first decision on a subject is saved exactly when its target is current, the
      request names no earlier decision and no work contradicts it. */
  lemma FirstDecisionVerdict(w: World, run: string, request: Request, context: Context)
    requires Undecided(w.rows, run, request.subject)
    ensures var w', outcome := Next(w, Submit(run, request, context)),
                               Reviewed(w.rows, w.bindings, run, request, context).1;
            && (outcome.Saved? <==>
                context.current && request.expected == None && !WorkBegun(w, run, request.subject, context))
            && !outcome.Existing?
            && (if outcome.Saved? then Appended(w.rows, w'.rows, run, request) && outcome.event == w'.rows[|w.rows|]
                else w' == w)
  {
    UndecidedHasNoChain(w.rows, run, request.subject);
    WorkBegunIs(w, run, request.subject, context);
  }

  /** A further decision: the latest one is returned for exactly its own request, and a new
      one is saved exactly when the target is current, the latest decision's seal stands,
      the request names it and no work contradicts it. Anything else leaves the log as it was. */
  lemma NextDecisionVerdict(w: World, run: string, request: Request, context: Context, i: nat)
    requires DecidedAt(w.rows, run, request.subject, i)
    ensures var w', outcome := Next(w, Submit(run, request, context)),
                               Reviewed(w.rows, w.bindings, run, request, context).1;
            var latest := w.rows[i];
            && (outcome.Saved? <==>
                && context.current
                && (request.subject.Captions? || latest.body.seal == latest.body.request)
                && !(latest.body.request == request && latest.body.seal == request)
                && request.expected == Some(latest.id)
                && !WorkBegun(w, run, request.subject, context))
            && (outcome.Existing? <==>
                context.current && latest.body.request == request && latest.body.seal == request)
            && (outcome.Existing? ==> outcome.event == latest)
            && (if outcome.Saved? then Appended(w.rows, w'.rows, run, request) && outcome.event == w'.rows[|w.rows|]
                else w' == w)
  {
    DecidedAtIsLast(w.rows, run, request.subject, i);
    WorkBegunIs(w, run, request.subject, context);
  }
}
