// Image and video estimates draw on one run budget. Each reservation is a single
// transaction over both kinds of event; the total it records is the run's total.
module ImageBudget {
  import opened Prelude
  import opened EventLog

  datatype Media = Image | Video

  /** A saved estimate; `total` is what the reservation recorded as the run's sum. */
  datatype Record = Record(run: string, media: Media, task: string, preparation: string, inputs: string,
                           quote: Option<string>, credits: int, total: int)

  /** `seal` is the digest stored with the record, injective. */
  datatype Body = Estimate(record: Record, seal: Record) | Other

  type Rows = Log<Body>

  datatype Request = Request(media: Media, task: string, preparation: string, inputs: string, quote: Option<string>,
                             credits: int, confirmed: int)

  /** What the transaction reads besides the reservations: eligibility and unchanged inputs, an
      image submission already made for the task, the tasks with provider bindings. */
  datatype Context = Context(eligible: bool, budget: Option<int>, submitted: bool, bound: seq<string>)

  datatype Outcome = Reserved(event: Event<Body>) | Existing(event: Event<Body>) | Refused

  /** The run's reservations of both media, oldest first. */
  function Estimates(log: Rows, run: string): (es: Rows)
    ensures forall k :: 0 <= k < |es| ==> es[k].run == run && es[k].body.Estimate?
  {
    if log == [] then []
    else
      var last := log[|log| - 1];
      Estimates(log[..|log| - 1], run) + (if last.run == run && last.body.Estimate? then [last] else [])
  }

  function TotalOf(es: Rows): int
    requires forall k :: 0 <= k < |es| ==> es[k].body.Estimate?
  {
    if es == [] then 0 else TotalOf(es[..|es| - 1]) + es[|es| - 1].body.record.credits
  }

  predicate IntactEstimate(e: Event<Body>, run: string) {
    e.body.Estimate? && e.body.record.run == run && e.body.seal == e.body.record && e.body.record.credits > 0
  }

  predicate AllIntact(es: Rows, run: string) {
    forall k :: 0 <= k < |es| ==> IntactEstimate(es[k], run)
  }

  /** len(keys) == len(reservations) */
  predicate DistinctTasks(es: Rows)
    requires forall k :: 0 <= k < |es| ==> es[k].body.Estimate?
  {
    forall j, k :: 0 <= j < k < |es| ==> es[j].body.record.task != es[k].body.record.task
  }

  function FirstFor(es: Rows, task: string): Option<Event<Body>>
    requires forall k :: 0 <= k < |es| ==> es[k].body.Estimate?
  {
    if es == [] then None
    else
      var before := FirstFor(es[..|es| - 1], task);
      if before.Some? then before
      else if es[|es| - 1].body.record.task == task then Some(es[|es| - 1]) else None
  }

  predicate SameApproval(e: Event<Body>, request: Request)
    requires e.body.Estimate?
  {
    var r := e.body.record;
    && r.inputs == request.inputs && r.credits == request.credits
    && match request.media
       case Image => r.media == Image && r.preparation == request.preparation
       case Video => r.quote == request.quote
  }

  predicate TaskReserved(es: Rows, task: string)
    requires forall k :: 0 <= k < |es| ==> es[k].body.Estimate?
  {
    exists k :: 0 <= k < |es| && es[k].body.record.task == task
  }

  /** What each service looks at beyond the reservations before it spends. */
  predicate MediaAllows(request: Request, context: Context) {
    match request.media
    case Image => !context.submitted
    case Video => true
  }

  predicate BindingsReserved(es: Rows, request: Request, context: Context)
    requires forall k :: 0 <= k < |es| ==> es[k].body.Estimate?
  {
    request.media == Video ==> forall i :: 0 <= i < |context.bound| ==> TaskReserved(es, context.bound[i])
  }

  /** The run's estimates are as they were written, one to a task, and fit the budget. */
  predicate InOrder(es: Rows, run: string, request: Request, context: Context)
    requires forall k :: 0 <= k < |es| ==> es[k].body.Estimate?
  {
    && AllIntact(es, run) && DistinctTasks(es) && TotalOf(es) <= request.confirmed
    && BindingsReserved(es, request, context)
  }

  function NewRecord(run: string, request: Request, total: int): Record {
    Record(run, request.media, request.task, request.preparation, request.inputs, request.quote, request.credits, total)
  }

  function Spend(log: Rows, run: string, request: Request, context: Context, total: int): (Rows, Outcome) {
    if !MediaAllows(request, context) || total > request.confirmed then (log, Refused)
    else
      var log' := Append(log, run, Estimate(NewRecord(run, request, total), NewRecord(run, request, total)));
      (log', Reserved(log'[|log|]))
  }

  function Reserve(log: Rows, run: string, request: Request, context: Context): (Rows, Outcome) {
    var es := Estimates(log, run);
    if !context.eligible || request.credits <= 0 || context.budget != Some(request.confirmed) then (log, Refused)
    else if !InOrder(es, run, request, context) then (log, Refused)
    else
      match FirstFor(es, request.task)
      case Some(prior) =>
        (log, if prior.body.Estimate? && SameApproval(prior, request) then Existing(prior) else Refused)
      case None => Spend(log, run, request, context, TotalOf(es) + request.credits)
  }

  class BudgetService {
    var rows: Rows

    constructor ()
      ensures rows == []
    {
      rows := [];
    }

    method Reservations(run: string) returns (es: Rows)
      ensures es == Estimates(rows, run)
    {
      es := [];
      for i := 0 to |rows|
        invariant es == Estimates(rows[..i], run)
      {
        assert rows[..i + 1][..i] == rows[..i];
        if rows[i].run == run && rows[i].body.Estimate? {
          es := es + [rows[i]];
        }
      }
      assert rows[..|rows|] == rows;
    }

    method SumAndFind(es: Rows, task: string) returns (total: int, prior: Option<Event<Body>>)
      requires forall k :: 0 <= k < |es| ==> es[k].body.Estimate?
      ensures total == TotalOf(es) && prior == FirstFor(es, task)
    {
      total, prior := 0, None;
      for i := 0 to |es|
        invariant total == TotalOf(es[..i]) && prior == FirstFor(es[..i], task)
      {
        assert es[..i + 1][..i] == es[..i];
        total := total + es[i].body.record.credits;
        if prior.None? && es[i].body.record.task == task {
          prior := Some(es[i]);
        }
      }
      assert es[..|es|] == es;
    }

    method ReserveEstimate(run: string, request: Request, context: Context) returns (r: Outcome)
      modifies this
      ensures (rows, r) == Reserve(old(rows), run, request, context)
    {
      if !context.eligible || request.credits <= 0 || context.budget != Some(request.confirmed) {
        return Refused;
      }
      var es := Reservations(run);
      var total, prior := SumAndFind(es, request.task);
      if !InOrder(es, run, request, context) {
        return Refused;
      }
      if prior.Some? {
        return if prior.value.body.Estimate? && SameApproval(prior.value, request) then Existing(prior.value)
            else Refused;
      }
      total := total + request.credits;
      if !MediaAllows(request, context) || total > request.confirmed {
        return Refused;
      }
      var record := NewRecord(run, request, total);
      var sequence := NextSequence(rows, run);
      rows := rows + [Event(|rows|, run, sequence, Estimate(record, record))];
      return Reserved(rows[|rows| - 1]);
    }
  }

  // ------------------------------------------------------------- interleavings

  datatype Action = Ask(run: string, request: Request, context: Context) | Elsewhere(run: string)

  function Next(log: Rows, a: Action): Rows {
    match a
    case Ask(run, request, context) => Reserve(log, run, request, context).0
    case Elsewhere(run) => Append(log, run, Other)
  }

  function Run(actions: seq<Action>): Rows {
    if actions == [] then [] else Next(Run(actions[..|actions| - 1]), actions[|actions| - 1])
  }

  /** Every reservation recorded the sum up to and including itself. */
  predicate TotalsRecorded(es: Rows)
    requires forall k :: 0 <= k < |es| ==> es[k].body.Estimate?
  {
    es == [] || (TotalsRecorded(es[..|es| - 1]) && es[|es| - 1].body.record.total == TotalOf(es))
  }

  predicate LedgerOk(es: Rows, run: string)
    requires forall k :: 0 <= k < |es| ==> es[k].body.Estimate?
  {
    AllIntact(es, run) && DistinctTasks(es) && TotalsRecorded(es)
  }

  ghost predicate Sound(log: Rows) {
    forall run: string :: LedgerOk(Estimates(log, run), run)
  }

  lemma {:induction false} EstimatesAppend(log: Rows, e: Event<Body>, run: string)
    ensures Estimates(log + [e], run)
            == if e.run == run && e.body.Estimate? then Estimates(log, run) + [e] else Estimates(log, run)
  {
  }

  lemma {:induction false} FirstForFinds(es: Rows, task: string)
    requires forall k :: 0 <= k < |es| ==> es[k].body.Estimate?
    ensures FirstFor(es, task).None? <==> !TaskReserved(es, task)
    ensures FirstFor(es, task).Some? ==>
        exists k :: 0 <= k < |es| && es[k] == FirstFor(es, task).value && es[k].body.record.task == task
  {
    if es != [] {
      var n := |es| - 1;
      FirstForFinds(es[..n], task);
    }
  }

  lemma {:induction false} ReservedKeepsLedger(es: Rows, run: string, e: Event<Body>)
    requires forall k :: 0 <= k < |es| ==> es[k].body.Estimate?
    requires LedgerOk(es, run) && IntactEstimate(e, run) && !TaskReserved(es, e.body.record.task)
    requires e.body.record.total == TotalOf(es) + e.body.record.credits
    ensures LedgerOk(es + [e], run)
  {
    assert (es + [e])[..|es|] == es;
  }

  /** What a successful transaction appended, and why it fits. */
  predicate Fits(log: Rows, log': Rows, e: Event<Body>, run: string, request: Request, context: Context) {
    var es := Estimates(log, run);
    && log' == log + [e] && e.run == run && IntactEstimate(e, run)
    && e.body.record == NewRecord(run, request, TotalOf(es) + request.credits)
    && !TaskReserved(es, request.task)
    && TotalOf(es) + request.credits <= request.confirmed && context.budget == Some(request.confirmed)
  }

  lemma ReservedFits(log: Rows, run: string, request: Request, context: Context)
    requires Reserve(log, run, request, context).1.Reserved?
    ensures var (log', outcome) := Reserve(log, run, request, context);
            Fits(log, log', outcome.event, run, request, context)
  {
    FirstForFinds(Estimates(log, run), request.task);
  }

  lemma ReservedIs(log: Rows, run: string, request: Request, context: Context)
    requires Reserve(log, run, request, context).1.Reserved?
    ensures var (log', outcome) := Reserve(log, run, request, context);
            && Fits(log, log', outcome.event, run, request, context)
            && Estimates(log', run) == Estimates(log, run) + [outcome.event]
  {
    ReservedFits(log, run, request, context);
  }

  lemma AskKeepsSound(log: Rows, run: string, request: Request, context: Context)
    requires Sound(log)
    ensures Sound(Reserve(log, run, request, context).0)
  {
    var (log', outcome) := Reserve(log, run, request, context);
    if outcome.Reserved? {
      ReservedIs(log, run, request, context);
      forall r: string ensures LedgerOk(Estimates(log', r), r) {
        if r == run {
          ReservedKeepsLedger(Estimates(log, run), run, outcome.event);
        } else {
          EstimatesAppend(log, outcome.event, r);
        }
      }
    }
  }

  lemma ElsewhereKeepsSound(log: Rows, run: string)
    requires Sound(log)
    ensures Sound(Append(log, run, Other))
  {
    forall r: string ensures LedgerOk(Estimates(Append(log, run, Other), r), r) {
      EstimatesAppend(log, Append(log, run, Other)[|log|], r);
    }
  }

  lemma NextKeepsSound(log: Rows, a: Action)
    requires Sound(log)
    ensures Sound(Next(log, a))
  {
    match a
    case Ask(run, request, context) => AskKeepsSound(log, run, request, context);
    case Elsewhere(run) => ElsewhereKeepsSound(log, run);
  }

  lemma {:induction false} EveryRunIsSound(actions: seq<Action>)
    ensures Sound(Run(actions))
  {
    if actions != [] {
      EveryRunIsSound(actions[..|actions| - 1]);
      NextKeepsSound(Run(actions[..|actions| - 1]), actions[|actions| - 1]);
    }
  }

  // --------------------------------------------------------------- main results

  /** After every successful reservation the run's image and video estimates add up to
      the total it recorded, that total is within the budget confirmed, and every task
      has one estimate. */
  lemma {:induction false} ReservationStaysWithinBudget(actions: seq<Action>, run: string, request: Request,
                                                        context: Context)
    requires Reserve(Run(actions), run, request, context).1.Reserved?
    ensures var (log', outcome) := Reserve(Run(actions), run, request, context);
            var es := Estimates(log', run);
            && outcome.event.body.Estimate?
            && TotalOf(es) == outcome.event.body.record.total <= request.confirmed
            && context.budget == Some(request.confirmed)
            && DistinctTasks(es)
  {
    EveryRunIsSound(actions);
    AskKeepsSound(Run(actions), run, request, context);
  }

  /** In every reachable state, whoever reserved last, the last total recorded is the sum. */
  lemma {:induction false} LastTotalIsTheSum(actions: seq<Action>, run: string)
    ensures var es := Estimates(Run(actions), run);
            es != [] ==> TotalOf(es) == es[|es| - 1].body.record.total
  {
    EveryRunIsSound(actions);
  }

  lemma {:induction false} NextKeepsEstimates(log: Rows, a: Action, run: string)
    ensures Estimates(log, run) <= Estimates(Next(log, a), run)
  {
  }

  lemma {:induction false} RunSplit(start: seq<Action>, more: seq<Action>)
    requires more != []
    ensures Run(start + more) == Next(Run(start + more[..|more| - 1]), more[|more| - 1])
  {
    assert (start + more)[..|start + more| - 1] == start + more[..|more| - 1];
  }

  /** The log is only appended to, and so are a run's reservations. */
  lemma {:induction false} EstimatesStay(start: seq<Action>, more: seq<Action>, run: string)
    ensures Estimates(Run(start), run) <= Estimates(Run(start + more), run)
  {
    if more == [] {
      assert start + more == start;
    } else {
      var n := |more| - 1;
      EstimatesStay(start, more[..n], run);
      RunSplit(start, more);
      NextKeepsEstimates(Run(start + more[..n]), more[n], run);
    }
  }

  lemma {:induction false} FirstForStays(es: Rows, more: Rows, task: string)
    requires es <= more && forall k :: 0 <= k < |more| ==> more[k].body.Estimate?
    requires FirstFor(es, task).Some?
    ensures FirstFor(more, task) == FirstFor(es, task)
    decreases |more|
  {
    if |es| < |more| {
      FirstForStays(es, more[..|more| - 1], task);
    } else {
      assert es == more;
    }
  }

  /** With an estimate for the task on record, asking again spends nothing. */
  lemma OnRecordNeverSpends(log: Rows, run: string, request: Request, context: Context, prior: Event<Body>)
    requires FirstFor(Estimates(log, run), request.task) == Some(prior)
    ensures var (log', outcome) := Reserve(log, run, request, context);
            log' == log && (outcome == Existing(prior) || outcome == Refused)
  {
  }

  lemma {:induction false} FirstForSnoc(es: Rows, e: Event<Body>, task: string)
    requires e.body.Estimate? && forall k :: 0 <= k < |es| ==> es[k].body.Estimate?
    requires !TaskReserved(es, task) && e.body.record.task == task
    ensures FirstFor(es + [e], task) == Some(e)
  {
    FirstForFinds(es, task);
  }

  /** Repeating an approval, now or after anything else happened, never spends again: it
      is answered with the event it made, or refused. */
  lemma RepeatNeverSpends(start: seq<Action>, more: seq<Action>, run: string, request: Request, context: Context,
                          again: Context)
    requires Reserve(Run(start), run, request, context).1.Reserved?
    ensures var first := Reserve(Run(start), run, request, context).1.event;
            var later := Run(start + [Ask(run, request, context)] + more);
            && Reserve(later, run, request, again).0 == later
            && (Reserve(later, run, request, again).1 == Existing(first)
                || Reserve(later, run, request, again).1 == Refused)
  {
    var asked := start + [Ask(run, request, context)];
    RunSplit(start, [Ask(run, request, context)]);
    var first := Reserve(Run(start), run, request, context).1.event;
    ReservedIs(Run(start), run, request, context);
    EstimatesStay(asked, more, run);
    FirstForStays(Estimates(Run(asked), run), Estimates(Run(asked + more), run), request.task);
    OnRecordNeverSpends(Run(asked + more), run, request, again, first);
  }

  lemma {:induction false} TotalSnoc(es: Rows, e: Event<Body>)
    requires e.body.Estimate? && forall k :: 0 <= k < |es| ==> es[k].body.Estimate?
    ensures TotalOf(es + [e]) == TotalOf(es) + e.body.record.credits
  {
    assert (es + [e])[..|es|] == es;
  }

  lemma BindingsStayReserved(es: Rows, e: Event<Body>, request: Request, context: Context)
    requires e.body.Estimate? && forall k :: 0 <= k < |es| ==> es[k].body.Estimate?
    requires BindingsReserved(es, request, context)
    ensures BindingsReserved(es + [e], request, context)
  {
    if request.media == Video {
      forall i | 0 <= i < |context.bound| ensures TaskReserved(es + [e], context.bound[i]) {
        TaskReservedSnoc(es, e, context.bound[i]);
      }
    }
  }

  lemma StillInOrder(es: Rows, e: Event<Body>, run: string, request: Request, context: Context)
    requires forall k :: 0 <= k < |es| ==> es[k].body.Estimate?
    requires InOrder(es, run, request, context) && IntactEstimate(e, run)
    requires !TaskReserved(es, e.body.record.task) && TotalOf(es) + e.body.record.credits <= request.confirmed
    ensures InOrder(es + [e], run, request, context)
  {
    LedgerSnoc(es, run, e);
    TotalSnoc(es, e);
    BindingsStayReserved(es, e, request, context);
  }

  lemma ReservedWasInOrder(log: Rows, run: string, request: Request, context: Context)
    requires Reserve(log, run, request, context).1.Reserved?
    ensures InOrder(Estimates(log, run), run, request, context)
    ensures context.eligible && request.credits > 0 && context.budget == Some(request.confirmed)
  {
  }

  /** And at once, with the same budget, it is answered rather than refused. */
  lemma ImmediateRepeatReturnsIt(log: Rows, run: string, request: Request, context: Context)
    requires Reserve(log, run, request, context).1.Reserved?
    ensures var (log', outcome) := Reserve(log, run, request, context);
            Reserve(log', run, request, context) == (log', Existing(outcome.event))
  {
    var (log', outcome) := Reserve(log, run, request, context);
    var es := Estimates(log, run);
    ReservedIs(log, run, request, context);
    ReservedWasInOrder(log, run, request, context);
    StillInOrder(es, outcome.event, run, request, context);
    FirstForSnoc(es, outcome.event, request.task);
    OnRecordAnswers(log', run, request, context, outcome.event);
  }

  lemma OnRecordAnswers(log: Rows, run: string, request: Request, context: Context, prior: Event<Body>)
    requires var es := Estimates(log, run);
             && FirstFor(es, request.task) == Some(prior) && prior.body.Estimate? && SameApproval(prior, request)
             && InOrder(es, run, request, context)
    requires context.eligible && request.credits > 0 && context.budget == Some(request.confirmed)
    ensures Reserve(log, run, request, context) == (log, Existing(prior))
  {
  }

  // --------------------------------------------- the verdict, read off the log

  /** Row i is an estimate of this run for this task. */
  predicate EstimateFor(log: Rows, run: string, task: string, i: nat) {
    i < |log| && log[i].run == run && log[i].body.Estimate? && log[i].body.record.task == task
  }

  /** What each row costs the run. */
  function Costs(log: Rows, run: string): seq<int> {
    seq(|log|,
        i requires 0 <= i < |log| =>
          if log[i].run == run && log[i].body.Estimate? then log[i].body.record.credits else 0)
  }

  /** Every estimate of the run is intact, costs something, and is its task's only one. */
  predicate Reconciled(log: Rows, run: string) {
    && (forall i :: 0 <= i < |log| && log[i].run == run && log[i].body.Estimate? ==>
          log[i].body.seal == log[i].body.record && log[i].body.record.run == run && log[i].body.record.credits > 0)
    && (forall i, j :: 0 <= i < j < |log| && log[i].run == run && log[j].run == run ==>
          log[i].body.Estimate? && log[j].body.Estimate? ==> log[i].body.record.task != log[j].body.record.task)
  }

  ghost predicate HasEstimate(log: Rows, run: string, task: string) {
    exists i: nat :: EstimateFor(log, run, task, i)
  }

  ghost predicate BindingsEstimated(log: Rows, run: string, context: Context) {
    forall b :: 0 <= b < |context.bound| ==> HasEstimate(log, run, context.bound[b])
  }

  /** What both media ask before anything is answered or spent. */
  ghost predicate MayAsk(log: Rows, run: string, request: Request, context: Context) {
    && context.eligible && request.credits > 0
    && context.budget.Some? && context.budget.value == request.confirmed
    && Reconciled(log, run) && Sum(Costs(log, run)) <= request.confirmed
    && (request.media == Video ==> BindingsEstimated(log, run, context))
  }

  lemma {:induction false} TotalIsTheSum(log: Rows, run: string)
    ensures TotalOf(Estimates(log, run)) == Sum(Costs(log, run))
  {
    if log != [] {
      var before := log[..|log| - 1];
      TotalIsTheSum(before, run);
      assert Costs(log, run)[..|before|] == Costs(before, run);
      var es := Estimates(log, run);
      if log[|before|].run == run && log[|before|].body.Estimate? {
        assert es[..|es| - 1] == Estimates(before, run);
        assert TotalOf(es) == TotalOf(Estimates(before, run)) + log[|before|].body.record.credits;
      } else {
        assert es == Estimates(before, run);
      }
    }
  }

  lemma TaskReservedSnoc(es: Rows, e: Event<Body>, task: string)
    requires e.body.Estimate? && forall k :: 0 <= k < |es| ==> es[k].body.Estimate?
    ensures TaskReserved(es + [e], task) <==> TaskReserved(es, task) || e.body.record.task == task
  {
    var all := es + [e];
    assert all[|es|] == e;
    if TaskReserved(es, task) {
      var k :| 0 <= k < |es| && es[k].body.record.task == task;
      assert all[k] == es[k];
    }
  }

  lemma HasEstimateSnoc(log: Rows, e: Event<Body>, run: string, task: string)
    ensures HasEstimate(log + [e], run, task)
            <==> HasEstimate(log, run, task) || (e.run == run && e.body.Estimate? && e.body.record.task == task)
  {
    var all := log + [e];
    if i: nat :| EstimateFor(all, run, task, i) {
      if i < |log| { assert EstimateFor(log, run, task, i); }
    }
    if i: nat :| EstimateFor(log, run, task, i) {
      assert EstimateFor(all, run, task, i);
    }
    if e.run == run && e.body.Estimate? && e.body.record.task == task {
      assert EstimateFor(all, run, task, |log|);
    }
  }

  lemma {:induction false} TaskReservedIs(log: Rows, run: string, task: string)
    ensures TaskReserved(Estimates(log, run), task) <==> HasEstimate(log, run, task)
  {
    if log != [] {
      var before, e := log[..|log| - 1], log[|log| - 1];
      TaskReservedIs(before, run, task);
      assert log == before + [e];
      EstimatesAppend(before, e, run);
      HasEstimateSnoc(before, e, run, task);
      if e.run == run && e.body.Estimate? {
        TaskReservedSnoc(Estimates(before, run), e, task);
      }
    }
  }

  lemma LedgerSnoc(es: Rows, run: string, e: Event<Body>)
    requires e.body.Estimate? && forall k :: 0 <= k < |es| ==> es[k].body.Estimate?
    ensures AllIntact(es + [e], run) && DistinctTasks(es + [e])
            <==> AllIntact(es, run) && DistinctTasks(es) && IntactEstimate(e, run)
                 && !TaskReserved(es, e.body.record.task)
  {
    var all := es + [e];
    if AllIntact(all, run) && DistinctTasks(all) {
      assert all[|es|] == e;
      assert forall k :: 0 <= k < |es| ==> all[k] == es[k];
    }
  }

  lemma {:induction false} ReconciledIs(log: Rows, run: string)
    ensures Reconciled(log, run) <==> AllIntact(Estimates(log, run), run) && DistinctTasks(Estimates(log, run))
  {
    if log != [] {
      var n := |log| - 1;
      ReconciledIs(log[..n], run);
      EstimatesAppend(log[..n], log[n], run);
      assert log[..n] + [log[n]] == log;
      if log[n].run == run && log[n].body.Estimate? {
        LedgerSnoc(Estimates(log[..n], run), run, log[n]);
        TaskReservedIs(log[..n], run, log[n].body.record.task);
        ReconciledSnoc(log, run);
      } else {
        ReconciledSkip(log, run);
      }
    }
  }

  lemma ReconciledSkip(log: Rows, run: string)
    requires log != [] && !(log[|log| - 1].run == run && log[|log| - 1].body.Estimate?)
    ensures Reconciled(log, run) <==> Reconciled(log[..|log| - 1], run)
  {
  }

  lemma ReconciledSnoc(log: Rows, run: string)
    requires log != [] && log[|log| - 1].run == run && log[|log| - 1].body.Estimate?
    ensures var n := |log| - 1;
            Reconciled(log, run) <==>
              && Reconciled(log[..n], run) && IntactEstimate(log[n], run)
              && !exists i: nat :: EstimateFor(log[..n], run, log[n].body.record.task, i)
  {
    var n := |log| - 1;
    if i: nat :| EstimateFor(log[..n], run, log[n].body.record.task, i) {
      assert log[i].body.record.task == log[n].body.record.task;
    } else {
      forall i | 0 <= i < n && log[i].run == run && log[i].body.Estimate?
        ensures log[i].body.record.task != log[n].body.record.task
      {
        assert !EstimateFor(log[..n], run, log[n].body.record.task, i);
      }
    }
  }

  lemma {:induction false} FirstForIs(log: Rows, run: string, task: string, i: nat)
    requires EstimateFor(log, run, task, i) && DistinctTasks(Estimates(log, run))
    ensures FirstFor(Estimates(log, run), task) == Some(log[i])
  {
    var n := |log| - 1;
    var es, before := Estimates(log, run), Estimates(log[..n], run);
    assert before <= es && (es == before || es[..|es| - 1] == before);
    if i < n {
      FirstForIs(log[..n], run, task, i);
    } else {
      assert es == before + [log[n]];
      FirstForFinds(before, task);
    }
  }

  lemma {:induction false} BindingsEstimatedIs(log: Rows, run: string, context: Context)
    ensures BindingsEstimated(log, run, context)
            <==> forall b :: 0 <= b < |context.bound| ==> TaskReserved(Estimates(log, run), context.bound[b])
  {
    forall task: string ensures TaskReserved(Estimates(log, run), task) <==> HasEstimate(log, run, task) {
      TaskReservedIs(log, run, task);
    }
  }

  lemma MayAskIs(log: Rows, run: string, request: Request, context: Context)
    ensures var es := Estimates(log, run);
            MayAsk(log, run, request, context) <==>
              && context.eligible && request.credits > 0 && context.budget == Some(request.confirmed)
              && InOrder(es, run, request, context)
  {
    ReconciledIs(log, run);
    TotalIsTheSum(log, run);
    BindingsEstimatedIs(log, run, context);
  }

  /** The estimate on record is the one this approval asks for. */
  predicate SameEstimate(r: Record, request: Request) {
    && r.inputs == request.inputs && r.credits == request.credits
    && (request.media == Image ==> r.media == Image && r.preparation == request.preparation)
    && (request.media == Video ==> r.quote == request.quote)
  }

  lemma OnRecordAsks(log: Rows, run: string, request: Request, context: Context, prior: Event<Body>)
    requires FirstFor(Estimates(log, run), request.task) == Some(prior) && prior.body.Estimate?
    ensures Reserve(log, run, request, context)
            == (log, if MayAsk(log, run, request, context) && SameEstimate(prior.body.record, request)
                     then Existing(prior) else Refused)
  {
    MayAskIs(log, run, request, context);
    assert SameApproval(prior, request) <==> SameEstimate(prior.body.record, request);
  }

  /** A task with an estimate is never charged again: the same approval is answered with its
      event while the run's estimates are in order, and any other is refused. */
  lemma TaskOnRecordVerdict(log: Rows, run: string, request: Request, context: Context, i: nat)
    requires EstimateFor(log, run, request.task, i)
    ensures Reserve(log, run, request, context)
            == (log, if MayAsk(log, run, request, context) && SameEstimate(log[i].body.record, request)
                     then Existing(log[i]) else Refused)
  {
    var es := Estimates(log, run);
    TaskReservedIs(log, run, request.task);
    FirstForFinds(es, request.task);
    var prior := FirstFor(es, request.task).value;
    assert prior.body.Estimate?;
    OnRecordAsks(log, run, request, context, prior);
    if MayAsk(log, run, request, context) {
      MayAskIs(log, run, request, context);
      FirstForIs(log, run, request.task, i);
    }
  }

  /** This estimate, with the run's new total, is all that was added. */
  predicate Charged(log: Rows, log': Rows, run: string, request: Request, total: int) {
    && |log'| == |log| + 1 && log'[..|log|] == log
    && log'[|log|].id == |log| && log'[|log|].run == run
    && var record := Record(run, request.media, request.task, request.preparation, request.inputs, request.quote,
                            request.credits, total);
       log'[|log|].body == Estimate(record, record)
  }

  lemma NotOnRecordCharges(log: Rows, run: string, request: Request, context: Context)
    requires var es := Estimates(log, run);
             && FirstFor(es, request.task).None?
             && context.eligible && request.credits > 0 && context.budget == Some(request.confirmed)
             && InOrder(es, run, request, context)
    ensures Reserve(log, run, request, context)
            == Spend(log, run, request, context, TotalOf(Estimates(log, run)) + request.credits)
  {
  }

  lemma OutOfOrderIsRefused(log: Rows, run: string, request: Request, context: Context)
    requires var es := Estimates(log, run);
             !(&& context.eligible && request.credits > 0 && context.budget == Some(request.confirmed)
               && InOrder(es, run, request, context))
    ensures Reserve(log, run, request, context) == (log, Refused)
  {
  }

  /** A task without one is charged exactly when, besides, no image was already submitted for it
      and the run's sum with this estimate stays within the confirmed budget. */
  lemma NewTaskVerdict(log: Rows, run: string, request: Request, context: Context)
    requires forall i: nat :: !EstimateFor(log, run, request.task, i)
    ensures var (log', outcome) := Reserve(log, run, request, context);
            var total := Sum(Costs(log, run)) + request.credits;
            if && MayAsk(log, run, request, context)
               && (request.media == Image ==> !context.submitted) && total <= request.confirmed
            then Charged(log, log', run, request, total) && outcome == Reserved(log'[|log|])
            else log' == log && outcome == Refused
  {
    TaskReservedIs(log, run, request.task);
    FirstForFinds(Estimates(log, run), request.task);
    TotalIsTheSum(log, run);
    MayAskIs(log, run, request, context);
    if MayAsk(log, run, request, context) {
      NotOnRecordCharges(log, run, request, context);
    } else {
      OutOfOrderIsRefused(log, run, request, context);
    }
  }
}
