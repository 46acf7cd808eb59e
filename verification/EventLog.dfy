// The append-only run_events table: every service numbers its own insert with
// COALESCE(MAX(sequence), 0) + 1 inside the transaction that decided on it.
module EventLog {
  import opened Prelude

  datatype Event<+T> = Event(id: nat, run: string, sequence: nat, body: T)

  type Log<+T> = seq<Event<T>>

  function MaxSequence<T>(log: Log<T>, run: string): nat {
    if log == [] then 0
    else
      var m, last := MaxSequence(log[..|log| - 1], run), log[|log| - 1];
      if last.run == run && last.sequence > m then last.sequence else m
  }

  /** MAX(sequence) over the run's rows, 0 if there are none. */
  lemma {:induction false} MaxSequenceIs<T>(log: Log<T>, run: string)
    ensures forall i :: 0 <= i < |log| && log[i].run == run ==> log[i].sequence <= MaxSequence(log, run)
    ensures MaxSequence(log, run) > 0 ==>
              exists i :: 0 <= i < |log| && log[i].run == run && log[i].sequence == MaxSequence(log, run)
  {
    if log != [] {
      MaxSequenceIs(log[..|log| - 1], run);
    }
  }

  function Append<T>(log: Log<T>, run: string, body: T): Log<T> {
    log + [Event(|log|, run, MaxSequence(log, run) + 1, body)]
  }

  method NextSequence<T>(rows: Log<T>, run: string) returns (n: nat)
    ensures n == MaxSequence(rows, run) + 1
  {
    var m := 0;
    for i := 0 to |rows|
      invariant m == MaxSequence(rows[..i], run)
    {
      assert rows[..i + 1][..i] == rows[..i];
      if rows[i].run == run && rows[i].sequence > m {
        m := rows[i].sequence;
      }
    }
    assert rows[..|rows|] == rows;
    n := m + 1;
  }

  /** list_run_events: the run's events, oldest first. */
  function OfRun<T>(log: Log<T>, run: string): Log<T> {
    if log == [] then []
    else OfRun(log[..|log| - 1], run) + (if log[|log| - 1].run == run then [log[|log| - 1]] else [])
  }

  predicate PositionsOnly<T>(events: Log<T>) {
    forall k :: 0 <= k < |events| ==> events[k].sequence == k + 1
  }

  predicate IdsArePositions<T>(log: Log<T>) {
    forall i :: 0 <= i < |log| ==> log[i].id == i
  }

  /** Ids are never reused and each run's events are numbered 1, 2, 3 ... */
  ghost predicate Numbered<T>(log: Log<T>) {
    && IdsArePositions(log)
    && (forall run: string :: PositionsOnly(OfRun(log, run)))
  }

  lemma {:induction false} MaxIsCount<T>(log: Log<T>, run: string)
    requires PositionsOnly(OfRun(log, run))
    ensures MaxSequence(log, run) == |OfRun(log, run)|
  {
    if log != [] {
      var before, last := log[..|log| - 1], log[|log| - 1];
      var n := |OfRun(before, run)|;
      assert forall k :: 0 <= k < n ==> OfRun(before, run)[k] == OfRun(log, run)[k];
      MaxIsCount(before, run);
      if last.run == run {
        assert OfRun(log, run)[n] == last;
      }
    }
  }

  /** Gap-free numbering survives every insert, whichever service makes it. */
  lemma AppendKeepsNumbered<T>(log: Log<T>, run: string, body: T)
    requires Numbered(log)
    ensures Numbered(Append(log, run, body))
  {
    var log' := Append(log, run, body);
    forall r: string ensures PositionsOnly(OfRun(log', r)) {
      MaxIsCount(log, run);
    }
  }
}
