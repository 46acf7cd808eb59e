// Story hooks left open at an episode's end: the next episode must say of each
// whether it is carried forward or closed, and its ending must agree.
module Hooks {
  import opened Prelude
  import opened Text

  datatype Disposition = CarryForward | Resolved | Abandoned

  datatype Resolution = Resolution(hook: string, disposition: Disposition, explanation: string)

  datatype Review = Review(snapshot: string, resolutions: seq<Resolution>)

  datatype Snapshot = Snapshot(id: string, hooks: seq<string>)

  datatype Status = NotRequired | Missing | Stale | Incomplete | Accepted

  // ------------------------------------------------------------- the data model

  /** A resolution as it arrives: field limits hold before whitespace is stripped. */
  predicate ArrivesValid(raw: Resolution) {
    && 1 <= |raw.hook| <= 1000 && |raw.explanation| <= 4000
    && (raw.disposition != CarryForward ==> Strip(raw.explanation) != "")
  }

  function Cleaned(raw: Resolution): Resolution {
    Resolution(Strip(raw.hook), raw.disposition, Strip(raw.explanation))
  }

  /** A review the data model accepts, built from resolutions as they arrive. */
  ghost predicate ValidReview(review: Review) {
    exists raw: seq<Resolution> :: BuiltFrom(review, raw)
  }

  predicate BuiltFrom(review: Review, raw: seq<Resolution>) {
    && 1 <= |raw| <= 100 && |raw| == |review.resolutions| && review.snapshot != ""
    && (forall i :: 0 <= i < |raw| ==> ArrivesValid(raw[i]) && review.resolutions[i] == Cleaned(raw[i]))
    && (forall i, j :: 0 <= i < j < |raw| ==> review.resolutions[i].hook != review.resolutions[j].hook)
  }

  predicate Names(review: Review, hook: string) {
    exists i :: 0 <= i < |review.resolutions| && review.resolutions[i].hook == hook
  }

  // ------------------------------------------------------------------ the checks

  predicate Covers(review: Review, hooks: seq<string>) {
    && (forall i :: 0 <= i < |review.resolutions| ==> review.resolutions[i].hook in hooks)
    && (forall i :: 0 <= i < |hooks| ==> Names(review, hooks[i]))
  }

  function AuditHookReview(inherited: Snapshot, review: Option<Review>): Status {
    if inherited.hooks == [] then NotRequired
    else if review.None? then Missing
    else if review.value.snapshot != inherited.id then Stale
    else if !Covers(review.value, inherited.hooks) then Incomplete
    else Accepted
  }

  /** Each resolution agrees with the ending: carried hooks are there, closed ones are not. */
  predicate Agrees(r: Resolution, ending: seq<string>) {
    r.disposition == CarryForward <==> r.hook in ending
  }

  predicate EndingMatches(inherited: Option<Snapshot>, review: Option<Review>, ending: seq<string>) {
    inherited.Some? && inherited.value.hooks != [] ==>
      && AuditHookReview(inherited.value, review) == Accepted
      && forall i :: 0 <= i < |review.value.resolutions| ==> Agrees(review.value.resolutions[i], ending)
  }

  method EndingHooksMatchReview(inherited: Option<Snapshot>, review: Option<Review>, ending: seq<string>)
    returns (ok: bool)
    ensures ok <==> EndingMatches(inherited, review, ending)
  {
    if inherited.None? || inherited.value.hooks == [] {
      return true;
    }
    var status := AuditHookReview(inherited.value, review);
    if status != Accepted {
      return false;
    }
    var rs := review.value.resolutions;
    for i := 0 to |rs|
      invariant forall k :: 0 <= k < i ==> Agrees(rs[k], ending)
    {
      var remains := rs[i].hook in ending;
      if (rs[i].disposition == CarryForward && !remains) || (rs[i].disposition != CarryForward && remains) {
        return false;
      }
    }
    return true;
  }

  /** A review of hooks that are there is accepted exactly when it was made on this very snapshot
      and resolves each of its hooks and nothing else; otherwise what is wrong is said. */
  lemma ReviewVerdict(inherited: Snapshot, review: Option<Review>)
    ensures AuditHookReview(inherited, review)
            == (if |inherited.hooks| == 0 then NotRequired
                else if review == None then Missing
                else if review.value.snapshot != inherited.id then Stale
                else if forall hook :: hook in inherited.hooks <==>
                          exists i :: 0 <= i < |review.value.resolutions| && review.value.resolutions[i].hook == hook
                then Accepted else Incomplete)
  {
    if review.Some? {
      assert Covers(review.value, inherited.hooks) <==>
               forall hook :: hook in inherited.hooks <==> Names(review.value, hook) by {
        forall i | 0 <= i < |review.value.resolutions|
          ensures Names(review.value, review.value.resolutions[i].hook) {}
        forall hook | hook in inherited.hooks
          ensures exists i :: 0 <= i < |inherited.hooks| && inherited.hooks[i] == hook {}
      }
      forall hook: string
        ensures Names(review.value, hook) <==>
                  exists i :: 0 <= i < |review.value.resolutions| && review.value.resolutions[i].hook == hook {}
    }
  }

  /** An ending passes exactly when there were no hooks, or an accepted review said of each
      resolved one whether it is still open there. */
  lemma EndingVerdict(inherited: Option<Snapshot>, review: Option<Review>, ending: seq<string>)
    ensures EndingMatches(inherited, review, ending) <==>
              || inherited == None || |inherited.value.hooks| == 0
              || (AuditHookReview(inherited.value, review) == Accepted
                  && forall r :: r in review.value.resolutions ==>
                       (r.hook in ending <==> r.disposition == CarryForward))
  {
  }

  // --------------------------------------------------------------- over a season

  /** One episode: the review it brought and the snapshot it ended with. */
  datatype Episode = Episode(review: Option<Review>, ending: Snapshot)

  function InheritedBy(episodes: seq<Episode>): Option<Snapshot> {
    if episodes == [] then None else Some(episodes[|episodes| - 1].ending)
  }

  /** Each episode inherits the ending before it, and passed the check. */
  predicate Season(episodes: seq<Episode>) {
    episodes == []
    || (var before, last := episodes[..|episodes| - 1], episodes[|episodes| - 1];
        Season(before) && EndingMatches(InheritedBy(before), last.review, last.ending.hooks))
  }

  lemma {:induction false} SeasonStep(episodes: seq<Episode>, k: nat)
    requires Season(episodes) && k + 1 < |episodes|
    ensures EndingMatches(Some(episodes[k].ending), episodes[k + 1].review, episodes[k + 1].ending.hooks)
  {
    if k + 2 < |episodes| {
      SeasonStep(episodes[..|episodes| - 1], k);
    }
  }

  /** An explicit decision about a hook in a review. */
  predicate Decides(review: Option<Review>, hook: string, carried: bool) {
    && review.Some?
    && exists i ::
         && 0 <= i < |review.value.resolutions|
         && review.value.resolutions[i].hook == hook
         && (review.value.resolutions[i].disposition == CarryForward) == carried
  }

  /** At every step of a season an inherited hook is open at the end exactly when the
      episode's review carried it, and closed exactly when the review closed it. */
  lemma {:induction false} InheritedHookFollowsItsReview(episodes: seq<Episode>, k: nat, hook: string)
    requires Season(episodes) && k + 1 < |episodes| && hook in episodes[k].ending.hooks
    ensures hook in episodes[k + 1].ending.hooks <==> Decides(episodes[k + 1].review, hook, true)
    ensures hook !in episodes[k + 1].ending.hooks <==> Decides(episodes[k + 1].review, hook, false)
  {
    SeasonStep(episodes, k);
    var hooks, review := episodes[k].ending.hooks, episodes[k + 1].review.value;
    var h :| 0 <= h < |hooks| && hooks[h] == hook;
    assert Names(review, hooks[h]);
    var i :| 0 <= i < |review.resolutions| && review.resolutions[i].hook == hook;
    assert Agrees(review.resolutions[i], episodes[k + 1].ending.hooks);
  }

  /** Episode m inherited the hook and its review closed it. */
  predicate ClosedAt(episodes: seq<Episode>, m: nat, hook: string) {
    1 <= m < |episodes| && hook in episodes[m - 1].ending.hooks && Decides(episodes[m].review, hook, false)
  }

  /** No hook vanishes: open at the end of episode k and not at the end of n, some
      episode in between closed it in so many words. */
  lemma {:induction false} NoHookVanishes(episodes: seq<Episode>, k: nat, n: nat, hook: string)
    requires Season(episodes) && k <= n < |episodes|
    requires hook in episodes[k].ending.hooks && hook !in episodes[n].ending.hooks
    ensures exists m: nat :: k < m <= n && ClosedAt(episodes, m, hook)
    decreases n - k
  {
    InheritedHookFollowsItsReview(episodes, k, hook);
    if hook in episodes[k + 1].ending.hooks {
      NoHookVanishes(episodes, k + 1, n, hook);
    } else {
      assert ClosedAt(episodes, k + 1, hook);
    }
  }

  /** A hook is open through a stretch of the season exactly when every review in it
      carried the hook forward. */
  lemma {:induction false} OpenIffCarriedThroughout(episodes: seq<Episode>, k: nat, n: nat, hook: string)
    requires Season(episodes) && k <= n < |episodes| && hook in episodes[k].ending.hooks
    ensures (forall m :: k <= m <= n ==> hook in episodes[m].ending.hooks)
            <==> (forall m :: k < m <= n ==> Decides(episodes[m].review, hook, true))
    decreases n - k
  {
    if k < n {
      var next := k + 1;
      InheritedHookFollowsItsReview(episodes, k, hook);
      if hook in episodes[next].ending.hooks {
        OpenIffCarriedThroughout(episodes, next, n, hook);
      }
    }
  }

  /** Carrying and closing one inherited hook in the same review is never accepted,
      whatever the ending. */
  lemma ContradictionNeverAccepted(inherited: Snapshot, review: Review, ending: seq<string>, i: nat, j: nat)
    requires inherited.hooks != [] && i < |review.resolutions| && j < |review.resolutions|
    requires review.resolutions[i].hook == review.resolutions[j].hook
    requires review.resolutions[i].disposition == CarryForward && review.resolutions[j].disposition != CarryForward
    ensures !EndingMatches(Some(inherited), Some(review), ending)
  {
  }

  // ----------------------------------------------------- which hooks can be reviewed

  predicate Reviewable(hooks: seq<string>) {
    && |Dedupe(hooks)| <= 100
    && forall i :: 0 <= i < |hooks| ==> Stripped(hooks[i]) && |hooks[i]| <= 1000
  }

  /** A way to send a hook so that stripping gives it back, if there is one. */
  function Carry(hook: string): Resolution {
    Resolution(if hook == "" then " " else hook, CarryForward, "")
  }

  lemma CarryArrives(hook: string)
    requires Stripped(hook) && |hook| <= 1000
    ensures ArrivesValid(Carry(hook)) && Cleaned(Carry(hook)).hook == hook
  {
    assert Strip(" ") == "" by { assert " "[1..] == ""; }
  }

  function CarryAll(hooks: seq<string>): (raw: seq<Resolution>)
    ensures |raw| == |hooks| && forall i :: 0 <= i < |raw| ==> raw[i] == Carry(hooks[i])
  {
    if hooks == [] then [] else CarryAll(hooks[..|hooks| - 1]) + [Carry(hooks[|hooks| - 1])]
  }

  function CleanAll(raw: seq<Resolution>): (clean: seq<Resolution>)
    ensures |clean| == |raw| && forall i :: 0 <= i < |raw| ==> clean[i] == Cleaned(raw[i])
  {
    if raw == [] then [] else CleanAll(raw[..|raw| - 1]) + [Cleaned(raw[|raw| - 1])]
  }

  /** Some acceptable review of these inherited hooks exists exactly when there are at
      most 100 distinct ones, none longer than 1000 characters, and none begins or ends
      with whitespace: the data model strips what it compares with the stored hook. */
  lemma ReviewExistsIff(inherited: Snapshot)
    requires inherited.hooks != [] && inherited.id != ""
    ensures (exists review :: ValidReview(review) && AuditHookReview(inherited, Some(review)) == Accepted)
            <==> Reviewable(inherited.hooks)
  {
    if Reviewable(inherited.hooks) {
      ReviewOfAll(inherited);
    }
    if review :| ValidReview(review) && AuditHookReview(inherited, Some(review)) == Accepted {
      AcceptedIsReviewable(inherited, review);
    }
  }

  lemma {:induction false} CarriedReviewIsValid(id: string, hooks: seq<string>)
    requires id != "" && 1 <= |hooks| <= 100 && Unique(hooks)
    requires forall i :: 0 <= i < |hooks| ==> Stripped(hooks[i]) && |hooks[i]| <= 1000
    ensures var review := Review(id, CleanAll(CarryAll(hooks)));
            && ValidReview(review) && |review.resolutions| == |hooks|
            && forall i :: 0 <= i < |hooks| ==> review.resolutions[i].hook == hooks[i]
  {
    var raw := CarryAll(hooks);
    forall i | 0 <= i < |hooks| ensures ArrivesValid(raw[i]) && Cleaned(raw[i]).hook == hooks[i] {
      CarryArrives(hooks[i]);
    }
    assert BuiltFrom(Review(id, CleanAll(raw)), raw);
  }

  lemma NamingAllCovers(review: Review, distinct: seq<string>, hooks: seq<string>)
    requires |review.resolutions| == |distinct|
    requires forall i :: 0 <= i < |distinct| ==> review.resolutions[i].hook == distinct[i]
    requires forall x :: x in distinct <==> x in hooks
    ensures Covers(review, hooks)
  {
    forall i | 0 <= i < |hooks| ensures Names(review, hooks[i]) {
      assert hooks[i] in distinct;
      var j :| 0 <= j < |distinct| && distinct[j] == hooks[i];
    }
    forall i | 0 <= i < |review.resolutions| ensures review.resolutions[i].hook in hooks {}
  }

  lemma ReviewOfAll(inherited: Snapshot)
    requires inherited.hooks != [] && inherited.id != "" && Reviewable(inherited.hooks)
    ensures exists review :: ValidReview(review) && AuditHookReview(inherited, Some(review)) == Accepted
  {
    var hooks := Dedupe(inherited.hooks);
    DedupeKeeps(inherited.hooks);
    forall i | 0 <= i < |hooks| ensures Stripped(hooks[i]) && |hooks[i]| <= 1000 {
      assert hooks[i] in hooks;
    }
    CarriedReviewIsValid(inherited.id, hooks);
    var review := Review(inherited.id, CleanAll(CarryAll(hooks)));
    NamingAllCovers(review, hooks, inherited.hooks);
  }

  function HooksOf(resolutions: seq<Resolution>): seq<string> {
    if resolutions == [] then [] else HooksOf(resolutions[..|resolutions| - 1]) + [resolutions[|resolutions| - 1].hook]
  }

  lemma {:induction false} HooksOfAt(resolutions: seq<Resolution>)
    ensures |HooksOf(resolutions)| == |resolutions|
    ensures forall i :: 0 <= i < |resolutions| ==> HooksOf(resolutions)[i] == resolutions[i].hook
  {
    if resolutions != [] {
      HooksOfAt(resolutions[..|resolutions| - 1]);
    }
  }

  lemma {:induction false} AcceptedIsReviewable(inherited: Snapshot, review: Review)
    requires inherited.hooks != [] && ValidReview(review) && AuditHookReview(inherited, Some(review)) == Accepted
    ensures Reviewable(inherited.hooks)
  {
    var raw: seq<Resolution> :| BuiltFrom(review, raw);
    var hooks, named := Dedupe(inherited.hooks), HooksOf(review.resolutions);
    DedupeKeeps(inherited.hooks);
    HooksOfAt(review.resolutions);
    forall i | 0 <= i < |inherited.hooks|
      ensures inherited.hooks[i] in named && Stripped(inherited.hooks[i]) && |inherited.hooks[i]| <= 1000
    {
      assert Names(review, inherited.hooks[i]);
      var j :| 0 <= j < |review.resolutions| && review.resolutions[j].hook == inherited.hooks[i];
      StripStrips(raw[j].hook);
    }
    forall x ensures x in hooks <==> x in named {
      if x in named {
        var j :| 0 <= j < |named| && named[j] == x;
      }
    }
    SameElementsSameLength(hooks, named);
  }
}
