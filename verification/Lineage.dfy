// What an assembled episode's dialogue rests on: an edit and its review, one take
// per cue under live consent, a listening review, a transcript and a caption review
// for each. Staging records the chain; a later materialization must find every link
// still the newest of its kind.
module Lineage {
  import opened Prelude
  import opened EventLog

  /** Event ids stand for the digests stored beside them: a stored digest is an
      injective image of an event's payload, and events are never rewritten. */
  datatype Body =
    | EditDraft(shotPlan: nat, content: string)
    | Preview(edit: nat, content: string)
    | EditReview(edit: nat, preview: nat, previewContent: string, accept: bool)
    | SoundPlan(approved: bool, edit: nat, editReview: nat, cues: nat, content: string)
    | Take(plan: nat, shot: nat, asset: string, consent: nat, content: string)
    | Listening(plan: nat, shot: nat, take: nat, accept: bool)
    | Transcript(take: nat, listening: nat, content: string)
    | Captions(take: nat, transcript: nat, content: string)
    | Staged(chain: Chain)
    | SoundSource(binding: Binding)
    | Other

  datatype Link = Link(take: nat, listening: nat, transcript: nat, captions: nat)

  /** The lineage a staging receipt records. */
  datatype Chain = Chain(plan: nat, sound: Body, links: seq<Link>)

  /** A staged sound layer; its path carries the digest of this binding, so the
      source a mix names determines it. */
  datatype Binding = Binding(plan: nat, asset: string, consent: nat, content: string)

  type Rows = Log<Body>

  /** A consent record; `named` when both its statement and its recorder are non-blank. */
  datatype Consent = Consent(id: nat, granted: bool, named: bool)

  /** `open`: the run accepts work and its media files are intact. `usable`: assets of the
      right kind and scope whose consent flag is set and whose bytes match their digest. */
  datatype State = State(log: Rows, consents: map<string, seq<Consent>>, shotPlan: Option<nat>, usable: set<string>,
                         open: bool)

  // ------------------------------------------------------ the newest of a kind

  datatype Query =
    | Edits
    | EditReviews(edit: nat)
    | Takes(plan: nat, shot: nat)
    | Listenings(plan: nat, shot: nat)
    | Transcripts(take: nat, listening: nat)
    | CaptionReviews(take: nat)

  predicate Answers(e: Event<Body>, run: string, q: Query) {
    && e.run == run
    && match q
       case Edits => e.body.EditDraft?
       case EditReviews(edit) => e.body.EditReview? && e.body.edit == edit
       case Takes(plan, shot) => e.body.Take? && e.body.plan == plan && e.body.shot == shot
       case Listenings(plan, shot) => e.body.Listening? && e.body.plan == plan && e.body.shot == shot
       case Transcripts(take, listening) => e.body.Transcript? && e.body.take == take && e.body.listening == listening
       case CaptionReviews(take) => e.body.Captions? && e.body.take == take
  }

  /** The last element of the comprehension every service builds over the run's events. */
  function Newest(log: Rows, run: string, q: Query): Option<nat> {
    if log == [] then None
    else if Answers(log[|log| - 1], run, q) then Some(|log| - 1)
    else Newest(log[..|log| - 1], run, q)
  }

  predicate IsNewest(log: Rows, run: string, q: Query, id: nat) {
    id < |log| && Answers(log[id], run, q) && forall j :: id < j < |log| ==> !Answers(log[j], run, q)
  }

  lemma {:induction false} NewestIs(log: Rows, run: string, q: Query)
    ensures forall id: nat :: Newest(log, run, q) == Some(id) <==> IsNewest(log, run, q, id)
    ensures Newest(log, run, q).None? <==> forall j :: 0 <= j < |log| ==> !Answers(log[j], run, q)
  {
    if log != [] && !Answers(log[|log| - 1], run, q) {
      var before := log[..|log| - 1];
      NewestIs(before, run, q);
      forall id: nat ensures IsNewest(log, run, q, id) <==> IsNewest(before, run, q, id) {
        if IsNewest(before, run, q, id) {
          forall j | id < j < |log| ensures !Answers(log[j], run, q) {
            if j < |before| { assert before[j] == log[j]; }
          }
        }
        if IsNewest(log, run, q, id) {
          forall j | id < j < |before| ensures !Answers(before[j], run, q) { assert before[j] == log[j]; }
        }
      }
      if Newest(before, run, q).None? {
        forall j | 0 <= j < |log| ensures !Answers(log[j], run, q) {
          if j < |before| { assert before[j] == log[j]; }
        }
      }
    }
  }

  method FindNewest(log: Rows, run: string, q: Query) returns (newest: Option<nat>)
    ensures newest == Newest(log, run, q)
  {
    newest := None;
    for i := 0 to |log|
      invariant newest == Newest(log[..i], run, q)
    {
      assert log[..i + 1][..i] == log[..i];
      if Answers(log[i], run, q) {
        newest := Some(i);
      }
    }
    assert log[..|log|] == log;
  }

  /** The `latest` dictionary: one pass keeps the last take of each shot. */
  function LatestTakes(log: Rows, run: string, plan: nat): map<nat, nat> {
    if log == [] then map[]
    else
      var before, e := LatestTakes(log[..|log| - 1], run, plan), log[|log| - 1];
      if e.run == run && e.body.Take? && e.body.plan == plan then before[e.body.shot := |log| - 1] else before
  }

  method RecoverLatestTakes(log: Rows, run: string, plan: nat) returns (latest: map<nat, nat>)
    ensures latest == LatestTakes(log, run, plan)
  {
    latest := map[];
    for i := 0 to |log|
      invariant latest == LatestTakes(log[..i], run, plan)
    {
      assert log[..i + 1][..i] == log[..i];
      if log[i].run != run || !log[i].body.Take? || log[i].body.plan != plan {
        continue;
      }
      latest := latest[log[i].body.shot := i];
    }
    assert log[..|log|] == log;
  }

  lemma {:induction false} LatestTakesAreNewest(log: Rows, run: string, plan: nat, shot: nat)
    ensures shot in LatestTakes(log, run, plan) <==> Newest(log, run, Takes(plan, shot)).Some?
    ensures shot in LatestTakes(log, run, plan) ==>
              Newest(log, run, Takes(plan, shot)) == Some(LatestTakes(log, run, plan)[shot])
  {
    if log != [] {
      LatestTakesAreNewest(log[..|log| - 1], run, plan, shot);
    }
  }

  // --------------------------------------------------------- the checks of build

  predicate IsSound(s: State, run: string, plan: nat, sound: Body) {
    plan < |s.log| && s.log[plan].run == run && s.log[plan].body == sound && sound.SoundPlan? && sound.approved
  }

  predicate EditCurrent(s: State, run: string, edit: nat) {
    && s.open && Newest(s.log, run, Edits) == Some(edit)
    && edit < |s.log| && s.log[edit].body.EditDraft? && s.shotPlan == Some(s.log[edit].body.shotPlan)
  }

  /** The confirmed preview is still the exact one, of this edit. */
  predicate PreviewIntact(log: Rows, run: string, edit: nat, review: nat) {
    && review < |log| && log[review].body.EditReview?
    && var preview := log[review].body.preview;
       preview < |log| && log[preview].run == run && log[preview].body == Preview(edit, log[review].body.previewContent)
  }

  predicate EditApproved(s: State, run: string, edit: nat, review: nat) {
    && EditCurrent(s, run, edit)
    && Newest(s.log, run, EditReviews(edit)) == Some(review)
    && PreviewIntact(s.log, run, edit, review) && s.log[review].body.accept
  }

  predicate ConsentLive(s: State, asset: string, consent: nat) {
    && asset in s.usable && asset in s.consents && s.consents[asset] != []
    && var last := s.consents[asset][|s.consents[asset]| - 1];
       last.granted && last.named && last.id == consent
  }

  predicate TakeCurrent(s: State, cues: nat, take: nat) {
    take < |s.log| && s.log[take].body.Take? && s.log[take].body.shot < cues
    && ConsentLive(s, s.log[take].body.asset, s.log[take].body.consent)
  }

  /** Listening, transcript and caption recovery for one current take. */
  function LinkOf(s: State, run: string, plan: nat, shot: nat, take: nat): Option<Link> {
    match Newest(s.log, run, Listenings(plan, shot))
    case None => None
    case Some(listening) =>
      if listening >= |s.log| || s.log[listening].body != Listening(plan, shot, take, true) then None
      else
        (match Newest(s.log, run, Transcripts(take, listening))
         case None => None
         case Some(transcript) =>
           (match Newest(s.log, run, CaptionReviews(take))
            case None => None
            case Some(captions) =>
              if captions >= |s.log| || !s.log[captions].body.Captions? || s.log[captions].body.transcript != transcript
              then None
              else Some(Link(take, listening, transcript, captions))))
  }

  function LinksOf(s: State, run: string, plan: nat, takes: map<nat, nat>, n: nat): Option<seq<Link>>
    requires forall k :: 0 <= k < n ==> k in takes
  {
    if n == 0 then Some([])
    else
      var before := LinksOf(s, run, plan, takes, n - 1);
      var link := LinkOf(s, run, plan, n - 1, takes[n - 1]);
      if before.None? || link.None? then None else Some(before.value + [link.value])
  }

  function Build(s: State, run: string, plan: nat, sound: Body): Option<Chain> {
    if !IsSound(s, run, plan, sound) || !EditApproved(s, run, sound.edit, sound.editReview) then None
    else
      var takes := LatestTakes(s.log, run, plan);
      if !(forall k :: k in takes ==> TakeCurrent(s, sound.cues, takes[k])) then None
      else if !(forall k :: 0 <= k < sound.cues ==> k in takes) then None
      else
        var links := LinksOf(s, run, plan, takes, sound.cues);
        if links.None? then None else Some(Chain(plan, sound, links.value))
  }

  // ------------------------------------------------ the same, without algorithms

  predicate LinkIsNewest(s: State, run: string, chain: Chain, k: nat)
    requires k < |chain.links| && chain.sound.SoundPlan?
  {
    var link := chain.links[k];
    && IsNewest(s.log, run, Takes(chain.plan, k), link.take) && TakeCurrent(s, chain.sound.cues, link.take)
    && IsNewest(s.log, run, Listenings(chain.plan, k), link.listening)
    && s.log[link.listening].body.take == link.take && s.log[link.listening].body.accept
    && IsNewest(s.log, run, Transcripts(link.take, link.listening), link.transcript)
    && IsNewest(s.log, run, CaptionReviews(link.take), link.captions)
    && s.log[link.captions].body.transcript == link.transcript
  }

  /** What build asks of a chain, in its own terms. */
  predicate Stands(s: State, run: string, chain: Chain) {
    && IsSound(s, run, chain.plan, chain.sound)
    && s.open
    && IsNewest(s.log, run, Edits, chain.sound.edit)
    && s.shotPlan == Some(s.log[chain.sound.edit].body.shotPlan)
    && IsNewest(s.log, run, EditReviews(chain.sound.edit), chain.sound.editReview)
    && s.log[chain.sound.editReview].body.accept
    && PreviewIntact(s.log, run, chain.sound.edit, chain.sound.editReview)
    && |chain.links| == chain.sound.cues
    && (forall k :: 0 <= k < |chain.links| ==> LinkIsNewest(s, run, chain, k))
    && NoStrayTake(s.log, run, chain.plan, chain.sound.cues)
  }

  /** One take's recovered link, without the newest-of lookups. */
  predicate Recovered(s: State, run: string, plan: nat, shot: nat, take: nat, link: Link) {
    && link.take == take
    && IsNewest(s.log, run, Listenings(plan, shot), link.listening)
    && s.log[link.listening].body.take == take && s.log[link.listening].body.accept
    && IsNewest(s.log, run, Transcripts(take, link.listening), link.transcript)
    && IsNewest(s.log, run, CaptionReviews(take), link.captions)
    && s.log[link.captions].body.transcript == link.transcript
  }

  lemma LinkOfIs(s: State, run: string, plan: nat, shot: nat, take: nat, link: Link)
    ensures LinkOf(s, run, plan, shot, take) == Some(link) <==> Recovered(s, run, plan, shot, take, link)
  {
    NewestIs(s.log, run, Listenings(plan, shot));
    NewestIs(s.log, run, CaptionReviews(take));
    var listening := Newest(s.log, run, Listenings(plan, shot));
    if listening.Some? {
      NewestIs(s.log, run, Transcripts(take, listening.value));
    }
  }

  /** Every one of the first n takes has this link. */
  predicate Linked(s: State, run: string, plan: nat, takes: map<nat, nat>, n: nat, links: seq<Link>)
    requires forall k :: 0 <= k < n ==> k in takes
  {
    |links| == n && forall k :: 0 <= k < n ==> LinkOf(s, run, plan, k, takes[k]) == Some(links[k])
  }

  lemma LinkedSnoc(s: State, run: string, plan: nat, takes: map<nat, nat>, n: nat, before: seq<Link>, last: Link)
    requires forall k :: 0 <= k <= n ==> k in takes
    ensures Linked(s, run, plan, takes, n + 1, before + [last])
            <==> Linked(s, run, plan, takes, n, before) && LinkOf(s, run, plan, n, takes[n]) == Some(last)
  {
  }

  lemma {:induction false} LinksOfEach(s: State, run: string, plan: nat, takes: map<nat, nat>, n: nat, links: seq<Link>)
    requires forall k :: 0 <= k < n ==> k in takes
    ensures LinksOf(s, run, plan, takes, n) == Some(links) <==> Linked(s, run, plan, takes, n, links)
  {
    if n > 0 && links != [] {
      var before, last := links[..|links| - 1], links[|links| - 1];
      assert links == before + [last];
      LinksOfEach(s, run, plan, takes, n - 1, before);
      LinkedSnoc(s, run, plan, takes, n - 1, before, last);
    }
  }

  lemma LinksOfAre(s: State, run: string, plan: nat, takes: map<nat, nat>, n: nat, links: seq<Link>)
    requires forall k :: 0 <= k < n ==> k in takes
    ensures LinksOf(s, run, plan, takes, n) == Some(links)
            <==> |links| == n && forall k :: 0 <= k < n ==> Recovered(s, run, plan, k, takes[k], links[k])
  {
    LinksOfEach(s, run, plan, takes, n, links);
    if |links| == n {
      forall k | 0 <= k < n
        ensures LinkOf(s, run, plan, k, takes[k]) == Some(links[k]) <==> Recovered(s, run, plan, k, takes[k], links[k])
      {
        LinkOfIs(s, run, plan, k, takes[k], links[k]);
      }
    }
  }

  lemma EditApprovedIs(s: State, run: string, edit: nat, review: nat)
    ensures EditApproved(s, run, edit, review) <==>
            && s.open && IsNewest(s.log, run, Edits, edit) && s.shotPlan == Some(s.log[edit].body.shotPlan)
            && IsNewest(s.log, run, EditReviews(edit), review) && s.log[review].body.accept
            && PreviewIntact(s.log, run, edit, review)
  {
    NewestIs(s.log, run, Edits);
    NewestIs(s.log, run, EditReviews(edit));
  }

  /** For the takes the dictionary holds: the build's two checks, said of the log. */
  lemma TakesAre(s: State, run: string, plan: nat, cues: nat, k: nat)
    ensures var takes := LatestTakes(s.log, run, plan);
            && (k in takes <==> exists j :: 0 <= j < |s.log| && Answers(s.log[j], run, Takes(plan, k)))
            && (k in takes ==> IsNewest(s.log, run, Takes(plan, k), takes[k]))
            && (forall id: nat :: IsNewest(s.log, run, Takes(plan, k), id) ==> k in takes && takes[k] == id)
  {
    LatestTakesAreNewest(s.log, run, plan, k);
    NewestIs(s.log, run, Takes(plan, k));
  }

  predicate NoStrayTake(log: Rows, run: string, plan: nat, cues: nat) {
    forall j :: 0 <= j < |log| && log[j].run == run && log[j].body.Take? && log[j].body.plan == plan ==>
      log[j].body.shot < cues
  }

  lemma NotStray(s: State, run: string, plan: nat, cues: nat, k: nat)
    requires k in LatestTakes(s.log, run, plan) && NoStrayTake(s.log, run, plan, cues)
    ensures k < cues
  {
    TakesAre(s, run, plan, cues, k);
    var j :| 0 <= j < |s.log| && Answers(s.log[j], run, Takes(plan, k));
  }

  lemma NoneStray(s: State, run: string, plan: nat, cues: nat)
    requires forall k :: k in LatestTakes(s.log, run, plan) ==> TakeCurrent(s, cues, LatestTakes(s.log, run, plan)[k])
    ensures NoStrayTake(s.log, run, plan, cues)
  {
    forall j | 0 <= j < |s.log| && s.log[j].run == run && s.log[j].body.Take? && s.log[j].body.plan == plan
      ensures s.log[j].body.shot < cues
    {
      TakesAre(s, run, plan, cues, s.log[j].body.shot);
    }
  }

  lemma LinkIsNewestIs(s: State, run: string, chain: Chain, k: nat)
    requires k < |chain.links| && chain.sound.SoundPlan?
    ensures var takes := LatestTakes(s.log, run, chain.plan);
            LinkIsNewest(s, run, chain, k) <==>
              k in takes && TakeCurrent(s, chain.sound.cues, takes[k])
                  && Recovered(s, run, chain.plan, k, takes[k], chain.links[k])
  {
    TakesAre(s, run, chain.plan, chain.sound.cues, k);
  }

  /** Every recording check of build, against the direct reading of the log. */
  ghost predicate RecordingsPass(s: State, run: string, chain: Chain)
    requires chain.sound.SoundPlan?
  {
    var takes := LatestTakes(s.log, run, chain.plan);
    && (forall k :: k in takes ==> TakeCurrent(s, chain.sound.cues, takes[k]))
    && (forall k :: 0 <= k < chain.sound.cues ==> k in takes)
    && LinksOf(s, run, chain.plan, takes, chain.sound.cues) == Some(chain.links)
  }

  predicate LinksNewest(s: State, run: string, chain: Chain)
    requires chain.sound.SoundPlan?
  {
    && |chain.links| == chain.sound.cues
    && forall k :: 0 <= k < |chain.links| ==> LinkIsNewest(s, run, chain, k)
  }

  lemma PassingIsNewest(s: State, run: string, chain: Chain)
    requires chain.sound.SoundPlan? && RecordingsPass(s, run, chain)
    ensures LinksNewest(s, run, chain) && NoStrayTake(s.log, run, chain.plan, chain.sound.cues)
  {
    var takes, cues := LatestTakes(s.log, run, chain.plan), chain.sound.cues;
    LinksOfAre(s, run, chain.plan, takes, cues, chain.links);
    NoneStray(s, run, chain.plan, cues);
    forall k | 0 <= k < |chain.links| ensures LinkIsNewest(s, run, chain, k) {
      LinkIsNewestIs(s, run, chain, k);
    }
  }

  lemma NewestIsTaken(s: State, run: string, chain: Chain, k: nat)
    requires chain.sound.SoundPlan? && LinksNewest(s, run, chain) && k < chain.sound.cues
    ensures var takes := LatestTakes(s.log, run, chain.plan);
            k in takes && TakeCurrent(s, chain.sound.cues, takes[k])
                && Recovered(s, run, chain.plan, k, takes[k], chain.links[k])
  {
    LinkIsNewestIs(s, run, chain, k);
  }

  lemma NewestIsPassing(s: State, run: string, chain: Chain)
    requires chain.sound.SoundPlan?
    requires LinksNewest(s, run, chain) && NoStrayTake(s.log, run, chain.plan, chain.sound.cues)
    ensures RecordingsPass(s, run, chain)
  {
    var takes, cues := LatestTakes(s.log, run, chain.plan), chain.sound.cues;
    forall k | 0 <= k < cues
      ensures k in takes && TakeCurrent(s, cues, takes[k]) && Recovered(s, run, chain.plan, k, takes[k], chain.links[k])
    {
      NewestIsTaken(s, run, chain, k);
    }
    forall k | k in takes ensures TakeCurrent(s, cues, takes[k]) {
      NotStray(s, run, chain.plan, cues, k);
    }
    LinksOfAre(s, run, chain.plan, takes, cues, chain.links);
  }

  lemma RecordingsPassIs(s: State, run: string, chain: Chain)
    requires chain.sound.SoundPlan?
    ensures RecordingsPass(s, run, chain) <==>
              LinksNewest(s, run, chain) && NoStrayTake(s.log, run, chain.plan, chain.sound.cues)
  {
    if RecordingsPass(s, run, chain) {
      PassingIsNewest(s, run, chain);
    }
    if LinksNewest(s, run, chain) && NoStrayTake(s.log, run, chain.plan, chain.sound.cues) {
      NewestIsPassing(s, run, chain);
    }
  }

  lemma BuildSucceedsIffStands(s: State, run: string, plan: nat, sound: Body, chain: Chain)
    ensures Build(s, run, plan, sound) == Some(chain)
            <==> chain.plan == plan && chain.sound == sound && Stands(s, run, chain)
  {
    if IsSound(s, run, plan, sound) {
      EditApprovedIs(s, run, sound.edit, sound.editReview);
      RecordingsPassIs(s, run, Chain(plan, sound, chain.links));
      var built := Build(s, run, plan, sound);
    }
  }

  // ------------------------------------------- what stands, read off the log alone

  /** The sound plan is approved; its edit is the run's last, drafted from the current shot
      plan; the edit's last decision accepted it on its own, unchanged preview. */
  predicate EditNewest(s: State, run: string, chain: Chain) {
    var log, plan, sound := s.log, chain.plan, chain.sound;
    && s.open
    && plan < |log| && log[plan].run == run && log[plan].body == sound && sound.SoundPlan? && sound.approved
    && sound.edit < |log| && log[sound.edit].run == run && log[sound.edit].body.EditDraft?
    && s.shotPlan == Some(log[sound.edit].body.shotPlan)
    && (forall j :: sound.edit < j < |log| && log[j].run == run ==> !log[j].body.EditDraft?)
    && sound.editReview < |log| && log[sound.editReview].run == run
    && log[sound.editReview].body.EditReview? && log[sound.editReview].body.edit == sound.edit
    && log[sound.editReview].body.accept
    && (forall j :: sound.editReview < j < |log| && log[j].run == run && log[j].body.EditReview? ==>
          log[j].body.edit != sound.edit)
    && log[sound.editReview].body.preview < |log|
    && log[log[sound.editReview].body.preview].run == run
    && log[log[sound.editReview].body.preview].body == Preview(sound.edit, log[sound.editReview].body.previewContent)
  }

  /** The asset's bytes may be used, and the last record of its consent grants it, is named
      and is the very one the recording was bound under. */
  predicate RecordingNewest(s: State, run: string, plan: nat, shot: nat, take: nat) {
    var log := s.log;
    && take < |log| && log[take].run == run && log[take].body.Take?
    && log[take].body.plan == plan && log[take].body.shot == shot
    && (forall j :: take < j < |log| && log[j].run == run && log[j].body.Take? ==>
          !(log[j].body.plan == plan && log[j].body.shot == shot))
    && var asset := log[take].body.asset;
       && asset in s.usable && asset in s.consents && |s.consents[asset]| > 0
       && s.consents[asset][|s.consents[asset]| - 1] == Consent(log[take].body.consent, true, true)
  }

  /** The shot's last listening decision accepts this very take; the last transcript of both and
      the last caption decision on the take belong to each other. */
  predicate HearingNewest(log: Rows, run: string, plan: nat, shot: nat, link: Link) {
    && link.listening < |log| && log[link.listening].run == run
    && log[link.listening].body == Listening(plan, shot, link.take, true)
    && (forall j :: link.listening < j < |log| && log[j].run == run && log[j].body.Listening? ==>
          !(log[j].body.plan == plan && log[j].body.shot == shot))
    && link.transcript < |log| && log[link.transcript].run == run && log[link.transcript].body.Transcript?
    && log[link.transcript].body.take == link.take && log[link.transcript].body.listening == link.listening
    && (forall j :: link.transcript < j < |log| && log[j].run == run && log[j].body.Transcript? ==>
          !(log[j].body.take == link.take && log[j].body.listening == link.listening))
    && link.captions < |log| && log[link.captions].run == run && log[link.captions].body.Captions?
    && log[link.captions].body.take == link.take && log[link.captions].body.transcript == link.transcript
    && (forall j :: link.captions < j < |log| && log[j].run == run && log[j].body.Captions? ==>
          log[j].body.take != link.take)
  }

  predicate LinksCurrent(s: State, run: string, chain: Chain) {
    forall k :: 0 <= k < |chain.links| ==>
      && RecordingNewest(s, run, chain.plan, k, chain.links[k].take)
      && HearingNewest(s.log, run, chain.plan, k, chain.links[k])
  }

  /** Everything the chain names is the newest of its kind, accepted, and under live consent;
      every cue has a recording, and no recording of this plan is for anything else. */
  predicate AllNewest(s: State, run: string, chain: Chain) {
    && EditNewest(s, run, chain)
    && |chain.links| == chain.sound.cues
    && LinksCurrent(s, run, chain)
    && forall j :: 0 <= j < |s.log| && s.log[j].run == run && s.log[j].body.Take? ==>
         s.log[j].body.plan != chain.plan || s.log[j].body.shot < chain.sound.cues
  }

  lemma EditNewestIs(s: State, run: string, chain: Chain)
    ensures EditNewest(s, run, chain) <==>
              && IsSound(s, run, chain.plan, chain.sound) && s.open
              && IsNewest(s.log, run, Edits, chain.sound.edit)
              && s.shotPlan == Some(s.log[chain.sound.edit].body.shotPlan)
              && IsNewest(s.log, run, EditReviews(chain.sound.edit), chain.sound.editReview)
              && s.log[chain.sound.editReview].body.accept
              && PreviewIntact(s.log, run, chain.sound.edit, chain.sound.editReview)
  {
  }

  lemma RecordingNewestIs(s: State, run: string, plan: nat, shot: nat, cues: nat, take: nat)
    requires shot < cues
    ensures RecordingNewest(s, run, plan, shot, take) <==>
              IsNewest(s.log, run, Takes(plan, shot), take) && TakeCurrent(s, cues, take)
  {
  }

  lemma HearingNewestIs(log: Rows, run: string, plan: nat, shot: nat, link: Link)
    ensures HearingNewest(log, run, plan, shot, link) <==>
              && IsNewest(log, run, Listenings(plan, shot), link.listening)
              && log[link.listening].body.take == link.take && log[link.listening].body.accept
              && IsNewest(log, run, Transcripts(link.take, link.listening), link.transcript)
              && IsNewest(log, run, CaptionReviews(link.take), link.captions)
              && log[link.captions].body.transcript == link.transcript
  {
  }

  lemma AllNewestIsStands(s: State, run: string, chain: Chain)
    ensures AllNewest(s, run, chain) <==> Stands(s, run, chain)
  {
    EditNewestIs(s, run, chain);
    if chain.sound.SoundPlan? && |chain.links| == chain.sound.cues {
      forall k | 0 <= k < |chain.links|
        ensures LinkIsNewest(s, run, chain, k) <==>
                  && RecordingNewest(s, run, chain.plan, k, chain.links[k].take)
                  && HearingNewest(s.log, run, chain.plan, k, chain.links[k])
      {
        RecordingNewestIs(s, run, chain.plan, k, chain.sound.cues, chain.links[k].take);
        HearingNewestIs(s.log, run, chain.plan, k, chain.links[k]);
      }
    }
  }

  /** build succeeds, with this lineage, exactly when everything in it is the newest
      of its kind. */
  lemma BuildSucceedsIffNewest(s: State, run: string, plan: nat, sound: Body, chain: Chain)
    ensures Build(s, run, plan, sound) == Some(chain)
            <==> chain.plan == plan && chain.sound == sound && AllNewest(s, run, chain)
  {
    BuildSucceedsIffStands(s, run, plan, sound, chain);
    AllNewestIsStands(s, run, chain);
  }

  // ------------------------------------------------------ staging and validation

  function FirstStaged(log: Rows, run: string, chain: Chain): Option<nat> {
    if log == [] then None
    else
      var n := |log| - 1;
      var before := FirstStaged(log[..n], run, chain);
      if before.Some? then before
      else if log[n].run == run && log[n].body == Staged(chain) then Some(n) else None
  }

  /** stage: the receipt it returns, or None where it raises; `files` says whether the
      staged files, if any, still hold their bytes. */
  function Stage(s: State, run: string, expected: Chain, unsealed: bool, files: bool): (Rows, Option<nat>) {
    if Build(s, run, expected.plan, expected.sound) != Some(expected) || !unsealed || !files then (s.log, None)
    else
      var existing := FirstStaged(s.log, run, expected);
      if existing.Some? then (s.log, existing) else (Append(s.log, run, Staged(expected)), Some(|s.log|))
  }

  predicate SourceStaged(log: Rows, run: string, binding: Binding) {
    exists j :: 0 <= j < |log| && log[j].run == run && log[j].body == SoundSource(binding)
  }

  predicate SourceValid(s: State, run: string, binding: Binding, plan: nat) {
    SourceStaged(s.log, run, binding) && binding.plan == plan && ConsentLive(s, binding.asset, binding.consent)
  }

  predicate SourcesValid(s: State, run: string, sources: seq<Binding>, plan: nat) {
    forall i :: 0 <= i < |sources| ==> SourceValid(s, run, sources[i], plan)
  }

  /** validate_materialization, up to comparing the request with the receipt's files. */
  predicate Validates(s: State, run: string, receipt: nat, sources: seq<Binding>, unsealed: bool, files: bool) {
    && receipt < |s.log| && s.log[receipt].run == run && s.log[receipt].body.Staged?
    && var chain := s.log[receipt].body.chain;
       SourcesValid(s, run, sources, chain.plan) && Stage(s, run, chain, unsealed, files).1 == Some(receipt)
  }

  method ValidateSources(s: State, run: string, sources: seq<Binding>, plan: nat) returns (ok: bool)
    ensures ok <==> SourcesValid(s, run, sources, plan)
  {
    for i := 0 to |sources|
      invariant forall k :: 0 <= k < i ==> SourceValid(s, run, sources[k], plan)
    {
      var found := false;
      for j := 0 to |s.log|
        invariant found <==> exists k :: 0 <= k < j && s.log[k].run == run && s.log[k].body == SoundSource(sources[i])
      {
        found := found || (s.log[j].run == run && s.log[j].body == SoundSource(sources[i]));
      }
      if !found || sources[i].plan != plan || !ConsentLive(s, sources[i].asset, sources[i].consent) {
        return false;
      }
    }
    return true;
  }

  class DialogueService {
    var rows: Rows

    constructor ()
      ensures rows == []
    {
      rows := [];
    }

    /** `s` is what the transaction reads: these rows, and the state beside them. */
    method StageDialogue(s: State, run: string, expected: Chain, unsealed: bool, files: bool)
      returns (receipt: Option<nat>)
      requires s.log == rows
      modifies this
      ensures (rows, receipt) == Stage(s, run, expected, unsealed, files)
    {
      var built := Build(s, run, expected.plan, expected.sound);
      if built != Some(expected) || !unsealed || !files {
        return None;
      }
      var existing: Option<nat> := None;
      for i := 0 to |rows|
        invariant existing == FirstStaged(rows[..i], run, expected)
        invariant rows == old(rows)
      {
        assert rows[..i + 1][..i] == rows[..i];
        if existing.None? && rows[i].run == run && rows[i].body == Staged(expected) {
          existing := Some(i);
        }
      }
      assert rows[..|rows|] == rows;
      if existing.Some? {
        return existing;
      }
      var sequence := NextSequence(rows, run);
      rows := rows + [Event(|rows|, run, sequence, Staged(expected))];
      return Some(|rows| - 1);
    }
  }

  // --------------------------------------------------------------- main results

  /** The events a chain counts on being the newest answers to their queries. */
  predicate RestsOn(chain: Chain, q: Query, id: nat) {
    && chain.sound.SoundPlan?
    && match q
       case Edits => id == chain.sound.edit
       case EditReviews(edit) => edit == chain.sound.edit && id == chain.sound.editReview
       case Takes(plan, shot) => plan == chain.plan && shot < |chain.links| && id == chain.links[shot].take
       case Listenings(plan, shot) => plan == chain.plan && shot < |chain.links| && id == chain.links[shot].listening
       case Transcripts(take, listening) =>
         exists k :: 0 <= k < |chain.links| && take == chain.links[k].take && listening == chain.links[k].listening
                     && id == chain.links[k].transcript
       case CaptionReviews(take) =>
         exists k :: 0 <= k < |chain.links| && take == chain.links[k].take && id == chain.links[k].captions
  }

  lemma RestsOnNewest(s: State, run: string, chain: Chain, q: Query, id: nat)
    requires Stands(s, run, chain) && RestsOn(chain, q, id)
    ensures IsNewest(s.log, run, q, id)
  {
    match q
    case Edits =>
    case EditReviews(_) =>
    case Takes(_, shot) => assert LinkIsNewest(s, run, chain, shot);
    case Listenings(_, shot) => assert LinkIsNewest(s, run, chain, shot);
    case Transcripts(take, listening) =>
      var k :| 0 <= k < |chain.links| && take == chain.links[k].take && listening == chain.links[k].listening
               && id == chain.links[k].transcript;
      assert LinkIsNewest(s, run, chain, k);
    case CaptionReviews(take) =>
      var k :| 0 <= k < |chain.links| && take == chain.links[k].take && id == chain.links[k].captions;
      assert LinkIsNewest(s, run, chain, k);
  }

  lemma ValidatesIffStands(s: State, run: string, receipt: nat, sources: seq<Binding>, unsealed: bool, files: bool)
    requires receipt < |s.log| && s.log[receipt].run == run && s.log[receipt].body.Staged?
    ensures var chain := s.log[receipt].body.chain;
            Validates(s, run, receipt, sources, unsealed, files) <==>
              && Stands(s, run, chain) && FirstStaged(s.log, run, chain) == Some(receipt)
              && SourcesValid(s, run, sources, chain.plan) && unsealed && files
  {
    var chain := s.log[receipt].body.chain;
    BuildSucceedsIffStands(s, run, chain.plan, chain.sound, chain);
  }

  lemma {:induction false} FirstStagedBefore(log: Rows, run: string, chain: Chain, receipt: nat)
    ensures FirstStaged(log, run, chain) == Some(receipt) <==>
              && receipt < |log| && log[receipt].run == run && log[receipt].body == Staged(chain)
              && forall j :: 0 <= j < receipt ==> !(log[j].run == run && log[j].body == Staged(chain))
    ensures FirstStaged(log, run, chain).None?
            <==> forall j :: 0 <= j < |log| ==> !(log[j].run == run && log[j].body == Staged(chain))
  {
    if log != [] {
      var n := |log| - 1;
      FirstStagedBefore(log[..n], run, chain, receipt);
      forall j | 0 <= j < n ensures log[..n][j] == log[j] {}
      if FirstStaged(log[..n], run, chain).Some? {
        FirstStagedBefore(log[..n], run, chain, FirstStaged(log[..n], run, chain).value);
      }
    }
  }

  /** A sound layer may be mixed in: it was staged for this plan, its asset's bytes may be used,
      and the last record of its consent grants it, is named and is the bound one. */
  predicate SourceMayPlay(s: State, run: string, binding: Binding, plan: nat) {
    && (exists j :: 0 <= j < |s.log| && s.log[j].run == run && s.log[j].body == SoundSource(binding))
    && binding.plan == plan
    && binding.asset in s.usable && binding.asset in s.consents && |s.consents[binding.asset]| > 0
    && s.consents[binding.asset][|s.consents[binding.asset]| - 1] == Consent(binding.consent, true, true)
  }

  lemma SourceMayPlayIs(s: State, run: string, binding: Binding, plan: nat)
    ensures SourceMayPlay(s, run, binding, plan) <==> SourceValid(s, run, binding, plan)
  {
  }

  /** A receipt validates exactly while its whole chain is newest, it is the first
      receipt for that chain, every sound layer may be mixed in, and nothing outside
      the log has moved. */
  lemma ReceiptValidatesIff(s: State, run: string, receipt: nat, sources: seq<Binding>, unsealed: bool, files: bool)
    requires receipt < |s.log| && s.log[receipt].run == run && s.log[receipt].body.Staged?
    ensures var chain := s.log[receipt].body.chain;
            Validates(s, run, receipt, sources, unsealed, files) <==>
              && AllNewest(s, run, chain)
              && (forall j :: 0 <= j < receipt ==> !(s.log[j].run == run && s.log[j].body == Staged(chain)))
              && (forall i :: 0 <= i < |sources| ==> SourceMayPlay(s, run, sources[i], chain.plan))
              && unsealed && files
  {
    var chain := s.log[receipt].body.chain;
    ValidatesIffStands(s, run, receipt, sources, unsealed, files);
    AllNewestIsStands(s, run, chain);
    FirstStagedBefore(s.log, run, chain, receipt);
    forall i | 0 <= i < |sources|
      ensures SourceMayPlay(s, run, sources[i], chain.plan) <==> SourceValid(s, run, sources[i], chain.plan)
    {
      SourceMayPlayIs(s, run, sources[i], chain.plan);
    }
  }

  /** A take of the chain, or a sound layer mixed over it, plays this asset. */
  predicate PlaysAsset(log: Rows, chain: Chain, sources: seq<Binding>, asset: string) {
    || (exists k :: 0 <= k < |chain.links| && TakeOf(log, chain.links[k].take, asset))
    || (exists i :: 0 <= i < |sources| && sources[i].asset == asset)
  }

  predicate TakeOf(log: Rows, take: nat, asset: string) {
    take < |log| && log[take].body.Take? && log[take].body.asset == asset
  }

  /** No receipt validates over a recording or sound layer whose asset may not be used: its
      bytes changed, or its kind, scope or consent flag no longer allows it. */
  lemma UnusableAssetFails(s: State, run: string, receipt: nat, asset: string, sources: seq<Binding>,
                           unsealed: bool, files: bool)
    requires receipt < |s.log| && s.log[receipt].run == run && s.log[receipt].body.Staged?
    requires PlaysAsset(s.log, s.log[receipt].body.chain, sources, asset) && asset !in s.usable
    ensures !Validates(s, run, receipt, sources, unsealed, files)
  {
    ReceiptValidatesIff(s, run, receipt, sources, unsealed, files);
    var chain := s.log[receipt].body.chain;
    if AllNewest(s, run, chain) {
      if k: nat :| k < |chain.links| && TakeOf(s.log, chain.links[k].take, asset) {
        assert RecordingNewest(s, run, chain.plan, k, chain.links[k].take);
      } else {
        var i :| 0 <= i < |sources| && sources[i].asset == asset;
        assert !SourceMayPlay(s, run, sources[i], chain.plan);
      }
    }
  }

  /** Row j is the run's first receipt for this chain. */
  predicate IsFirstReceipt(log: Rows, run: string, chain: Chain, j: nat) {
    && j < |log| && log[j].run == run && log[j].body == Staged(chain)
    && forall i :: 0 <= i < j ==> !(log[i].run == run && log[i].body == Staged(chain))
  }

  /** Staging writes only over a chain that is newest throughout, in an unsealed run whose staged
      files are intact: it returns the chain's first receipt, or appends one if there is none. */
  lemma StagingVerdict(s: State, run: string, chain: Chain, unsealed: bool, files: bool)
    ensures var (log', receipt) := Stage(s, run, chain, unsealed, files);
            if !AllNewest(s, run, chain) || !unsealed || !files then log' == s.log && receipt.None?
            else if exists j: nat :: IsFirstReceipt(s.log, run, chain, j)
            then log' == s.log && receipt.Some? && IsFirstReceipt(s.log, run, chain, receipt.value)
            else log'[..|s.log|] == s.log && receipt == Some(|s.log|) && |log'| == |s.log| + 1
                 && log'[|s.log|].id == |s.log| && log'[|s.log|].run == run && log'[|s.log|].body == Staged(chain)
  {
    BuildSucceedsIffNewest(s, run, chain.plan, chain.sound, chain);
    if j: nat :| IsFirstReceipt(s.log, run, chain, j) {
      FirstStagedBefore(s.log, run, chain, j);
    } else {
      FirstStagedIsFirst(s.log, run, chain);
    }
  }

  lemma {:induction false} FirstStagedIsFirst(log: Rows, run: string, chain: Chain)
    ensures FirstStaged(log, run, chain).Some? ==> IsFirstReceipt(log, run, chain, FirstStaged(log, run, chain).value)
  {
    if FirstStaged(log, run, chain).Some? {
      FirstStagedBefore(log, run, chain, FirstStaged(log, run, chain).value);
    }
  }

  /** Any later event that answers the same question as a link — a new edit, a new
      decision on it, a new take, listening decision, transcript or caption decision —
      makes every older receipt fail, in that state and in every later one. */
  lemma SupersededReceiptFails(s: State, run: string, receipt: nat, q: Query, id: nat, j: nat,
                               sources: seq<Binding>, unsealed: bool, files: bool)
    requires receipt < |s.log| && s.log[receipt].run == run && s.log[receipt].body.Staged?
    requires RestsOn(s.log[receipt].body.chain, q, id)
    requires id < j < |s.log| && Answers(s.log[j], run, q)
    ensures !Validates(s, run, receipt, sources, unsealed, files)
  {
    ValidatesIffStands(s, run, receipt, sources, unsealed, files);
    if Stands(s, run, s.log[receipt].body.chain) {
      RestsOnNewest(s, run, s.log[receipt].body.chain, q, id);
    }
  }

  /** A later state: the log and each asset's consent records only grow, and a new
      record's id is fresh. Anything else may have changed. */
  predicate Later(s: State, s': State) {
    && s.log <= s'.log
    && (forall a :: a in s.consents ==> a in s'.consents && s.consents[a] <= s'.consents[a])
    && (forall a :: a in s'.consents ==> DistinctIds(s'.consents[a]))
  }

  predicate DistinctIds(records: seq<Consent>) {
    forall i, j :: 0 <= i < j < |records| ==> records[i].id != records[j].id
  }

  /** A take of the chain, or a sound layer mixed over it, was bound under this consent record. */
  predicate UsesConsent(log: Rows, chain: Chain, sources: seq<Binding>, asset: string, consent: nat) {
    || (exists k ::
          && 0 <= k < |chain.links| && chain.links[k].take < |log|
          && BoundUnder(log[chain.links[k].take].body, asset, consent))
    || (exists i :: 0 <= i < |sources| && sources[i].asset == asset && sources[i].consent == consent)
  }

  predicate BoundUnder(take: Body, asset: string, consent: nat) {
    take.Take? && take.asset == asset && take.consent == consent
  }

  /** One more record, revoking the consent or granting it again, ends the one before for ever. */
  lemma ReplacedConsentIsDead(s: State, s': State, asset: string, consent: nat)
    requires ConsentLive(s, asset, consent) && Later(s, s') && |s'.consents[asset]| > |s.consents[asset]|
    ensures !ConsentLive(s', asset, consent)
  {
    var before, now := s.consents[asset], s'.consents[asset];
    assert now[|before| - 1] == before[|before| - 1];
  }

  /** So does revoking a recording's or sound layer's consent, or granting it again: from
      then on, whatever is recorded later, a receipt resting on it never validates. */
  lemma ChangedConsentFails(s: State, s': State, run: string, receipt: nat, asset: string, consent: nat,
                            sources: seq<Binding>, unsealed: bool, files: bool)
    requires receipt < |s.log| && s.log[receipt].run == run && s.log[receipt].body.Staged?
    requires UsesConsent(s.log, s.log[receipt].body.chain, sources, asset, consent) && ConsentLive(s, asset, consent)
    requires Later(s, s') && |s'.consents[asset]| > |s.consents[asset]|
    ensures !Validates(s', run, receipt, sources, unsealed, files)
  {
    var chain := s.log[receipt].body.chain;
    ReplacedConsentIsDead(s, s', asset, consent);
    ValidatesIffStands(s', run, receipt, sources, unsealed, files);
    if Stands(s', run, chain) && SourcesValid(s', run, sources, chain.plan) {
      if k: nat :| k < |chain.links| && chain.links[k].take < |s.log|
                   && BoundUnder(s.log[chain.links[k].take].body, asset, consent) {
        NewestHasLiveConsent(s', run, chain, k);
      }
    }
  }

  lemma NewestHasLiveConsent(s: State, run: string, chain: Chain, k: nat)
    requires k < |chain.links|
    ensures Stands(s, run, chain) ==>
              && chain.links[k].take < |s.log| && s.log[chain.links[k].take].body.Take?
              && var take := s.log[chain.links[k].take].body; ConsentLive(s, take.asset, take.consent)
  {
    if Stands(s, run, chain) {
      assert LinkIsNewest(s, run, chain, k);
    }
  }

  predicate Neutral(body: Body) {
    body.Preview? || body.SoundPlan? || body.Staged? || body.SoundSource? || body.Other?
  }

  lemma NeutralKeepsNewest(log: Rows, run: string, e: Event<Body>, q: Query, id: nat)
    requires Neutral(e.body)
    ensures IsNewest(log + [e], run, q, id) <==> IsNewest(log, run, q, id)
  {
    if IsNewest(log + [e], run, q, id) {
      forall j | id < j < |log| ensures !Answers(log[j], run, q) { assert (log + [e])[j] == log[j]; }
    }
  }

  /** Previews, staged files and even a newer sound plan leave an older lineage standing. */
  lemma NeutralEventsKeepChain(s: State, run: string, e: Event<Body>, chain: Chain)
    requires Neutral(e.body) && AllNewest(s, run, chain)
    ensures AllNewest(s.(log := s.log + [e]), run, chain)
  {
    AllNewestIsStands(s, run, chain);
    NeutralEventsKeepStanding(s, run, e, chain);
    AllNewestIsStands(s.(log := s.log + [e]), run, chain);
  }

  lemma NeutralEventsKeepStanding(s: State, run: string, e: Event<Body>, chain: Chain)
    requires Neutral(e.body) && Stands(s, run, chain)
    ensures Stands(s.(log := s.log + [e]), run, chain)
  {
    var s' := s.(log := s.log + [e]);
    NeutralKeepsNewest(s.log, run, e, EditReviews(chain.sound.edit), chain.sound.editReview);
    forall k | 0 <= k < |chain.links| ensures LinkIsNewest(s', run, chain, k) {
      assert LinkIsNewest(s, run, chain, k);
      var link := chain.links[k];
      NeutralKeepsNewest(s.log, run, e, Takes(chain.plan, k), link.take);
      NeutralKeepsNewest(s.log, run, e, Listenings(chain.plan, k), link.listening);
    }
  }

  /** What stage has just returned does validate, with any sound layers that pass then. */
  lemma FreshReceiptValidates(s: State, run: string, chain: Chain, sources: seq<Binding>)
    requires Stage(s, run, chain, true, true).1.Some? && SourcesValid(s, run, sources, chain.plan)
    ensures var (log', receipt) := Stage(s, run, chain, true, true);
            Validates(s.(log := log'), run, receipt.value, sources, true, true)
  {
    BuildSucceedsIffStands(s, run, chain.plan, chain.sound, chain);
    var (log', receipt) := Stage(s, run, chain, true, true);
    if FirstStaged(s.log, run, chain).Some? {
      FirstStagedIs(s.log, run, chain);
    } else {
      NeutralEventsKeepStanding(s, run, log'[|s.log|], chain);
    }
    SourcesStayValid(s, run, log', sources, chain.plan);
    ValidatesIffStands(s.(log := log'), run, receipt.value, sources, true, true);
  }

  lemma SourcesStayValid(s: State, run: string, log': Rows, sources: seq<Binding>, plan: nat)
    requires s.log <= log' && SourcesValid(s, run, sources, plan)
    ensures SourcesValid(s.(log := log'), run, sources, plan)
  {
    forall i | 0 <= i < |sources| ensures SourceValid(s.(log := log'), run, sources[i], plan) {
      assert SourceValid(s, run, sources[i], plan);
      var j :| 0 <= j < |s.log| && s.log[j].run == run && s.log[j].body == SoundSource(sources[i]);
      assert log'[j] == s.log[j];
    }
  }

  lemma {:induction false} FirstStagedIs(log: Rows, run: string, chain: Chain)
    ensures var first := FirstStaged(log, run, chain);
            first.Some? ==> first.value < |log| && log[first.value].run == run && log[first.value].body == Staged(chain)
  {
    if log != [] {
      FirstStagedIs(log[..|log| - 1], run, chain);
    }
  }
}
