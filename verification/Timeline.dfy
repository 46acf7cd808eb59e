// Picture edit -> frame timeline -> sound cues -> sample counts.
// Seconds are exact reals; the output picture runs at 24 frames and the sound
// at 48000 sample frames a second, so one picture frame is 2000 sample frames.
module Timeline {
  import opened Prelude
  import opened Rounding

  // ---------------------------------------------------------------- editing

  datatype Cut = Cut(shotIndex: nat, sourceIn: real, sourceOut: real)

  datatype Entry = Entry(shotIndex: nat, start: real, duration: real, frames: nat)

  datatype Edit = Edit(timeline: seq<Entry>, total: real)

  datatype CutProblem =
    | ExceedsSource
    | WholeSourcePassthrough
    | ShorterThanOneFrame
    | RoundedPastSource

  datatype EditError = WrongOrder | BadCut(index: nat, problem: CutProblem)

  /** What request validation already guarantees of one cut. */
  predicate WellFormedCut(c: Cut) {
    0.0 <= c.sourceIn < c.sourceOut
  }

  function CutFrames(c: Cut): int {
    RoundHalfEven((c.sourceOut - c.sourceIn) * 24.0)
  }

  predicate NearlyWholeSource(c: Cut, source: real) {
    c.sourceIn <= 0.05 && c.sourceOut >= source - 0.05
  }

  /** The four reasons a cut is refused, in the order they are tried. */
  function ProblemOf(c: Cut, source: real): Option<CutProblem> {
    if c.sourceOut > source then Some(ExceedsSource)
    else if NearlyWholeSource(c, source) then Some(WholeSourcePassthrough)
    else if CutFrames(c) < 1 then Some(ShorterThanOneFrame)
    else if c.sourceIn + CutFrames(c) as real / 24.0 > source then Some(RoundedPastSource)
    else None
  }

  /** Rounded to whole frames at 24 a second, a length is nothing exactly up to half a frame. */
  lemma HalfAFrameIsNothing(c: Cut)
    ensures CutFrames(c) < 1 <==> c.sourceOut - c.sourceIn <= 1.0 / 48.0
  {
    NearestTiesToEven((c.sourceOut - c.sourceIn) * 24.0, CutFrames(c));
  }

  /** Which cuts are refused, and for what, in seconds: past the source; everything but the
      twentieths of a second at either end; half a frame or less; a window whose nearest whole
      number of frames ends past the source. */
  lemma CutVerdict(c: Cut, source: real)
    ensures ProblemOf(c, source)
            == (if c.sourceOut > source then Some(ExceedsSource)
                else if c.sourceIn <= 1.0 / 20.0 && source - c.sourceOut <= 1.0 / 20.0 then Some(WholeSourcePassthrough)
                else if c.sourceOut - c.sourceIn <= 1.0 / 48.0 then Some(ShorterThanOneFrame)
                else if 24.0 * c.sourceIn + RoundHalfEven(24.0 * (c.sourceOut - c.sourceIn)) as real > 24.0 * source
                then Some(RoundedPastSource)
                else None)
  {
    HalfAFrameIsNothing(c);
  }

  function AllFrames(cuts: seq<Cut>): (r: seq<int>)
    ensures |r| == |cuts|
    ensures forall i :: 0 <= i < |cuts| ==> r[i] == CutFrames(cuts[i])
  {
    seq(|cuts|, i requires 0 <= i < |cuts| => CutFrames(cuts[i]))
  }

  /** Frames on the timeline before entry i. */
  function FramesBefore(frames: seq<int>, i: nat): int
    requires i <= |frames|
  {
    Sum(frames[..i])
  }

  lemma FramesBeforeStep(frames: seq<int>, i: nat)
    requires i < |frames|
    ensures FramesBefore(frames, i + 1) == FramesBefore(frames, i) + frames[i]
  {
    assert frames[..i + 1][..i] == frames[..i];
  }

  lemma {:induction false} FramesBeforeMonotone(frames: seq<int>, i: nat, j: nat)
    requires i <= j <= |frames|
    requires forall k :: 0 <= k < |frames| ==> frames[k] >= 0
    ensures 0 <= FramesBefore(frames, i) <= FramesBefore(frames, j)
  {
    if i < j {
      FramesBeforeMonotone(frames, i, j - 1);
      FramesBeforeStep(frames, j - 1);
    } else {
      SumNonNegative(frames[..i]);
    }
  }

  predicate InConfirmedOrder(cuts: seq<Cut>, n: nat) {
    && |cuts| == n
    && forall i :: 0 <= i < |cuts| ==> cuts[i].shotIndex == i
  }

  predicate Accepted(cuts: seq<Cut>, sources: seq<real>) {
    && InConfirmedOrder(cuts, |sources|)
    && forall i :: 0 <= i < |cuts| ==> ProblemOf(cuts[i], sources[i]) == None
  }

  /** The timeline and cursor the first |timeline| cuts must produce. */
  predicate Realises(cuts: seq<Cut>, timeline: seq<Entry>, cursor: real)
    requires |timeline| <= |cuts|
  {
    && cursor == FramesBefore(AllFrames(cuts), |timeline|) as real / 24.0
    && forall i :: 0 <= i < |timeline| ==> timeline[i] == EntryOf(cuts, i)
  }

  /** Entry i starts where the earlier frames end and lasts its own frames. */
  function EntryOf(cuts: seq<Cut>, i: nat): Entry
    requires i < |cuts|
  {
    var frames := CutFrames(cuts[i]);
    Entry(i, FramesBefore(AllFrames(cuts), i) as real / 24.0, frames as real / 24.0, if frames < 0 then 0 else frames)
  }

  lemma RealisesStep(cuts: seq<Cut>, timeline: seq<Entry>, cursor: real)
    requires |timeline| < |cuts| && Realises(cuts, timeline, cursor)
    ensures var i := |timeline|;
            Realises(cuts, timeline + [EntryOf(cuts, i)], cursor + CutFrames(cuts[i]) as real / 24.0)
  {
    FramesBeforeStep(AllFrames(cuts), |timeline|);
  }

  method CheckOrder(cuts: seq<Cut>, n: nat) returns (ordered: bool)
    ensures ordered <==> InConfirmedOrder(cuts, n)
  {
    ordered := |cuts| == n;
    for i := 0 to |cuts|
      invariant ordered <==> |cuts| == n && forall k :: 0 <= k < i ==> cuts[k].shotIndex == k
    {
      ordered := ordered && cuts[i].shotIndex == i;
    }
  }

  method DraftEdit(cuts: seq<Cut>, sources: seq<real>) returns (r: Result<Edit, EditError>)
    requires forall i :: 0 <= i < |cuts| ==> WellFormedCut(cuts[i])
    ensures r.Ok? <==> Accepted(cuts, sources)
    ensures r == Err(WrongOrder) <==> !InConfirmedOrder(cuts, |sources|)
    ensures r.Err? && r.error.BadCut? ==>
              && r.error.index < |cuts| == |sources|
              && ProblemOf(cuts[r.error.index], sources[r.error.index]) == Some(r.error.problem)
              && forall i :: 0 <= i < r.error.index ==> ProblemOf(cuts[i], sources[i]) == None
    ensures r.Ok? ==> |r.value.timeline| == |cuts| && Realises(cuts, r.value.timeline, r.value.total)
  {
    var ordered := CheckOrder(cuts, |sources|);
    if !ordered {
      return Err(WrongOrder);
    }
    var timeline: seq<Entry> := [];
    var cursor := 0.0;
    for i := 0 to |cuts|
      invariant |timeline| == i
      invariant Realises(cuts, timeline, cursor)
      invariant forall k :: 0 <= k < i ==> ProblemOf(cuts[k], sources[k]) == None
    {
      var cut := cuts[i];
      if cut.sourceOut > sources[i] {
        return Err(BadCut(i, ExceedsSource));
      }
      if cut.sourceIn <= 0.05 && cut.sourceOut >= sources[i] - 0.05 {
        return Err(BadCut(i, WholeSourcePassthrough));
      }
      var count := RoundHalfEven((cut.sourceOut - cut.sourceIn) * 24.0);
      if count < 1 {
        return Err(BadCut(i, ShorterThanOneFrame));
      }
      var duration := count as real / 24.0;
      if cut.sourceIn + duration > sources[i] {
        return Err(BadCut(i, RoundedPastSource));
      }
      RealisesStep(cuts, timeline, cursor);
      timeline := timeline + [Entry(cut.shotIndex, cursor, duration, count)];
      cursor := cursor + duration;
    }
    return Ok(Edit(timeline, cursor));
  }

  /** Total length asked for, before any rounding to frames. */
  function Requested(cuts: seq<Cut>): real {
    if cuts == [] then 0.0
    else Requested(cuts[..|cuts| - 1]) + (cuts[|cuts| - 1].sourceOut - cuts[|cuts| - 1].sourceIn)
  }

  lemma {:induction false} DriftOfPrefix(cuts: seq<Cut>, i: nat)
    requires i <= |cuts|
    ensures -(i as real) / 48.0
            <= FramesBefore(AllFrames(cuts), i) as real / 24.0 - Requested(cuts[..i])
            <= i as real / 48.0
  {
    if i > 0 {
      DriftOfPrefix(cuts, i - 1);
      FramesBeforeStep(AllFrames(cuts), i - 1);
      assert cuts[..i][..i - 1] == cuts[..i - 1];
    }
  }

  /** Rounding moves the whole edit by at most half a frame per shot. */
  lemma {:induction false} EditDriftIsBounded(cuts: seq<Cut>)
    ensures -(|cuts| as real) / 48.0
            <= FramesBefore(AllFrames(cuts), |cuts|) as real / 24.0 - Requested(cuts)
            <= |cuts| as real / 48.0
  {
    DriftOfPrefix(cuts, |cuts|);
    assert cuts[..|cuts|] == cuts;
  }

  /** Every accepted window, requested or frame-rounded, lies inside its source,
      and is never the whole source. */
  lemma AcceptedWindowsStayInside(cuts: seq<Cut>, sources: seq<real>, i: nat)
    requires Accepted(cuts, sources) && i < |cuts| && WellFormedCut(cuts[i])
    ensures var played := CutFrames(cuts[i]) as real / 24.0;
            && 0.0 <= cuts[i].sourceIn
            && cuts[i].sourceIn + 1.0 / 24.0 <= cuts[i].sourceIn + played <= sources[i]
            && cuts[i].sourceOut <= sources[i]
            && cuts[i].sourceOut - cuts[i].sourceIn < sources[i] - 0.05
  {
  }

  /** The timeline starts at zero, has no gap or overlap, and ends at its total. */
  lemma TimelineIsContiguous(cuts: seq<Cut>, sources: seq<real>, edit: Edit)
    requires Accepted(cuts, sources)
    requires |edit.timeline| == |cuts| && Realises(cuts, edit.timeline, edit.total)
    ensures cuts != [] ==> edit.timeline[0].start == 0.0
    ensures forall i :: 0 <= i < |cuts| ==>
              edit.timeline[i].start + edit.timeline[i].duration
              == if i + 1 < |cuts| then edit.timeline[i + 1].start else edit.total
  {
    forall i | 0 <= i < |cuts|
      ensures edit.timeline[i].start + edit.timeline[i].duration
              == if i + 1 < |cuts| then edit.timeline[i + 1].start else edit.total
    {
      FramesBeforeStep(AllFrames(cuts), i);
    }
  }

  // ------------------------------------------------------------- sound cues

  datatype Cue = Cue(shotIndex: nat, start: real, end: real)

  function RealSum(s: seq<real>): real {
    if s == [] then 0.0 else RealSum(s[..|s| - 1]) + s[|s| - 1]
  }

  /** Cue i spans from the sum of the earlier durations to that sum with its own. */
  function CueOf(durations: seq<real>, i: nat): Cue
    requires i < |durations|
  {
    Cue(i, RealSum(durations[..i]), RealSum(durations[..i + 1]))
  }

  lemma RealSumStep(durations: seq<real>, i: nat)
    requires i < |durations|
    ensures RealSum(durations[..i + 1]) == RealSum(durations[..i]) + durations[i]
  {
    assert durations[..i + 1][..i] == durations[..i];
  }

  method PrepareCues(durations: seq<real>) returns (cues: seq<Cue>, total: real)
    ensures |cues| == |durations| && total == RealSum(durations)
    ensures forall i :: 0 <= i < |cues| ==> cues[i] == CueOf(durations, i)
  {
    cues := [];
    var cursor := 0.0;
    for i := 0 to |durations|
      invariant |cues| == i && cursor == RealSum(durations[..i])
      invariant forall k :: 0 <= k < i ==> cues[k] == CueOf(durations, k)
    {
      RealSumStep(durations, i);
      var end := cursor + durations[i];
      cues := cues + [Cue(i, cursor, end)];
      cursor := end;
    }
    assert durations[..|durations|] == durations;
    total := cursor;
  }

  function FrameDurations(frames: seq<int>): (r: seq<real>)
    ensures |r| == |frames|
    ensures forall i :: 0 <= i < |frames| ==> r[i] == frames[i] as real / 24.0
  {
    seq(|frames|, i requires 0 <= i < |frames| => frames[i] as real / 24.0)
  }

  /** The cue of shot i when every shot lasts a whole number of frames. */
  function FrameCue(frames: seq<int>, i: nat): Cue
    requires i < |frames|
  {
    Cue(i, FramesBefore(frames, i) as real / 24.0, FramesBefore(frames, i + 1) as real / 24.0)
  }

  lemma {:induction false} RealSumOfFrames(frames: seq<int>, i: nat)
    requires i <= |frames|
    ensures RealSum(FrameDurations(frames)[..i]) == FramesBefore(frames, i) as real / 24.0
  {
    if i > 0 {
      RealSumOfFrames(frames, i - 1);
      FramesBeforeStep(frames, i - 1);
      assert FrameDurations(frames)[..i][..i - 1] == FrameDurations(frames)[..i - 1];
    }
  }

  /** Cues prepared from an edit's frame counts: contiguous, frame-exact windows
      that fill the whole edit. */
  lemma CuesOfAnEdit(frames: seq<int>, i: nat)
    requires i < |frames|
    ensures CueOf(FrameDurations(frames), i) == FrameCue(frames, i)
    ensures FrameCue(frames, 0).start == 0.0
    ensures FrameCue(frames, i).end - FrameCue(frames, i).start == frames[i] as real / 24.0
    ensures FrameCue(frames, i).end
            == if i + 1 < |frames| then FrameCue(frames, i + 1).start else RealSum(FrameDurations(frames))
  {
    RealSumOfFrames(frames, i);
    RealSumOfFrames(frames, i + 1);
    FramesBeforeStep(frames, i);
  }

  lemma EntryFrames(cuts: seq<Cut>, i: nat)
    requires i < |cuts|
    ensures EntryOf(cuts, i).duration == AllFrames(cuts)[i] as real / 24.0
    ensures EntryOf(cuts, i).start == FrameCue(AllFrames(cuts), i).start
  {
  }

  lemma AcceptedFrames(cuts: seq<Cut>, sources: seq<real>, i: nat)
    requires Accepted(cuts, sources) && i < |cuts|
    ensures AllFrames(cuts)[i] >= 1
  {
    assert ProblemOf(cuts[i], sources[i]) == None;
  }

  lemma EntryDurations(cuts: seq<Cut>, edit: Edit, durations: seq<real>)
    requires |edit.timeline| == |cuts| && Realises(cuts, edit.timeline, edit.total)
    requires |durations| == |cuts| && forall i :: 0 <= i < |cuts| ==> durations[i] == edit.timeline[i].duration
    ensures durations == FrameDurations(AllFrames(cuts))
  {
    forall i | 0 <= i < |cuts| ensures durations[i] == AllFrames(cuts)[i] as real / 24.0 {
      EntryFrames(cuts, i);
    }
  }

  /** The cues prepared from an accepted edit's own durations start and end with its entries. */
  lemma CuesOfAcceptedEdit(cuts: seq<Cut>, edit: Edit, durations: seq<real>, i: nat)
    requires i < |cuts| == |edit.timeline| && Realises(cuts, edit.timeline, edit.total)
    requires durations == FrameDurations(AllFrames(cuts))
    ensures CueOf(durations, i) == FrameCue(AllFrames(cuts), i) && CueOf(durations, i).start == edit.timeline[i].start
  {
    EntryFrames(cuts, i);
    CuesOfAnEdit(AllFrames(cuts), i);
  }

  lemma TotalOfAcceptedEdit(cuts: seq<Cut>, edit: Edit, durations: seq<real>)
    requires |edit.timeline| == |cuts| && Realises(cuts, edit.timeline, edit.total)
    requires durations == FrameDurations(AllFrames(cuts))
    ensures RealSum(durations) == edit.total == FramesBefore(AllFrames(cuts), |cuts|) as real / 24.0
  {
    RealSumOfFrames(AllFrames(cuts), |cuts|);
    assert durations[..|cuts|] == durations;
  }

  // ------------------------------------------------------------- recordings

  datatype Take = Take(start: real, duration: real, sampleCount: nat)

  datatype TakeError = CueDurationInvalid | RecordingTooShort

  /** Stereo sample frames in a decoded chunk list; each chunk is interleaved. */
  function SampleFrames(chunks: seq<seq<int>>): nat {
    if chunks == [] then 0
    else SampleFrames(chunks[..|chunks| - 1]) + |chunks[|chunks| - 1]| / 2
  }

  function ChunkFrames(chunks: seq<seq<int>>): seq<int> {
    seq(|chunks|, i requires 0 <= i < |chunks| => |chunks[i]| / 2)
  }

  lemma {:induction false} SampleFramesAreTheSum(chunks: seq<seq<int>>)
    ensures SampleFrames(chunks) == Sum(ChunkFrames(chunks))
  {
    if chunks != [] {
      var before := chunks[..|chunks| - 1];
      SampleFramesAreTheSum(before);
      assert ChunkFrames(chunks)[..|before|] == ChunkFrames(before);
    }
  }

  /** The duration and sample count checks of an attachment. */
  predicate TakeCovers(cue: Cue, samples: nat) {
    0.0 < cue.end - cue.start <= 300.0 && samples == RoundHalfEven((cue.end - cue.start) * 48000.0)
  }

  method AttachTake(cue: Cue, chunks: seq<seq<int>>) returns (r: Result<Take, TakeError>)
    ensures r.Ok? <==>
              && 0.0 < cue.end - cue.start <= 300.0
              && Sum(ChunkFrames(chunks)) == RoundHalfEven((cue.end - cue.start) * 48000.0)
    ensures r == Err(CueDurationInvalid) <==> !(0.0 < cue.end - cue.start <= 300.0)
    ensures r.Ok? ==> r.value == Take(cue.start, cue.end - cue.start, Sum(ChunkFrames(chunks)))
  {
    SampleFramesAreTheSum(chunks);
    var duration := cue.end - cue.start;
    if !(0.0 < duration <= 300.0) {
      return Err(CueDurationInvalid);
    }
    var count := 0;
    for i := 0 to |chunks|
      invariant count == SampleFrames(chunks[..i])
    {
      assert chunks[..i + 1][..i] == chunks[..i];
      count := count + |chunks[i]| / 2;
    }
    assert chunks[..|chunks|] == chunks;
    if count != RoundHalfEven(duration * 48000.0) {
      return Err(RecordingTooShort);
    }
    return Ok(Take(cue.start, duration, count));
  }

  /** A take that covers a frame cue holds exactly 2000 samples a frame, and its
      start falls exactly on 2000 samples for every earlier frame. */
  lemma {:induction false} FrameCueSamples(frames: seq<int>, i: nat)
    requires i < |frames|
    ensures var cue := FrameCue(frames, i);
            && RoundHalfEven((cue.end - cue.start) * 48000.0) == 2000 * frames[i]
            && RoundHalfEven(cue.start * 48000.0) == 2000 * FramesBefore(frames, i)
  {
    FramesBeforeStep(frames, i);
    var cue := FrameCue(frames, i);
  }

  lemma PlanSamples(frames: seq<int>)
    ensures RoundHalfEven(FramesBefore(frames, |frames|) as real / 24.0 * 48000.0)
            == 2000 * FramesBefore(frames, |frames|)
  {
  }
}
