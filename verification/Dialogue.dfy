// Assembling the episode's dialogue track and captions from one adopted
// recording per cue, with no padding, stretching, gap or overlap.
module Dialogue {
  import opened Prelude
  import opened Rounding
  import opened Text
  import opened Captions
  import Timeline
  import Vtt

  type Byte = bv8

  /** A decoded WAV container: the header fields that are checked, and its bytes. */
  datatype Wave = Wave(rate: nat, channels: nat, width: nat, compression: string, data: seq<Byte>)

  datatype Part = Part(start: real, sampleCount: nat, audio: Wave, segments: seq<Segment>)

  datatype AssemblyError =
    | BadInventory
    | GapOrOverlap(part: nat)
    | FormatChanged(part: nat)
    | CoverageChanged(part: nat)
    | Incomplete
    | BadCaptions(error: CaptionError)

  const MAX_SAMPLES := 86_400_000

  predicate IsStudioFormat(w: Wave) {
    w.rate == 48000 && w.channels == 2 && w.width == 2 && w.compression == "NONE"
  }

  /** readframes(getnframes()): whole four-byte frames only. */
  function WholeFrames(w: Wave): seq<Byte> {
    w.data[..|w.data| / 4 * 4]
  }

  function Pcm(parts: seq<Part>): seq<Byte> {
    if parts == [] then [] else Pcm(parts[..|parts| - 1]) + WholeFrames(parts[|parts| - 1].audio)
  }

  function EpisodeWords(parts: seq<Part>): seq<Segment> {
    if parts == [] then []
    else EpisodeWords(parts[..|parts| - 1]) + Shift(parts[|parts| - 1].segments, parts[|parts| - 1].start)
  }

  function Samples(seconds: real): int {
    RoundHalfEven(seconds * 48000.0)
  }

  /** Part i begins where the PCM so far ends, in the right format, with the
      promised number of samples, and does not run past the episode. */
  predicate Fits(parts: seq<Part>, total: int, i: nat)
    requires i < |parts|
  {
    && Samples(parts[i].start) == |Pcm(parts[..i])| / 4
    && IsStudioFormat(parts[i].audio)
    && |WholeFrames(parts[i].audio)| == parts[i].sampleCount * 4
    && |Pcm(parts[..i])| + |WholeFrames(parts[i].audio)| <= total * 4
  }

  predicate Covers(parts: seq<Part>, total: int) {
    && 1 <= total <= MAX_SAMPLES && parts != []
    && (forall i :: 0 <= i < |parts| ==> Fits(parts, total, i))
    && |Pcm(parts)| == total * 4
  }

  method AssembleDialogue(parts: seq<Part>, duration: real) returns (r: Result<(Wave, string), AssemblyError>)
    ensures r.Ok? <==> Covers(parts, Samples(duration)) && Exportable(EpisodeWords(parts), 0.0)
    ensures r.Ok? ==>
              && r.value.0 == Wave(48000, 2, 2, "NONE", Pcm(parts))
              && r.value.1 == Vtt.Render(ExportedCues(EpisodeWords(parts), 0.0, 1))
    ensures r == Err(BadInventory) <==> !(1 <= Samples(duration) <= MAX_SAMPLES && parts != [])
    ensures r.Err? && r.error.BadCaptions? ==> Covers(parts, Samples(duration))
  {
    var total := RoundHalfEven(duration * 48000.0);
    if !(1 <= total <= MAX_SAMPLES) || parts == [] {
      return Err(BadInventory);
    }
    var pcm: seq<Byte> := [];
    var words: seq<Segment> := [];
    for i := 0 to |parts|
      invariant pcm == Pcm(parts[..i]) && words == EpisodeWords(parts[..i])
      invariant forall k :: 0 <= k < i ==> Fits(parts, total, k)
    {
      var part := parts[i];
      if RoundHalfEven(part.start * 48000.0) != |pcm| / 4 {
        assert !Fits(parts, total, i);
        return Err(GapOrOverlap(i));
      }
      if !(part.audio.rate == 48000 && part.audio.channels == 2 && part.audio.width == 2
           && part.audio.compression == "NONE") {
        assert !Fits(parts, total, i);
        return Err(FormatChanged(i));
      }
      var data := WholeFrames(part.audio);
      if |data| != part.sampleCount * 4 || |pcm| + |data| > total * 4 {
        assert !Fits(parts, total, i);
        return Err(CoverageChanged(i));
      }
      assert parts[..i + 1][..i] == parts[..i];
      pcm := pcm + data;
      words := words + Shift(part.segments, part.start);
    }
    assert parts[..|parts|] == parts;
    if |pcm| != total * 4 {
      return Err(Incomplete);
    }
    var captions := CaptionVtt(words, 0.0);
    match captions
    case Err(error) => return Err(BadCaptions(error));
    case Ok(text) => return Ok((Wave(48000, 2, 2, "NONE", pcm), text));
  }

  /** The sample frames each part promises. */
  function Counts(parts: seq<Part>): seq<int> {
    seq(|parts|, i requires 0 <= i < |parts| => parts[i].sampleCount)
  }

  /** A part is in the studio's format and holds as many whole frames as it promises. */
  predicate KeepsItsPromise(part: Part) {
    && part.audio.rate == 48_000 && part.audio.channels == 2 && part.audio.width == 2
    && part.audio.compression == "NONE" && |part.audio.data| / 4 == part.sampleCount
  }

  lemma {:induction false} PcmIsPromised(parts: seq<Part>)
    requires forall i :: 0 <= i < |parts| ==> KeepsItsPromise(parts[i])
    ensures |Pcm(parts)| == 4 * Sum(Counts(parts))
  {
    if parts != [] {
      var before := parts[..|parts| - 1];
      PcmIsPromised(before);
      assert Counts(parts)[..|before|] == Counts(before);
    }
  }

  lemma {:induction false} PrefixSums(counts: seq<int>, i: nat)
    requires i <= |counts| && forall k :: 0 <= k < |counts| ==> counts[k] >= 0
    ensures Sum(counts[..i]) <= Sum(counts)
  {
    SumAppend(counts[..i], counts[i..]);
    SumNonNegative(counts[i..]);
    assert counts == counts[..i] + counts[i..];
  }

  lemma FitsIs(parts: seq<Part>, total: int, i: nat)
    requires i < |parts| && forall k :: 0 <= k < i ==> KeepsItsPromise(parts[k])
    ensures Fits(parts, total, i) <==>
              && KeepsItsPromise(parts[i])
              && RoundHalfEven(parts[i].start * 48_000.0) == Sum(Counts(parts[..i]))
              && Sum(Counts(parts[..i])) + parts[i].sampleCount <= total
  {
    PcmIsPromised(parts[..i]);
  }

  /** The recordings cover the episode exactly when each is in the studio's format, holds what it
      promises and starts on the sample where those before it end, and together they hold the
      episode's number of samples, at most 1800 seconds of them. */
  lemma CoversIff(parts: seq<Part>, total: int)
    ensures Covers(parts, total) <==>
              && 1 <= total <= 1800 * 48_000 && parts != []
              && (forall i :: 0 <= i < |parts| ==> KeepsItsPromise(parts[i]))
              && (forall i :: 0 <= i < |parts| ==>
                    RoundHalfEven(parts[i].start * 48_000.0) == Sum(Counts(parts[..i])))
              && Sum(Counts(parts)) == total
  {
    if forall i :: 0 <= i < |parts| ==> KeepsItsPromise(parts[i]) {
      PcmIsPromised(parts);
      forall i | 0 <= i < |parts|
        ensures Sum(Counts(parts)) == total ==> Sum(Counts(parts[..i])) + parts[i].sampleCount <= total
        ensures Fits(parts, total, i) <==>
                  && RoundHalfEven(parts[i].start * 48_000.0) == Sum(Counts(parts[..i]))
                  && Sum(Counts(parts[..i])) + parts[i].sampleCount <= total
      {
        FitsIs(parts, total, i);
        PrefixSums(Counts(parts), i + 1);
        assert Counts(parts)[..i + 1][..i] == Counts(parts[..i]);
      }
    } else {
      BrokenPromiseMisfits(parts, total);
    }
  }

  lemma BrokenPromiseMisfits(parts: seq<Part>, total: int)
    requires exists i :: 0 <= i < |parts| && !KeepsItsPromise(parts[i])
    ensures exists i :: 0 <= i < |parts| && !Fits(parts, total, i)
  {
    var i :| 0 <= i < |parts| && !KeepsItsPromise(parts[i]);
    assert !Fits(parts, total, i);
  }

  // ----------------------------------------------- parts made from an edit plan

  /** Shot lengths the sound plan and the take check allow: at least one frame,
      at most 300 s a cue and 1800 s in all. */
  predicate IsPlan(frames: seq<int>) {
    && frames != []
    && (forall i :: 0 <= i < |frames| ==> 1 <= frames[i] <= 7200)
    && Timeline.FramesBefore(frames, |frames|) <= 43_200
  }

  /** A fully recorded cue: an accepted take of the cue, its exported PCM, and
      its confirmed words inside the recording. */
  predicate RecordsCue(frames: seq<int>, i: nat, part: Part)
    requires i < |frames| && frames[i] >= 0
  {
    && part.start == Timeline.FrameCue(frames, i).start
    && part.sampleCount == 2000 * frames[i]
    && IsStudioFormat(part.audio) && |part.audio.data| == 4 * part.sampleCount
    && Ordered(part.segments, part.sampleCount as real / 48000.0)
    && forall k :: 0 <= k < |part.segments| ==> GoodText(part.segments[k].text)
  }

  predicate Records(frames: seq<int>, parts: seq<Part>) {
    && IsPlan(frames) && |parts| == |frames|
    && forall i :: 0 <= i < |parts| ==> RecordsCue(frames, i, parts[i])
  }

  lemma RecordedDataIsWhole(frames: seq<int>, parts: seq<Part>, i: nat)
    requires Records(frames, parts) && i < |parts|
    ensures WholeFrames(parts[i].audio) == parts[i].audio.data && |parts[i].audio.data| == 8000 * frames[i]
  {
  }

  lemma {:induction false} PcmOfPrefix(frames: seq<int>, parts: seq<Part>, i: nat)
    requires Records(frames, parts) && i <= |parts|
    ensures |Pcm(parts[..i])| == 8000 * Timeline.FramesBefore(frames, i)
  {
    if i > 0 {
      PcmOfPrefix(frames, parts, i - 1);
      Timeline.FramesBeforeStep(frames, i - 1);
      assert parts[..i][..i - 1] == parts[..i - 1];
      RecordedDataIsWhole(frames, parts, i - 1);
    }
  }

  lemma RecordedPartFits(frames: seq<int>, parts: seq<Part>, i: nat)
    requires Records(frames, parts) && i < |parts|
    ensures Fits(parts, 2000 * Timeline.FramesBefore(frames, |frames|), i)
  {
    PcmOfPrefix(frames, parts, i);
    Timeline.FrameCueSamples(frames, i);
    Timeline.FramesBeforeStep(frames, i);
    Timeline.FramesBeforeMonotone(frames, i + 1, |frames|);
    RecordedDataIsWhole(frames, parts, i);
  }

  /** When every cue of a plan of up to 1800 s is fully recorded, assembly never
      meets a gap, an overlap or a shortfall. */
  lemma {:induction false} RecordedPlanCovers(frames: seq<int>, parts: seq<Part>)
    requires Records(frames, parts)
    ensures Covers(parts, Samples(Timeline.FramesBefore(frames, |frames|) as real / 24.0))
  {
    Timeline.PlanSamples(frames);
    Timeline.FramesBeforeMonotone(frames, 1, |frames|);
    Timeline.FramesBeforeStep(frames, 0);
    PcmOfPrefix(frames, parts, |parts|);
    assert parts[..|parts|] == parts;
    forall i | 0 <= i < |parts| ensures Fits(parts, 2000 * Timeline.FramesBefore(frames, |frames|), i) {
      RecordedPartFits(frames, parts, i);
    }
  }

  /** An accepted take of the cue, exported whole, with its confirmed words. */
  predicate Adopts(cue: Timeline.Cue, part: Part) {
    && part.start == cue.start && Timeline.TakeCovers(cue, part.sampleCount)
    && IsStudioFormat(part.audio) && |part.audio.data| == 4 * part.sampleCount
    && Ordered(part.segments, part.sampleCount as real / 48000.0)
    && forall k :: 0 <= k < |part.segments| ==> GoodText(part.segments[k].text)
  }

  lemma AdoptedIsRecorded(frames: seq<int>, i: nat, part: Part)
    requires i < |frames| && frames[i] >= 0 && Adopts(Timeline.FrameCue(frames, i), part)
    ensures RecordsCue(frames, i, part) && frames[i] <= 7200
  {
    Timeline.FrameCueSamples(frames, i);
    Timeline.CuesOfAnEdit(frames, i);
  }

  lemma AdoptedPlanIsRecorded(frames: seq<int>, parts: seq<Part>)
    requires frames != [] && forall i :: 0 <= i < |frames| ==> frames[i] >= 1
    requires Timeline.FramesBefore(frames, |frames|) <= 43_200
    requires |parts| == |frames| && forall i :: 0 <= i < |frames| ==> Adopts(Timeline.FrameCue(frames, i), parts[i])
    ensures Records(frames, parts)
  {
    forall i | 0 <= i < |frames| ensures RecordsCue(frames, i, parts[i]) && frames[i] <= 7200 {
      AdoptedIsRecorded(frames, i, parts[i]);
    }
  }

  /** Cue i starts with its picture, on a whole sample. */
  predicate StartsWith(cue: Timeline.Cue, entry: Timeline.Entry, frames: seq<int>, i: nat)
    requires i <= |frames|
  {
    cue.start == entry.start && Samples(cue.start) == 2000 * Timeline.FramesBefore(frames, i)
  }

  lemma CueStartsWith(cuts: seq<Timeline.Cut>, edit: Timeline.Edit, durations: seq<real>, i: nat)
    requires i < |cuts| == |edit.timeline| && Timeline.Realises(cuts, edit.timeline, edit.total)
    requires durations == Timeline.FrameDurations(Timeline.AllFrames(cuts))
    ensures Timeline.CueOf(durations, i) == Timeline.FrameCue(Timeline.AllFrames(cuts), i)
    ensures StartsWith(Timeline.CueOf(durations, i), edit.timeline[i], Timeline.AllFrames(cuts), i)
  {
    Timeline.CuesOfAcceptedEdit(cuts, edit, durations, i);
    Timeline.FrameCueSamples(Timeline.AllFrames(cuts), i);
  }

  lemma CuesStartWith(cuts: seq<Timeline.Cut>, sources: seq<real>, edit: Timeline.Edit, durations: seq<real>,
                      cues: seq<Timeline.Cue>)
    requires Timeline.Accepted(cuts, sources)
    requires |edit.timeline| == |cuts| && Timeline.Realises(cuts, edit.timeline, edit.total)
    requires durations == Timeline.FrameDurations(Timeline.AllFrames(cuts))
    requires |cues| == |cuts| && forall i :: 0 <= i < |cues| ==> cues[i] == Timeline.CueOf(durations, i)
    ensures AreFrameCues(Timeline.AllFrames(cuts), cues)
    ensures forall i :: 0 <= i < |cues| ==> StartsWith(cues[i], edit.timeline[i], Timeline.AllFrames(cuts), i)
  {
    var frames := Timeline.AllFrames(cuts);
    forall i | 0 <= i < |cues|
      ensures frames[i] >= 1 && cues[i] == Timeline.FrameCue(frames, i)
      ensures StartsWith(cues[i], edit.timeline[i], frames, i)
    {
      Timeline.AcceptedFrames(cuts, sources, i);
      CueStartsWith(cuts, edit, durations, i);
    }
  }

  predicate AreFrameCues(frames: seq<int>, cues: seq<Timeline.Cue>) {
    |cues| == |frames| && forall i :: 0 <= i < |cues| ==> frames[i] >= 1 && cues[i] == Timeline.FrameCue(frames, i)
  }

  lemma AdoptedEditIsRecorded(frames: seq<int>, cues: seq<Timeline.Cue>, parts: seq<Part>)
    requires frames != [] && AreFrameCues(frames, cues) && Timeline.FramesBefore(frames, |frames|) <= 43_200
    requires |parts| == |cues| && forall i :: 0 <= i < |cues| ==> Adopts(cues[i], parts[i])
    ensures Records(frames, parts)
  {
    forall i | 0 <= i < |frames| ensures frames[i] >= 1 && Adopts(Timeline.FrameCue(frames, i), parts[i]) {
      assert cues[i] == Timeline.FrameCue(frames, i);
    }
    AdoptedPlanIsRecorded(frames, parts);
  }

  lemma FramesWithinLimit(frames: int)
    requires frames as real / 24.0 <= 1800.0
    ensures frames <= 43_200
  {
  }

  lemma RecordedCoversTotal(frames: seq<int>, parts: seq<Part>, total: real)
    requires Records(frames, parts) && total == Timeline.FramesBefore(frames, |frames|) as real / 24.0
    ensures Covers(parts, Samples(total))
  {
    RecordedPlanCovers(frames, parts);
  }

  lemma AdoptedEditCovers(frames: seq<int>, cues: seq<Timeline.Cue>, parts: seq<Part>, total: real)
    requires frames != [] && AreFrameCues(frames, cues)
    requires |parts| == |cues| && forall i :: 0 <= i < |cues| ==> Adopts(cues[i], parts[i])
    requires total == Timeline.FramesBefore(frames, |frames|) as real / 24.0 && total <= 1800.0
    ensures Records(frames, parts) && Covers(parts, Samples(total))
  {
    FramesWithinLimit(Timeline.FramesBefore(frames, |frames|));
    AdoptedEditIsRecorded(frames, cues, parts);
    RecordedCoversTotal(frames, parts, total);
  }

  /** Cues prepared from the entries of an accepted edit. */
  predicate PreparedFrom(cuts: seq<Timeline.Cut>, sources: seq<real>, edit: Timeline.Edit, durations: seq<real>,
                         cues: seq<Timeline.Cue>) {
    && cuts != [] && Timeline.Accepted(cuts, sources)
    && |edit.timeline| == |cuts| && Timeline.Realises(cuts, edit.timeline, edit.total)
    && |durations| == |cuts| && (forall i :: 0 <= i < |cuts| ==> durations[i] == edit.timeline[i].duration)
    && |cues| == |cuts| && (forall i :: 0 <= i < |cues| ==> cues[i] == Timeline.CueOf(durations, i))
  }

  lemma PreparedLinesUp(cuts: seq<Timeline.Cut>, sources: seq<real>, edit: Timeline.Edit, durations: seq<real>,
                        cues: seq<Timeline.Cue>)
    requires PreparedFrom(cuts, sources, edit, durations, cues)
    ensures var frames := Timeline.AllFrames(cuts);
            && AreFrameCues(frames, cues)
            && Timeline.RealSum(durations) == edit.total == Timeline.FramesBefore(frames, |frames|) as real / 24.0
            && forall i :: 0 <= i < |cues| ==> StartsWith(cues[i], edit.timeline[i], frames, i)
  {
    Timeline.EntryDurations(cuts, edit, durations);
    Timeline.TotalOfAcceptedEdit(cuts, edit, durations);
    CuesStartWith(cuts, sources, edit, durations, cues);
  }

  /** From picture edit to dialogue track: an edit that was accepted, cues prepared from its
      entries, a take accepted for every cue. Then cue and picture start together, on whole
      samples, and up to 1800 s assembly meets no gap, overlap or shortfall. */
  lemma EditToEpisode(cuts: seq<Timeline.Cut>, sources: seq<real>, edit: Timeline.Edit, durations: seq<real>,
                      cues: seq<Timeline.Cue>, parts: seq<Part>)
    requires PreparedFrom(cuts, sources, edit, durations, cues) && Timeline.RealSum(durations) <= 1800.0
    requires |parts| == |cues| && forall i :: 0 <= i < |cues| ==> Adopts(cues[i], parts[i])
    ensures Records(Timeline.AllFrames(cuts), parts)
    ensures |cues| == |edit.timeline| == |cuts|
            && forall i :: 0 <= i < |cues| ==> StartsWith(cues[i], edit.timeline[i], Timeline.AllFrames(cuts), i)
    ensures Timeline.RealSum(durations) == edit.total && Covers(parts, Samples(edit.total))
  {
    PreparedLinesUp(cuts, sources, edit, durations, cues);
    AdoptedEditCovers(Timeline.AllFrames(cuts), cues, parts, edit.total);
  }

  lemma LastPartOfPcm(frames: seq<int>, parts: seq<Part>, i: nat)
    requires Records(frames, parts) && i < |parts|
    ensures var from := 8000 * Timeline.FramesBefore(frames, i);
            && 0 <= from <= from + |parts[i].audio.data| <= |Pcm(parts[..i + 1])|
            && Pcm(parts[..i + 1])[from..from + |parts[i].audio.data|] == parts[i].audio.data
  {
    RecordedDataIsWhole(frames, parts, i);
    PcmOfPrefix(frames, parts, i);
    PcmOfPrefix(frames, parts, i + 1);
    Timeline.FramesBeforeMonotone(frames, i, i);
    assert parts[..i + 1][..i] == parts[..i];
    Timeline.FramesBeforeStep(frames, i);
  }

  lemma PcmExtends(parts: seq<Part>, n: nat)
    requires 0 < n <= |parts|
    ensures Pcm(parts[..n - 1]) <= Pcm(parts[..n])
  {
    assert parts[..n][..n - 1] == parts[..n - 1];
  }

  /** The assembled track is every recording's PCM, whole and in order. */
  lemma {:induction false} PcmHoldsEachPart(frames: seq<int>, parts: seq<Part>, i: nat, n: nat)
    requires Records(frames, parts) && i < n <= |parts|
    ensures var from := 8000 * Timeline.FramesBefore(frames, i);
            && 0 <= from <= from + |parts[i].audio.data| <= |Pcm(parts[..n])|
            && Pcm(parts[..n])[from..from + |parts[i].audio.data|] == parts[i].audio.data
    decreases n
  {
    if i + 1 < n {
      PcmHoldsEachPart(frames, parts, i, n - 1);
      PcmExtends(parts, n);
    } else {
      LastPartOfPcm(frames, parts, i);
    }
  }

  // ----------------------------------------------------------------- captions

  lemma OrderedAppend(a: seq<Segment>, b: seq<Segment>, offset: real, limit: real)
    requires 0.0 <= offset && 0.0 <= limit && Ordered(a, offset) && Ordered(b, limit)
    ensures Ordered(a + Shift(b, offset), offset + limit)
  {
    var all, end := a + Shift(b, offset), offset + limit;
    forall i | 0 <= i < |all| ensures OrderedAt(all, end, i) {
      if i < |a| {
        assert OrderedAt(a, offset, i);
      } else {
        assert OrderedAt(b, limit, i - |a|);
        if i == |a| && i > 0 {
          assert OrderedAt(a, offset, i - 1);
        }
      }
    }
  }

  /** Words of adopted recordings stay in order across cue boundaries. */
  lemma {:induction false} EpisodeWordsOrdered(frames: seq<int>, parts: seq<Part>, i: nat)
    requires Records(frames, parts) && i <= |parts|
    ensures Ordered(EpisodeWords(parts[..i]), Timeline.FramesBefore(frames, i) as real / 24.0)
  {
    if i > 0 {
      var k := i - 1;
      EpisodeWordsOrdered(frames, parts, k);
      assert parts[..i][..k] == parts[..k];
      assert RecordsCue(frames, k, parts[k]);
      Timeline.FramesBeforeStep(frames, k);
      Timeline.FramesBeforeMonotone(frames, k, i);
      OrderedAppend(EpisodeWords(parts[..k]), parts[k].segments, parts[k].start,
                    parts[k].sampleCount as real / 48000.0);
    }
  }

  /** Caption placements of the whole episode, recording after recording. */
  function PlacedParts(parts: seq<Part>): seq<Timed> {
    if parts == [] then []
    else PlacedParts(parts[..|parts| - 1]) + Placed(parts[|parts| - 1].segments, parts[|parts| - 1].start)
  }

  lemma {:induction false} EpisodePlacement(parts: seq<Part>)
    ensures Placed(EpisodeWords(parts), 0.0) == PlacedParts(parts)
  {
    if parts != [] {
      var n := |parts| - 1;
      EpisodePlacement(parts[..n]);
      ShiftedPlacement(parts[n].segments, parts[n].start);
      PlacedAppend(EpisodeWords(parts[..n]), Shift(parts[n].segments, parts[n].start), 0.0);
    }
  }

  /** Words before part i. */
  function WordsBefore(parts: seq<Part>, i: nat): nat
    requires i <= |parts|
  {
    if i == 0 then 0 else WordsBefore(parts, i - 1) + |parts[i - 1].segments|
  }

  lemma {:induction false} PlacedPartsLength(parts: seq<Part>, n: nat)
    requires n <= |parts|
    ensures |PlacedParts(parts[..n])| == WordsBefore(parts, n)
  {
    if n > 0 {
      assert parts[..n][..n - 1] == parts[..n - 1];
      PlacedLength(parts[n - 1].segments, parts[n - 1].start);
      PlacedPartsLength(parts, n - 1);
    }
  }

  lemma {:induction false} WordsBeforeMonotone(parts: seq<Part>, i: nat, n: nat)
    requires i < n <= |parts|
    ensures WordsBefore(parts, i) + |parts[i].segments| <= WordsBefore(parts, n)
  {
    if i + 1 < n {
      WordsBeforeMonotone(parts, i, n - 1);
    }
  }

  lemma {:induction false} PlacedPartAt(parts: seq<Part>, i: nat, k: nat, n: nat)
    requires i < n <= |parts| && k < |parts[i].segments|
    ensures WordsBefore(parts, i) + k < |PlacedParts(parts[..n])|
    ensures PlacedParts(parts[..n])[WordsBefore(parts, i) + k] == Place(parts[i].segments[k], parts[i].start)
  {
    PlacedPartsLength(parts, n);
    WordsBeforeMonotone(parts, i, n);
    assert parts[..n][..n - 1] == parts[..n - 1];
    if i + 1 < n {
      PlacedPartAt(parts, i, k, n - 1);
    } else {
      PlacedAt(parts[i].segments, parts[i].start, k);
    }
  }

  /** Every word of every recording survives rounding. */
  predicate NothingRoundsAway(parts: seq<Part>) {
    forall i, k :: 0 <= i < |parts| && 0 <= k < |parts[i].segments| ==>
        !RoundsAway(parts[i].segments[k], parts[i].start)
  }

  lemma PartLimits(frames: seq<int>, parts: seq<Part>, i: nat)
    requires Records(frames, parts) && i < |parts|
    ensures GoodOffset(parts[i].start) && parts[i].start + parts[i].sampleCount as real / 48000.0 <= 1800.0
  {
    Timeline.FramesBeforeStep(frames, i);
    Timeline.FramesBeforeMonotone(frames, i, |frames|);
    Timeline.FramesBeforeMonotone(frames, i + 1, |frames|);
  }

  lemma PartExport(frames: seq<int>, parts: seq<Part>, i: nat)
    requires Records(frames, parts) && i < |parts|
    ensures Exportable(parts[i].segments, parts[i].start)
            <==> forall k :: 0 <= k < |parts[i].segments| ==> !RoundsAway(parts[i].segments[k], parts[i].start)
  {
    PartLimits(frames, parts, i);
    OnlyZeroLengthIsRefused(parts[i].segments, parts[i].start, parts[i].sampleCount as real / 48000.0);
  }

  lemma {:induction false} EpisodeTextsGood(frames: seq<int>, parts: seq<Part>, n: nat)
    requires Records(frames, parts) && n <= |parts|
    ensures forall k :: 0 <= k < |EpisodeWords(parts[..n])| ==> GoodText(EpisodeWords(parts[..n])[k].text)
  {
    if n > 0 {
      EpisodeTextsGood(frames, parts, n - 1);
      assert parts[..n][..n - 1] == parts[..n - 1];
    }
  }

  lemma ZeroLengthMeansNotGood(timed: seq<Timed>, i: nat)
    requires i < |timed| && timed[i].start == timed[i].end
    ensures !AllGood(timed)
  {
    assert !Good(timed, i);
  }

  lemma {:induction false} RoundedAwayPartBlocks(parts: seq<Part>, i: nat, k: nat)
    requires i < |parts| && k < |parts[i].segments| && RoundsAway(parts[i].segments[k], parts[i].start)
    ensures !AllGood(PlacedParts(parts))
  {
    assert parts[..|parts|] == parts;
    PlacedPartAt(parts, i, k, |parts|);
    ZeroLengthMeansNotGood(PlacedParts(parts), WordsBefore(parts, i) + k);
  }

  lemma {:induction false} SurvivorsKeepLength(parts: seq<Part>, k: nat)
    requires NothingRoundsAway(parts) && k < |PlacedParts(parts)|
    ensures PlacedParts(parts)[k].start != PlacedParts(parts)[k].end
  {
    var n := |parts| - 1;
    var front := PlacedParts(parts[..n]);
    PlacedLength(parts[n].segments, parts[n].start);
    if k < |front| {
      assert NothingRoundsAway(parts[..n]) by {
        forall i, j | 0 <= i < n && 0 <= j < |parts[..n][i].segments|
          ensures !RoundsAway(parts[..n][i].segments[j], parts[..n][i].start)
        {}
      }
      SurvivorsKeepLength(parts[..n], k);
    } else {
      PlacedAt(parts[n].segments, parts[n].start, k - |front|);
    }
  }

  lemma {:induction false} EpisodeWordSurvives(parts: seq<Part>, k: nat)
    requires NothingRoundsAway(parts) && k < |EpisodeWords(parts)|
    ensures !RoundsAway(EpisodeWords(parts)[k], 0.0)
  {
    EpisodePlacement(parts);
    PlacedAt(EpisodeWords(parts), 0.0, k);
    SurvivorsKeepLength(parts, k);
  }

  lemma {:induction false} SurvivingEpisodeExports(frames: seq<int>, parts: seq<Part>)
    requires Records(frames, parts) && NothingRoundsAway(parts)
    ensures Exportable(EpisodeWords(parts), 0.0)
  {
    var words := EpisodeWords(parts);
    assert parts[..|parts|] == parts;
    EpisodeWordsOrdered(frames, parts, |parts|);
    EpisodeTextsGood(frames, parts, |parts|);
    forall k | 0 <= k < |words| ensures !RoundsAway(words[k], 0.0) {
      EpisodeWordSurvives(parts, k);
    }
    OnlyZeroLengthIsRefused(words, 0.0, Timeline.FramesBefore(frames, |frames|) as real / 24.0);
  }

  /** For a fully recorded plan the episode's captions are refused only when some
      word rounds to zero length, that is exactly when some recording's own
      caption export is refused. */
  lemma {:induction false} CaptionsFailOnlyOnZeroLength(frames: seq<int>, parts: seq<Part>)
    requires Records(frames, parts)
    ensures Exportable(EpisodeWords(parts), 0.0) <==> NothingRoundsAway(parts)
    ensures NothingRoundsAway(parts)
            <==> forall i :: 0 <= i < |parts| ==> Exportable(parts[i].segments, parts[i].start)
  {
    if NothingRoundsAway(parts) {
      SurvivingEpisodeExports(frames, parts);
    } else {
      var i, k :| 0 <= i < |parts| && 0 <= k < |parts[i].segments| && RoundsAway(parts[i].segments[k], parts[i].start);
      EpisodePlacement(parts);
      RoundedAwayPartBlocks(parts, i, k);
    }
    forall i | 0 <= i < |parts|
      ensures Exportable(parts[i].segments, parts[i].start)
              <==> forall k :: 0 <= k < |parts[i].segments| ==> !RoundsAway(parts[i].segments[k], parts[i].start)
    {
      PartExport(frames, parts, i);
    }
  }

  /** The episode's captions are the per-recording exports, renumbered in order:
      word k of part i is cue WordsBefore(i) + k, otherwise unchanged. */
  lemma {:induction false} EpisodeCaptionsAreRenumberedExports(frames: seq<int>, parts: seq<Part>, i: nat, k: nat)
    requires Records(frames, parts) && NothingRoundsAway(parts)
    requires i < |parts| && k < |parts[i].segments|
    ensures Exportable(EpisodeWords(parts), 0.0) && Exportable(parts[i].segments, parts[i].start)
    ensures var first := WordsBefore(parts, i);
            var episode := ExportedCues(EpisodeWords(parts), 0.0, 1);
            var own := ExportedCues(parts[i].segments, parts[i].start, 1);
            && |own| == |parts[i].segments| && |episode| == WordsBefore(parts, |parts|) && first + k < |episode|
            && episode[first + k] == own[k].(id := Decimal(first + k + 1))
  {
    CaptionsFailOnlyOnZeroLength(frames, parts);
    EpisodePlacement(parts);
    assert parts[..|parts|] == parts;
    PlacedPartsLength(parts, |parts|);
    PlacedPartAt(parts, i, k, |parts|);
    PlacedAt(parts[i].segments, parts[i].start, k);
  }
}
