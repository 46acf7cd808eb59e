// The caption writer, the word-window check, and what happens to words when a
// recording is moved onto the episode timeline and rounded to milliseconds.
module Captions {
  import opened Prelude
  import opened Rounding
  import opened Text
  import opened Vtt

  datatype Segment = Segment(start: real, end: real, text: string)

  datatype CaptionError = BadOffset | BadTimes(index: nat) | BadText(index: nat)

  const TIMELINE_END_MS: int := 1_800_000

  /** A segment placed on the episode, its ends rounded to milliseconds. */
  datatype Timed = Timed(start: int, end: int, text: string)

  function Millis(offset: real, seconds: real): int {
    RoundHalfEven((offset + seconds) * 1000.0)
  }

  function Place(s: Segment, offset: real): Timed {
    Timed(Millis(offset, s.start), Millis(offset, s.end), s.text)
  }

  function Placed(segments: seq<Segment>, offset: real): seq<Timed> {
    if segments == [] then []
    else Placed(segments[..|segments| - 1], offset) + [Place(segments[|segments| - 1], offset)]
  }

  lemma {:induction false} PlacedAt(segments: seq<Segment>, offset: real, i: nat)
    requires i < |segments|
    ensures |Placed(segments, offset)| == |segments|
    ensures Placed(segments, offset)[i] == Place(segments[i], offset)
  {
    PlacedLength(segments, offset);
    if i < |segments| - 1 {
      PlacedAt(segments[..|segments| - 1], offset, i);
    }
  }

  lemma {:induction false} PlacedLength(segments: seq<Segment>, offset: real)
    ensures |Placed(segments, offset)| == |segments|
  {
    if segments != [] {
      PlacedLength(segments[..|segments| - 1], offset);
    }
  }

  predicate GoodOffset(offset: real) {
    0.0 <= offset <= 1800.0
  }

  predicate GoodText(text: string) {
    Normalise(text) != "" && '\0' !in Normalise(text)
  }

  /** Where the caption before i ended. */
  function PreviousEnd(timed: seq<Timed>, i: nat): int
    requires i <= |timed|
  {
    if i == 0 then 0 else timed[i - 1].end
  }

  predicate GoodTimes(timed: seq<Timed>, i: nat)
    requires i < |timed|
  {
    PreviousEnd(timed, i) <= timed[i].start < timed[i].end <= TIMELINE_END_MS
  }

  predicate Good(timed: seq<Timed>, i: nat)
    requires i < |timed|
  {
    GoodTimes(timed, i) && GoodText(timed[i].text)
  }

  predicate AllGood(timed: seq<Timed>) {
    forall i :: 0 <= i < |timed| ==> Good(timed, i)
  }

  predicate GoodUpto(timed: seq<Timed>, n: nat)
    requires n <= |timed|
  {
    n == 0 || (GoodUpto(timed, n - 1) && Good(timed, n - 1))
  }

  lemma {:induction false} GoodUptoMeans(timed: seq<Timed>, n: nat)
    requires n <= |timed|
    ensures GoodUpto(timed, n) <==> forall k :: 0 <= k < n ==> Good(timed, k)
  {
    if n > 0 {
      GoodUptoMeans(timed, n - 1);
    }
  }

  /** What the writer accepts. */
  predicate Exportable(segments: seq<Segment>, offset: real) {
    GoodOffset(offset) && AllGood(Placed(segments, offset))
  }

  lemma {:induction false} GoodTimesAreNatural(timed: seq<Timed>, i: nat)
    requires i < |timed| && AllGood(timed)
    ensures 0 <= PreviousEnd(timed, i) <= timed[i].start < timed[i].end
  {
    assert Good(timed, i);
    if i > 0 {
      GoodTimesAreNatural(timed, i - 1);
    }
  }

  /** The cue a placed segment is printed as. */
  function CueFor(t: Timed, id: nat): Cue
    requires 0 <= t.start < t.end
  {
    Cue(Decimal(id), t.start, t.end, Normalise(t.text))
  }

  /** All cues, numbered from `first` on. */
  function CuesFrom(timed: seq<Timed>, first: nat): (r: seq<Cue>)
    requires forall i :: 0 <= i < |timed| ==> 0 <= timed[i].start < timed[i].end
    ensures |r| == |timed|
    ensures forall i :: 0 <= i < |r| ==> r[i] == CueFor(timed[i], first + i)
  {
    seq(|timed|, i requires 0 <= i < |timed| => CueFor(timed[i], first + i))
  }

  /** The cues of an exportable recording, numbered from `first` on. */
  function ExportedCues(segments: seq<Segment>, offset: real, first: nat): seq<Cue>
    requires Exportable(segments, offset)
  {
    var timed := Placed(segments, offset);
    assert forall i :: 0 <= i < |timed| ==> 0 <= timed[i].start < timed[i].end by {
      forall i | 0 <= i < |timed| ensures 0 <= timed[i].start < timed[i].end {
        GoodTimesAreNatural(timed, i);
      }
    }
    CuesFrom(timed, first)
  }

  /** The error names the first segment at fault and its first fault. */
  predicate FirstFault(timed: seq<Timed>, error: CaptionError)
    requires error != BadOffset
  {
    var i := error.index;
    && i < |timed|
    && (forall k :: 0 <= k < i ==> Good(timed, k))
    && (if error.BadTimes? then !GoodTimes(timed, i)
        else GoodTimes(timed, i) && !GoodText(timed[i].text))
  }

  method PlaceSegment(segments: seq<Segment>, offset: real, ghost timed: seq<Timed>, i: nat)
    returns (start: int, end: int)
    requires timed == Placed(segments, offset) && i < |segments| == |timed|
    ensures timed[i] == Timed(start, end, segments[i].text)
  {
    PlacedAt(segments, offset, i);
    start := RoundHalfEven((offset + segments[i].start) * 1000.0);
    end := RoundHalfEven((offset + segments[i].end) * 1000.0);
  }

  /** The loop's body: one segment's four lines and its end, or its first fault. */
  method PrintCue(segments: seq<Segment>, offset: real, previousEnd: int, ghost timed: seq<Timed>, i: nat)
    returns (r: Result<(seq<string>, int), CaptionError>)
    requires timed == Placed(segments, offset) && i < |segments| == |timed|
    requires previousEnd == PreviousEnd(timed, i) && 0 <= previousEnd
    ensures r.Ok? <==> Good(timed, i)
    ensures r.Ok? ==> 0 <= timed[i].start < timed[i].end
                      && r.value == (CueLines(CueFor(timed[i], i + 1)), timed[i].end)
    ensures r.Err? ==> r.error != BadOffset && r.error.index == i
                       && if r.error.BadTimes? then !GoodTimes(timed, i)
                          else GoodTimes(timed, i) && !GoodText(timed[i].text)
  {
    var start, end := PlaceSegment(segments, offset, timed, i);
    if !(previousEnd <= start < end <= TIMELINE_END_MS) {
      return Err(BadTimes(i));
    }
    var text := Escape(Normalise(segments[i].text));
    EscapedTextIsGood(segments[i].text);
    if text == "" || '\0' in text {
      return Err(BadText(i));
    }
    return Ok(([Decimal(i + 1), Stamp(start) + " --> " + Stamp(end), text, ""], end));
  }

  /** Ends that follow their starts, as the printed cues need. */
  predicate NaturalUpto(timed: seq<Timed>, n: nat)
    requires n <= |timed|
  {
    forall k :: 0 <= k < n ==> 0 <= timed[k].start < timed[k].end
  }

  method PrintCues(segments: seq<Segment>, offset: real, ghost timed: seq<Timed>)
    returns (r: Result<seq<string>, CaptionError>)
    requires timed == Placed(segments, offset)
    ensures r.Ok? ==> AllGood(timed) && NaturalUpto(timed, |timed|)
                      && r.value == ["WEBVTT", ""] + AllCueLines(CuesFrom(timed, 1))
    ensures r.Err? ==> r.error != BadOffset && FirstFault(timed, r.error)
  {
    var lines := ["WEBVTT", ""];
    var previousEnd := 0;
    PlacedLength(segments, offset);
    for i := 0 to |segments|
      invariant previousEnd == PreviousEnd(timed, i) && 0 <= previousEnd
      invariant GoodUpto(timed, i) && NaturalUpto(timed, i)
      invariant lines == ["WEBVTT", ""] + AllCueLines(CuesFrom(timed[..i], 1))
    {
      GoodUptoMeans(timed, i);
      var printed := PrintCue(segments, offset, previousEnd, timed, i);
      if printed.Err? {
        return Err(printed.error);
      }
      AppendCue(["WEBVTT", ""], timed, i);
      lines := lines + printed.value.0;
      previousEnd := printed.value.1;
    }
    assert timed[..|segments|] == timed;
    GoodUptoMeans(timed, |segments|);
    return Ok(lines);
  }

  method CaptionVtt(segments: seq<Segment>, offset: real) returns (r: Result<string, CaptionError>)
    ensures r.Ok? <==> Exportable(segments, offset)
    ensures r == Err(BadOffset) <==> !GoodOffset(offset)
    ensures r.Err? && r.error != BadOffset ==> FirstFault(Placed(segments, offset), r.error)
    ensures r.Ok? ==> r.value == Render(ExportedCues(segments, offset, 1))
  {
    if !(0.0 <= offset <= 1800.0) {
      return Err(BadOffset);
    }
    var lines := PrintCues(segments, offset, Placed(segments, offset));
    if lines.Err? {
      FaultIsNotGood(Placed(segments, offset), lines.error);
      return Err(lines.error);
    }
    return Ok(PrintLines(lines.value));
  }

  lemma FaultIsNotGood(timed: seq<Timed>, error: CaptionError)
    requires error != BadOffset && FirstFault(timed, error)
    ensures !AllGood(timed)
  {
    assert !Good(timed, error.index);
  }

  lemma AppendCue(header: seq<string>, timed: seq<Timed>, i: nat)
    requires i < |timed| && forall k :: 0 <= k <= i ==> 0 <= timed[k].start < timed[k].end
    ensures header + AllCueLines(CuesFrom(timed[..i + 1], 1))
            == header + AllCueLines(CuesFrom(timed[..i], 1)) + CueLines(CueFor(timed[i], i + 1))
  {
    var cues, cue := CuesFrom(timed[..i], 1), CueFor(timed[i], i + 1);
    assert CuesFrom(timed[..i + 1], 1) == cues + [cue];
    AllCueLinesAppend(cues, [cue]);
  }

  lemma EscapedTextIsGood(text: string)
    ensures var escaped := Escape(Normalise(text));
            escaped != "" && '\0' !in escaped <==> GoodText(text)
  {
    EscapeKeepsNul(Normalise(text));
  }

  lemma {:induction false} EscapeKeepsNul(s: string)
    ensures '\0' in s <==> '\0' in Escape(s)
  {
    EscapeChars(s);
    if s != "" {
      EscapeKeepsNul(s[1..]);
      var head, tail := EscapeChar(s[0]), Escape(s[1..]);
      assert Escape(s) == head + tail;
      if '\0' in s {
        if s[0] == '\0' {
          assert Escape(s)[0] == '\0';
        } else {
          assert '\0' in s[1..];
          assert '\0' in tail;
        }
      }
    }
  }

  /** A WebVTT reader recovers from every exported file exactly its cues: numbered
      in order, in time order without overlap, each with its segment's words. */
  lemma ExportReadsBack(segments: seq<Segment>, offset: real, first: nat)
    requires Exportable(segments, offset)
    ensures var cues := ExportedCues(segments, offset, first);
            && ReadVtt(Render(cues)) == Some(cues) && |cues| == |segments|
            && forall i :: 0 <= i < |segments| ==> IsCueOf(cues, i, segments[i], offset, first)
  {
    var timed, cues := Placed(segments, offset), ExportedCues(segments, offset, first);
    PlacedLength(segments, offset);
    forall i | 0 <= i < |segments|
      ensures Printable(cues[i]) && IsCueOf(cues, i, segments[i], offset, first)
    {
      assert Good(timed, i);
      PlacedAt(segments, offset, i);
      DecimalInverse(first + i);
      JoinedSpacing(Words(segments[i].text));
      NormaliseIdempotent(segments[i].text);
    }
    RoundTrip(cues);
  }

  predicate IsCueOf(cues: seq<Cue>, i: nat, s: Segment, offset: real, first: nat)
    requires i < |cues|
  {
    var cue := cues[i];
    && AllDigits(cue.id) && Value(cue.id) == first + i
    && cue.start == Millis(offset, s.start) && cue.end == Millis(offset, s.end)
    && cue.start < cue.end && (i > 0 ==> cues[i - 1].end <= cue.start)
    && cue.text == Normalise(s.text) && Words(cue.text) == Words(s.text)
  }

  /** In milliseconds the segment starts no earlier than the one before ends, lasts at least one and
      ends by 1800 s; its text is usable. */
  predicate Writable(segments: seq<Segment>, offset: real, i: nat)
    requires i < |segments|
  {
    var start := RoundHalfEven(1000.0 * (offset + segments[i].start));
    var end := RoundHalfEven(1000.0 * (offset + segments[i].end));
    && 0 <= start < end <= 1_800_000
    && (i > 0 ==> RoundHalfEven(1000.0 * (offset + segments[i - 1].end)) <= start)
    && Normalise(segments[i].text) != "" && forall c :: c in Normalise(segments[i].text) ==> c != '\0'
  }

  /** The writer accepts exactly segments it can write one by one, on an offset of up to 1800 s. */
  lemma ExportableIff(segments: seq<Segment>, offset: real)
    ensures Exportable(segments, offset) <==>
              0.0 <= offset <= 1800.0 && forall i :: 0 <= i < |segments| ==> Writable(segments, offset, i)
  {
    var timed := Placed(segments, offset);
    PlacedLength(segments, offset);
    if forall i :: 0 <= i < |segments| ==> Writable(segments, offset, i) {
      forall i | 0 <= i < |segments| ensures Good(timed, i) {
        assert Writable(segments, offset, i);
        PlacedAt(segments, offset, i);
        if i > 0 {
          PlacedAt(segments, offset, i - 1);
        }
      }
    }
    if AllGood(timed) {
      forall i | 0 <= i < |segments| ensures Writable(segments, offset, i) {
        GoodTimesAreNatural(timed, i);
        assert Good(timed, i);
        PlacedAt(segments, offset, i);
        if i > 0 {
          PlacedAt(segments, offset, i - 1);
        }
      }
    }
  }

  // ------------------------------------------------------------ word windows

  predicate OrderedAt(words: seq<Segment>, limit: real, i: nat)
    requires i < |words|
  {
    && (if i == 0 then 0.0 else words[i - 1].end) <= words[i].start
    && words[i].start < words[i].end <= limit
  }

  predicate Ordered(words: seq<Segment>, limit: real) {
    forall i :: 0 <= i < |words| ==> OrderedAt(words, limit, i)
  }

  method OrderedWindow(words: seq<Segment>, sampleCount: nat) returns (ok: bool)
    ensures ok <==> Ordered(words, sampleCount as real / 48000.0)
  {
    var end, limit := 0.0, sampleCount as real / 48000.0;
    for i := 0 to |words|
      invariant end == if i == 0 then 0.0 else words[i - 1].end
      invariant forall k :: 0 <= k < i ==> OrderedAt(words, limit, k)
    {
      if !(end <= words[i].start < words[i].end <= limit) {
        assert !OrderedAt(words, limit, i);
        return false;
      }
      end := words[i].end;
    }
    return true;
  }

  /** Ordered words are exactly those that last, inside the recording, and never overlap. */
  lemma {:induction false} OrderedIff(words: seq<Segment>, limit: real)
    ensures Ordered(words, limit) <==>
              && (forall i :: 0 <= i < |words| ==> 0.0 <= words[i].start < words[i].end <= limit)
              && (forall i, j :: 0 <= i < j < |words| ==> words[i].end <= words[j].start)
  {
    if Ordered(words, limit) {
      forall i | 0 <= i < |words| ensures 0.0 <= words[i].start < words[i].end <= limit {
        OrderedStartsNonNegative(words, limit, i);
        assert OrderedAt(words, limit, i);
      }
      forall i, j | 0 <= i < j < |words| ensures words[i].end <= words[j].start {
        OrderedApart(words, limit, i, j);
      }
    }
  }

  lemma {:induction false} OrderedApart(words: seq<Segment>, limit: real, i: nat, j: nat)
    requires Ordered(words, limit) && i < j < |words|
    ensures words[i].end <= words[j].start
  {
    assert OrderedAt(words, limit, j);
    if i < j - 1 {
      OrderedApart(words, limit, i, j - 1);
      assert OrderedAt(words, limit, j - 1);
    }
  }

  /** The same words heard `offset` seconds later. */
  function Shift(words: seq<Segment>, offset: real): (r: seq<Segment>)
    ensures |r| == |words|
    ensures forall i :: 0 <= i < |words| ==>
              r[i] == words[i].(start := words[i].start + offset, end := words[i].end + offset)
  {
    seq(|words|, i requires 0 <= i < |words| =>
      words[i].(start := words[i].start + offset, end := words[i].end + offset))
  }

  /** Exporting shifted words from zero is exporting the words at their offset. */
  lemma {:induction false} ShiftedPlacement(words: seq<Segment>, offset: real)
    ensures Placed(Shift(words, offset), 0.0) == Placed(words, offset)
  {
    if words != [] {
      var n := |words| - 1;
      ShiftedPlacement(words[..n], offset);
      assert Shift(words, offset)[..n] == Shift(words[..n], offset);
    }
  }

  lemma {:induction false} PlacedAppend(a: seq<Segment>, b: seq<Segment>, offset: real)
    ensures Placed(a + b, offset) == Placed(a, offset) + Placed(b, offset)
  {
    if b == [] {
      assert a + b == a;
    } else {
      var n := |b| - 1;
      assert (a + b)[..|a| + n] == a + b[..n];
      PlacedAppend(a, b[..n], offset);
    }
  }

  /** What can still stop an ordered word from being exported: it is too short
      to last a millisecond after rounding. */
  predicate RoundsAway(w: Segment, offset: real) {
    Millis(offset, w.start) == Millis(offset, w.end)
  }

  /** Given usable text on a timeline of at most 1800 s, ordered words are
      exportable exactly when none of them rounds to zero length. */
  lemma OnlyZeroLengthIsRefused(words: seq<Segment>, offset: real, limit: real)
    requires Ordered(words, limit) && GoodOffset(offset) && offset + limit <= 1800.0
    requires forall i :: 0 <= i < |words| ==> GoodText(words[i].text)
    ensures Exportable(words, offset) <==> forall i :: 0 <= i < |words| ==> !RoundsAway(words[i], offset)
  {
    var timed := Placed(words, offset);
    PlacedLength(words, offset);
    forall i | 0 <= i < |words| ensures Good(timed, i) <==> !RoundsAway(words[i], offset) {
      PlacedAt(words, offset, i);
      OrderedRounds(words, offset, limit, i);
    }
    if !forall i :: 0 <= i < |words| ==> !RoundsAway(words[i], offset) {
      var i :| 0 <= i < |words| && RoundsAway(words[i], offset);
    }
  }

  lemma {:induction false} OrderedStartsNonNegative(words: seq<Segment>, limit: real, i: nat)
    requires Ordered(words, limit) && i < |words|
    ensures 0.0 <= words[i].start
  {
    assert OrderedAt(words, limit, i);
    if i > 0 {
      assert OrderedAt(words, limit, i - 1);
      OrderedStartsNonNegative(words, limit, i - 1);
    }
  }

  /** Ordered words stay ordered, and on the timeline, after moving and rounding. */
  lemma OrderedRounds(words: seq<Segment>, offset: real, limit: real, i: nat)
    requires Ordered(words, limit) && GoodOffset(offset) && offset + limit <= 1800.0 && i < |words|
    ensures |Placed(words, offset)| == |words|
    ensures var timed := Placed(words, offset);
            0 <= PreviousEnd(timed, i) <= timed[i].start <= timed[i].end <= TIMELINE_END_MS
  {
    PlacedAt(words, offset, i);
    assert OrderedAt(words, limit, i);
    if i > 0 {
      PlacedAt(words, offset, i - 1);
      OrderedStartsNonNegative(words, limit, i - 1);
      assert OrderedAt(words, limit, i - 1);
    }
  }

  /** A word longer than one millisecond never rounds away. */
  lemma LongWordsSurvive(w: Segment, offset: real)
    requires w.end - w.start > 0.001
    ensures !RoundsAway(w, offset)
  {
  }

  /** Exactly one millisecond is not enough: half-even rounding can merge its ends. */
  lemma OneMillisecondCanVanish()
    ensures RoundsAway(Segment(0.0015, 0.0025, "a"), 0.0)
  {
  }
}
