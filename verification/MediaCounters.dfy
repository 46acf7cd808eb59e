// The one-pass counters of the decoded-media check, against the plain definitions
// of what they count. Frames and samples are given as sequences; those decoded
// before an error are simply shorter ones.
module MediaCounters {
  import opened Prelude

  // ------------------------------------------------------------------------ runs

  /** s[i..j] is a block of one value. */
  predicate IsRun<T(==)>(s: seq<T>, i: int, j: int) {
    0 <= i < j <= |s| && forall k :: i <= k < j ==> s[k] == s[i]
  }

  /** s[i..j] is a block of true flags. */
  predicate IsTrueRun(s: seq<bool>, i: int, j: int) {
    0 <= i < j <= |s| && forall k :: i <= k < j ==> s[k]
  }

  ghost predicate HasRun<T(!new)>(s: seq<T>, length: nat) {
    exists i, j :: IsRun(s, i, j) && j - i == length
  }

  ghost predicate HasTrueRun(s: seq<bool>, length: nat) {
    exists i, j :: IsTrueRun(s, i, j) && j - i == length
  }

  function TailRun<T(==)>(s: seq<T>): nat {
    if s == [] then 0
    else if |s| > 1 && s[|s| - 2] == s[|s| - 1] then TailRun(s[..|s| - 1]) + 1
    else 1
  }

  function LongestRun<T(==)>(s: seq<T>): nat {
    if s == [] then 0 else Max(LongestRun(s[..|s| - 1]), TailRun(s))
  }

  function TrueTail(s: seq<bool>): nat {
    if s == [] || !s[|s| - 1] then 0 else TrueTail(s[..|s| - 1]) + 1
  }

  function LongestTrue(s: seq<bool>): nat {
    if s == [] then 0 else Max(LongestTrue(s[..|s| - 1]), TrueTail(s))
  }

  function Max(a: nat, b: nat): nat {
    if a < b then b else a
  }

  lemma {:induction false} TailRunIs<T>(s: seq<T>)
    requires s != []
    ensures 1 <= TailRun(s) <= |s| && IsRun(s, |s| - TailRun(s), |s|)
    ensures forall i :: IsRun(s, i, |s|) ==> |s| - i <= TailRun(s)
  {
    var before := s[..|s| - 1];
    if |s| > 1 && s[|s| - 2] == s[|s| - 1] {
      TailRunIs(before);
      forall i | IsRun(s, i, |s|) ensures |s| - i <= TailRun(s) {
        if i < |s| - 1 {
          assert IsRun(before, i, |before|);
        }
      }
    }
  }

  /** LongestRun is a block's length, and no block is longer. */
  lemma {:induction false} LongestRunIs<T(!new)>(s: seq<T>)
    ensures s != [] ==> HasRun(s, LongestRun(s))
    ensures forall i, j :: IsRun(s, i, j) ==> j - i <= LongestRun(s)
  {
    if s != [] {
      var before := s[..|s| - 1];
      LongestRunIs(before);
      TailRunIs(s);
      if TailRun(s) >= LongestRun(before) {
      } else {
        var i, j :| IsRun(before, i, j) && j - i == LongestRun(before);
        assert IsRun(s, i, j);
      }
      forall i, j | IsRun(s, i, j) ensures j - i <= LongestRun(s) {
        if j < |s| {
          assert IsRun(before, i, j);
        }
      }
    }
  }

  lemma {:induction false} TrueTailIs(s: seq<bool>)
    ensures TrueTail(s) <= |s| && forall k :: |s| - TrueTail(s) <= k < |s| ==> s[k]
    ensures forall i :: IsTrueRun(s, i, |s|) ==> |s| - i <= TrueTail(s)
  {
    if s != [] && s[|s| - 1] {
      var before := s[..|s| - 1];
      TrueTailIs(before);
      forall i | IsTrueRun(s, i, |s|) ensures |s| - i <= TrueTail(s) {
        if i < |s| - 1 {
          assert IsTrueRun(before, i, |before|);
        }
      }
    }
  }

  lemma {:induction false} LongestTrueIs(s: seq<bool>)
    ensures LongestTrue(s) > 0 ==> HasTrueRun(s, LongestTrue(s))
    ensures forall i, j :: IsTrueRun(s, i, j) ==> j - i <= LongestTrue(s)
  {
    if s != [] {
      var before := s[..|s| - 1];
      LongestTrueIs(before);
      TrueTailIs(s);
      if LongestTrue(s) == 0 {
      } else if TrueTail(s) >= LongestTrue(before) {
        assert IsTrueRun(s, |s| - TrueTail(s), |s|);
      } else {
        var i, j :| IsTrueRun(before, i, j) && j - i == LongestTrue(before);
        assert IsTrueRun(s, i, j);
      }
      forall i, j | IsTrueRun(s, i, j) ensures j - i <= LongestTrue(s) {
        if j < |s| {
          assert IsTrueRun(before, i, j);
        }
      }
    }
  }

  // ---------------------------------------------------------------------- frames

  /** A frame's grey pixels; its SHA-256 signature is injective, so they stand for it. */
  type Frame = seq<int>

  predicate IsBlack(pixels: Frame) {
    pixels == [] || Sum(pixels) < 8 * |pixels|
  }

  function BlackFlags(frames: seq<Frame>): (flags: seq<bool>)
    ensures |flags| == |frames| && forall i :: 0 <= i < |frames| ==> flags[i] == IsBlack(frames[i])
  {
    if frames == [] then [] else BlackFlags(frames[..|frames| - 1]) + [IsBlack(frames[|frames| - 1])]
  }

  /** The signatures seen so far. */
  function Seen(frames: seq<Frame>): set<Frame> {
    if frames == [] then {} else Seen(frames[..|frames| - 1]) + {frames[|frames| - 1]}
  }

  lemma {:induction false} SeenAreTheFrames(frames: seq<Frame>)
    ensures forall f :: f in Seen(frames) <==> f in frames
  {
    if frames != [] {
      SeenAreTheFrames(frames[..|frames| - 1]);
    }
  }

  /** The pass's own variables after some frames. */
  datatype FramePass = FramePass(count: nat, seen: set<Frame>, prior: Option<Frame>, identical: nat, maxIdentical: nat,
                                 black: nat, maxBlack: nat)

  function SeeFrame(p: FramePass, frame: Frame): FramePass {
    var identical := if p.prior == Some(frame) then p.identical + 1 else 1;
    var black := if IsBlack(frame) then p.black + 1 else 0;
    FramePass(p.count + 1, p.seen + {frame}, Some(frame), identical, Max(p.maxIdentical, identical), black,
              Max(p.maxBlack, black))
  }

  function SeeFrames(frames: seq<Frame>): FramePass {
    if frames == [] then FramePass(0, {}, None, 0, 0, 0, 0)
    else SeeFrame(SeeFrames(frames[..|frames| - 1]), frames[|frames| - 1])
  }

  lemma {:induction false} SeeFramesRuns(frames: seq<Frame>)
    ensures var p := SeeFrames(frames);
            && p.count == |frames| && p.seen == Seen(frames)
            && p.prior == (if frames == [] then None else Some(frames[|frames| - 1]))
            && p.identical == TailRun(frames) && p.maxIdentical == LongestRun(frames)
  {
    if frames != [] {
      SeeFramesRuns(frames[..|frames| - 1]);
    }
  }

  lemma {:induction false} SeeFramesBlack(frames: seq<Frame>)
    ensures var p := SeeFrames(frames);
            p.black == TrueTail(BlackFlags(frames)) && p.maxBlack == LongestTrue(BlackFlags(frames))
  {
    if frames != [] {
      var n := |frames| - 1;
      SeeFramesBlack(frames[..n]);
    }
  }

  method InspectFrames(frames: seq<Frame>) returns (count: nat, unique: nat, maxIdentical: nat, maxBlack: nat)
    ensures count == |frames|
    ensures unique == |Seen(frames)|
    ensures maxIdentical == LongestRun(frames)
    ensures maxBlack == LongestTrue(BlackFlags(frames))
  {
    var signatures: set<Frame> := {};
    var prior: Option<Frame> := None;
    var identical, black := 0, 0;
    count, maxIdentical, maxBlack := 0, 0, 0;
    for i := 0 to |frames|
      invariant FramePass(count, signatures, prior, identical, maxIdentical, black, maxBlack) == SeeFrames(frames[..i])
    {
      assert frames[..i + 1][..i] == frames[..i];
      signatures := signatures + {frames[i]};
      count := count + 1;
      if prior == Some(frames[i]) {
        identical := identical + 1;
      } else {
        identical := 1;
      }
      prior := Some(frames[i]);
      maxIdentical := Max(maxIdentical, identical);
      black := if IsBlack(frames[i]) then black + 1 else 0;
      maxBlack := Max(maxBlack, black);
    }
    assert frames[..|frames|] == frames;
    SeeFramesRuns(frames);
    SeeFramesBlack(frames);
    unique := |signatures|;
  }

  // --------------------------------------------------------------------- samples

  const WINDOW := 320

  function Energy(samples: seq<int>): nat {
    if samples == [] then 0
    else Energy(samples[..|samples| - 1]) + Square(samples[|samples| - 1])
  }

  function Square(x: int): nat {
    if x < 0 then (-x) * (-x) else x * x
  }

  /** sqrt(energy / 320) >= 300 */
  predicate IsVoiced(window: seq<int>) {
    Energy(window) >= 300 * 300 * WINDOW
  }

  function WindowAt(samples: seq<int>, k: nat): seq<int>
    requires (k + 1) * WINDOW <= |samples|
  {
    samples[k * WINDOW..(k + 1) * WINDOW]
  }

  /** The first n windows' silence flags. */
  function SilentFlags(samples: seq<int>, n: nat): (flags: seq<bool>)
    requires n * WINDOW <= |samples|
    ensures |flags| == n && forall k :: 0 <= k < n ==> flags[k] == !IsVoiced(WindowAt(samples, k))
  {
    if n == 0 then [] else SilentFlags(samples, n - 1) + [!IsVoiced(WindowAt(samples, n - 1))]
  }

  /** The voiced ones among the first n windows, oldest first. */
  function VoicedWindows(samples: seq<int>, n: nat): seq<nat>
    requires n * WINDOW <= |samples|
  {
    if n == 0 then []
    else VoicedWindows(samples, n - 1) + (if IsVoiced(WindowAt(samples, n - 1)) then [n - 1] else [])
  }

  /** A window's interval in seconds. */
  function Interval(k: nat): (real, real) {
    (k as real * 320.0 / 16000.0, k as real * 320.0 / 16000.0 + 320.0 / 16000.0)
  }

  function Intervals(windows: seq<nat>): (r: seq<(real, real)>)
    ensures |r| == |windows| && forall i :: 0 <= i < |r| ==> r[i] == Interval(windows[i])
  {
    if windows == [] then [] else Intervals(windows[..|windows| - 1]) + [Interval(windows[|windows| - 1])]
  }

  predicate IsClipped(sample: int) {
    sample >= 32760 || -sample >= 32760
  }

  function Clipped(samples: seq<int>): nat {
    if samples == [] then 0
    else Clipped(samples[..|samples| - 1]) + (if IsClipped(samples[|samples| - 1]) then 1 else 0)
  }

  lemma {:induction false} ClippedConcat(s: seq<int>, t: seq<int>)
    ensures Clipped(s + t) == Clipped(s) + Clipped(t)
  {
    if t == [] {
      assert s + t == s;
    } else {
      ClippedConcat(s, t[..|t| - 1]);
      assert (s + t)[..|s + t| - 1] == s + t[..|t| - 1];
    }
  }

  /** The pass's own variables after some samples. */
  datatype SamplePass = SamplePass(clipped: nat, windows: nat, position: nat, energy: nat, voiced: seq<(real, real)>,
                                   silence: nat, maxSilence: nat)

  function HearSample(p: SamplePass, sample: int): SamplePass {
    var clipped := p.clipped + if IsClipped(sample) then 1 else 0;
    var energy, position := p.energy + Square(sample), p.position + 1;
    if position < WINDOW then p.(clipped := clipped, energy := energy, position := position)
    else if energy >= 300 * 300 * WINDOW then
      SamplePass(clipped, p.windows + 1, 0, 0, p.voiced + [Interval(p.windows)], 0, p.maxSilence)
    else
      SamplePass(clipped, p.windows + 1, 0, 0, p.voiced, p.silence + 1, Max(p.maxSilence, p.silence + 1))
  }

  function HearSamples(samples: seq<int>): SamplePass {
    if samples == [] then SamplePass(0, 0, 0, 0, [], 0, 0)
    else HearSample(HearSamples(samples[..|samples| - 1]), samples[|samples| - 1])
  }

  lemma {:induction false} HearSamplesCounts(samples: seq<int>)
    ensures var p := HearSamples(samples);
            && p.clipped == Clipped(samples)
            && p.windows * WINDOW + p.position == |samples| && p.position < WINDOW
            && p.energy == Energy(samples[p.windows * WINDOW..])
  {
    if samples != [] {
      var before := samples[..|samples| - 1];
      HearSamplesCounts(before);
      var lo := HearSamples(before).windows * WINDOW;
      assert samples[lo..][..|samples[lo..]| - 1] == before[lo..];
    }
  }

  lemma WindowStep(samples: seq<int>, k: nat)
    requires (k + 1) * WINDOW <= |samples|
    ensures var voiced := IsVoiced(WindowAt(samples, k));
            && SilentFlags(samples, k + 1) == SilentFlags(samples, k) + [!voiced]
            && VoicedWindows(samples, k + 1) == if voiced then VoicedWindows(samples, k) + [k]
                else VoicedWindows(samples, k)
  {
  }

  lemma {:induction false} EarlierWindows(samples: seq<int>, before: seq<int>, n: nat)
    requires before <= samples && n * WINDOW <= |before|
    ensures VoicedWindows(samples, n) == VoicedWindows(before, n) && SilentFlags(samples, n) == SilentFlags(before, n)
  {
    if n > 0 {
      EarlierWindows(samples, before, n - 1);
      assert WindowAt(samples, n - 1) == WindowAt(before, n - 1);
    }
  }

  lemma {:induction false} TrueStep(flags: seq<bool>, flag: bool)
    ensures TrueTail(flags + [flag]) == if flag then TrueTail(flags) + 1 else 0
    ensures LongestTrue(flags + [flag]) == Max(LongestTrue(flags), TrueTail(flags + [flag]))
  {
    assert (flags + [flag])[..|flags|] == flags;
  }

  /** The part of the pass that looks at whole windows. */
  predicate WindowsHeard(samples: seq<int>, p: SamplePass) {
    && p.windows * WINDOW <= |samples|
    && p.voiced == Intervals(VoicedWindows(samples, p.windows))
    && p.silence == TrueTail(SilentFlags(samples, p.windows))
    && p.maxSilence == LongestTrue(SilentFlags(samples, p.windows))
  }

  lemma HearContinues(samples: seq<int>, before: seq<int>, p: SamplePass, sample: int)
    requires WindowsHeard(before, p) && before <= samples
    ensures WindowsHeard(samples, p)
    ensures p.position + 1 < WINDOW ==> WindowsHeard(samples, HearSample(p, sample))
  {
    EarlierWindows(samples, before, p.windows);
  }

  lemma {:induction false} IntervalsSnoc(windows: seq<nat>, k: nat)
    ensures Intervals(windows + [k]) == Intervals(windows) + [Interval(k)]
  {
    assert (windows + [k])[..|windows|] == windows;
  }

  /** The pass at the end of a window. */
  function CloseWindow(p: SamplePass, sample: int, voiced: bool): SamplePass {
    var clipped := p.clipped + if IsClipped(sample) then 1 else 0;
    var silence := if voiced then 0 else p.silence + 1;
    SamplePass(clipped, p.windows + 1, 0, 0, if voiced then p.voiced + [Interval(p.windows)] else p.voiced, silence,
               if voiced then p.maxSilence else Max(p.maxSilence, silence))
  }

  lemma {:induction false} HearsItsWindow(p: SamplePass, sample: int, window: seq<int>)
    requires p.position + 1 >= WINDOW && p.energy + Square(sample) == Energy(window)
    ensures HearSample(p, sample) == CloseWindow(p, sample, IsVoiced(window))
  {
  }

  lemma ClosedVoiced(samples: seq<int>, p: SamplePass, q: SamplePass, flags: seq<bool>, windows: seq<nat>)
    requires WindowsHeard(samples, p) && q.windows == p.windows + 1 && q.windows * WINDOW <= |samples|
    requires flags == SilentFlags(samples, p.windows) && windows == VoicedWindows(samples, p.windows)
    requires SilentFlags(samples, q.windows) == flags + [false]
    requires VoicedWindows(samples, q.windows) == windows + [p.windows]
    requires q.voiced == p.voiced + [Interval(p.windows)] && q.silence == 0 && q.maxSilence == p.maxSilence
    ensures WindowsHeard(samples, q)
  {
    TrueStep(flags, false);
    IntervalsSnoc(windows, p.windows);
  }

  lemma ClosedSilent(samples: seq<int>, p: SamplePass, q: SamplePass, flags: seq<bool>)
    requires WindowsHeard(samples, p) && q.windows == p.windows + 1 && q.windows * WINDOW <= |samples|
    requires flags == SilentFlags(samples, p.windows) && SilentFlags(samples, q.windows) == flags + [true]
    requires VoicedWindows(samples, q.windows) == VoicedWindows(samples, p.windows)
    requires q.voiced == p.voiced && q.silence == p.silence + 1 && q.maxSilence == Max(p.maxSilence, q.silence)
    ensures WindowsHeard(samples, q)
  {
    TrueStep(flags, true);
  }

  lemma HearCloses(samples: seq<int>, p: SamplePass, sample: int)
    requires WindowsHeard(samples, p) && p.position + 1 >= WINDOW && (p.windows + 1) * WINDOW <= |samples|
    requires p.energy + Square(sample) == Energy(WindowAt(samples, p.windows))
    ensures WindowsHeard(samples, HearSample(p, sample))
  {
    var k, flags := p.windows, SilentFlags(samples, p.windows);
    var voiced := IsVoiced(WindowAt(samples, k));
    HearsItsWindow(p, sample, WindowAt(samples, k));
    WindowStep(samples, k);
    if voiced {
      ClosedVoiced(samples, p, CloseWindow(p, sample, true), flags, VoicedWindows(samples, k));
    } else {
      ClosedSilent(samples, p, CloseWindow(p, sample, false), flags);
    }
  }

  /** One more sample that fills the window its predecessors began. */
  lemma {:induction false} HearFills(samples: seq<int>, p: SamplePass)
    requires samples != [] && WindowsHeard(samples, p)
    requires p.windows * WINDOW + p.position == |samples| - 1 && p.position + 1 == WINDOW
    requires p.energy == Energy(samples[..|samples| - 1][p.windows * WINDOW..])
    ensures WindowsHeard(samples, HearSample(p, samples[|samples| - 1]))
  {
    var lo := p.windows * WINDOW;
    LastOfWindow(samples, lo);
    assert samples[lo..] == WindowAt(samples, p.windows);
    HearCloses(samples, p, samples[|samples| - 1]);
  }

  lemma HearOneMore(samples: seq<int>, p: SamplePass)
    requires samples != [] && p == HearSamples(samples[..|samples| - 1])
    requires WindowsHeard(samples[..|samples| - 1], p)
    ensures WindowsHeard(samples, HearSample(p, samples[|samples| - 1]))
  {
    HearSamplesCounts(samples[..|samples| - 1]);
    HearContinues(samples, samples[..|samples| - 1], p, samples[|samples| - 1]);
    if p.position + 1 == WINDOW {
      HearFills(samples, p);
    }
  }

  lemma {:induction false} HearSamplesWindows(samples: seq<int>)
    ensures WindowsHeard(samples, HearSamples(samples))
  {
    if samples != [] {
      HearSamplesWindows(samples[..|samples| - 1]);
      HearOneMore(samples, HearSamples(samples[..|samples| - 1]));
    }
  }

  lemma LastOfWindow(samples: seq<int>, lo: nat)
    requires lo < |samples|
    ensures Energy(samples[lo..]) == Energy(samples[..|samples| - 1][lo..]) + Square(samples[|samples| - 1])
  {
    assert samples[lo..][..|samples[lo..]| - 1] == samples[..|samples| - 1][lo..];
  }

  /** What the resampler still holds at the end is counted, but falls in no window. */
  method InspectSamples(samples: seq<int>, flushed: seq<int>)
    returns (count: nat, clipped: nat, voiced: seq<(real, real)>, maxSilence: nat)
    ensures count == |samples| + |flushed|
    ensures clipped == Clipped(samples + flushed)
    ensures voiced == Intervals(VoicedWindows(samples, |samples| / WINDOW))
    ensures maxSilence == LongestTrue(SilentFlags(samples, |samples| / WINDOW))
  {
    count, clipped, voiced, maxSilence := 0, 0, [], 0;
    var windows: nat, position: nat, energy: nat, silence: nat := 0, 0, 0, 0;
    for i := 0 to |samples|
      invariant count == i
      invariant SamplePass(clipped, windows, position, energy, voiced, silence, maxSilence) == HearSamples(samples[..i])
    {
      assert samples[..i + 1][..i] == samples[..i];
      count := count + 1;
      clipped := clipped + if IsClipped(samples[i]) then 1 else 0;
      energy := energy + Square(samples[i]);
      position := position + 1;
      if position < WINDOW {
        continue;
      }
      if energy >= 300 * 300 * WINDOW {
        voiced := voiced + [Interval(windows)];
        silence := 0;
      } else {
        silence := silence + 1;
        maxSilence := Max(maxSilence, silence);
      }
      windows, position, energy := windows + 1, 0, 0;
    }
    assert samples[..|samples|] == samples;
    HearSamplesCounts(samples);
    HearSamplesWindows(samples);
    assert windows == |samples| / WINDOW;
    var more, moreClipped := CountFlushed(flushed);
    ClippedConcat(samples, flushed);
    count, clipped := count + more, clipped + moreClipped;
  }

  method CountFlushed(flushed: seq<int>) returns (count: nat, clipped: nat)
    ensures count == |flushed| && clipped == Clipped(flushed)
  {
    count, clipped := 0, 0;
    for i := 0 to |flushed|
      invariant count == i && clipped == Clipped(flushed[..i])
    {
      assert flushed[..i + 1][..i] == flushed[..i];
      count := count + 1;
      if IsClipped(flushed[i]) {
        clipped := clipped + 1;
      }
    }
    assert flushed[..|flushed|] == flushed;
  }

  // --------------------------------------------------------------- main results

  /** The frame counters are what their names say: some block of identical frames is that
      long and none longer, and likewise for black frames. */
  lemma {:induction false} FrameRunsAreLongest(frames: seq<Frame>)
    ensures frames != [] ==> HasRun(frames, LongestRun(frames))
    ensures forall i, j :: IsRun(frames, i, j) ==> j - i <= LongestRun(frames)
    ensures LongestTrue(BlackFlags(frames)) > 0 ==> HasTrueRun(BlackFlags(frames), LongestTrue(BlackFlags(frames)))
    ensures forall i, j :: IsTrueRun(BlackFlags(frames), i, j) ==> j - i <= LongestTrue(BlackFlags(frames))
  {
    LongestRunIs(frames);
    LongestTrueIs(BlackFlags(frames));
  }

  lemma {:induction false} VoicedWindowsAre(samples: seq<int>, n: nat)
    requires n * WINDOW <= |samples|
    ensures var windows := VoicedWindows(samples, n);
            && |windows| <= n
            && (forall i :: 0 <= i < |windows| ==> windows[i] < n)
            && (forall i, j :: 0 <= i < j < |windows| ==> windows[i] < windows[j])
            && (forall k :: 0 <= k < n ==> (k in windows <==> IsVoiced(WindowAt(samples, k))))
  {
    if n > 0 {
      VoicedWindowsAre(samples, n - 1);
    }
  }

  /** Voiced intervals are exactly the voiced 20 ms windows, in order and disjoint. */
  lemma {:induction false} VoicedIntervalsAreSortedAndDisjoint(samples: seq<int>)
    ensures var n := |samples| / WINDOW;
            var voiced := Intervals(VoicedWindows(samples, n));
            && (forall i :: 0 <= i < |voiced| ==> voiced[i].1 - voiced[i].0 == 0.02)
            && (forall i, j :: 0 <= i < j < |voiced| ==> voiced[i].1 <= voiced[j].0)
            && (forall i :: 0 <= i < |voiced| ==> 0.0 <= voiced[i].0 && voiced[i].1 <= |samples| as real / 16000.0)
  {
    var n := |samples| / WINDOW;
    VoicedWindowsAre(samples, n);
    var windows := VoicedWindows(samples, n);
    var voiced := Intervals(windows);
    forall i | 0 <= i < |voiced| ensures 0.0 <= voiced[i].0 && voiced[i].1 <= |samples| as real / 16000.0 {}
    forall i, j | 0 <= i < j < |voiced| ensures voiced[i].1 <= voiced[j].0 {}
  }

  function Length(intervals: seq<(real, real)>): real {
    if intervals == [] then 0.0
    else Length(intervals[..|intervals| - 1]) + (intervals[|intervals| - 1].1 - intervals[|intervals| - 1].0)
  }

  lemma {:induction false} LengthOfIntervals(windows: seq<nat>)
    ensures Length(Intervals(windows)) == |windows| as real * 0.02
  {
    if windows != [] {
      LengthOfIntervals(windows[..|windows| - 1]);
    }
  }

  /** Voiced time and the longest silence both fit in what was decoded. */
  lemma {:induction false} VoicedFits(samples: seq<int>, flushed: seq<int>)
    ensures var n, duration := |samples| / WINDOW, (|samples| + |flushed|) as real / 16000.0;
            && 0.0 <= Length(Intervals(VoicedWindows(samples, n))) <= duration
            && (LongestTrue(SilentFlags(samples, n)) * WINDOW) as real / 16000.0 <= duration
  {
    var n := |samples| / WINDOW;
    var windows := VoicedWindows(samples, n);
    VoicedWindowsAre(samples, n);
    LengthOfIntervals(windows);
    LongestTrueAtMost(SilentFlags(samples, n));
  }

  /** voiced_duration / duration if duration else 0.0 */
  function Ratio(part: real, whole: real): real {
    if whole == 0.0 then 0.0 else part / whole
  }

  function VoicedSeconds(samples: seq<int>): real {
    Length(Intervals(VoicedWindows(samples, |samples| / WINDOW)))
  }

  function Seconds(samples: seq<int>, flushed: seq<int>): real {
    (|samples| + |flushed|) as real / 16000.0
  }

  /** So the voiced ratio, over every sample counted, lies between 0 and 1. */
  lemma VoicedRatioIsARatio(samples: seq<int>, flushed: seq<int>)
    ensures 0.0 <= Ratio(VoicedSeconds(samples), Seconds(samples, flushed)) <= 1.0
  {
    VoicedFits(samples, flushed);
    RatioOfPart(VoicedSeconds(samples), Seconds(samples, flushed));
  }

  lemma RatioOfPart(part: real, whole: real)
    requires 0.0 <= part <= whole
    ensures 0.0 <= Ratio(part, whole) <= 1.0
  {
    if whole > 0.0 {
      RatioInUnit(part, whole);
    }
  }

  lemma RatioInUnit(part: real, whole: real)
    requires 0.0 <= part <= whole && whole > 0.0
    ensures 0.0 <= part / whole <= 1.0
  {
  }

  lemma {:induction false} LongestTrueAtMost(s: seq<bool>)
    ensures TrueTail(s) <= |s| && LongestTrue(s) <= |s|
  {
    if s != [] {
      LongestTrueAtMost(s[..|s| - 1]);
    }
  }

  // --------------------------------------------------------- what is counted

  lemma MeanBelow(sum: real, n: real, bound: real)
    requires n > 0.0
    ensures sum / n < bound <==> sum < bound * n
  {
    assert sum / n * n == sum;
  }

  /** A frame is black exactly when it has no pixels or their mean is below 8. */
  lemma {:induction false} BlackMeans(pixels: Frame)
    ensures IsBlack(pixels) <==> pixels == [] || Sum(pixels) as real / |pixels| as real < 8.0
  {
    if pixels != [] {
      MeanBelow(Sum(pixels) as real, |pixels| as real, 8.0);
    }
  }

  function Squares(samples: seq<int>): seq<int> {
    seq(|samples|, i requires 0 <= i < |samples| => samples[i] * samples[i])
  }

  lemma {:induction false} EnergyIsTheSum(samples: seq<int>)
    ensures Energy(samples) == Sum(Squares(samples))
  {
    if samples != [] {
      var before := samples[..|samples| - 1];
      EnergyIsTheSum(before);
      assert Squares(samples)[..|before|] == Squares(before);
    }
  }

  /** A window is voiced exactly when the mean of its squares is at least 300 squared. */
  lemma VoicedMeans(window: seq<int>)
    requires |window| == 320
    ensures IsVoiced(window) <==> Sum(Squares(window)) as real / 320.0 >= 90_000.0
  {
    EnergyIsTheSum(window);
  }

  function OneWhere(samples: seq<int>): seq<int> {
    seq(|samples|, i requires 0 <= i < |samples| => if samples[i] <= -32_760 || 32_760 <= samples[i] then 1 else 0)
  }

  /** Samples within 7 of full scale on either side are counted as clipped. */
  lemma {:induction false} ClippedMeans(samples: seq<int>)
    ensures Clipped(samples) == Sum(OneWhere(samples))
  {
    if samples != [] {
      var before := samples[..|samples| - 1];
      ClippedMeans(before);
      assert OneWhere(samples)[..|before|] == OneWhere(before);
    }
  }

  lemma IntervalMeans(k: nat)
    ensures Interval(k) == (k as real / 50.0, (k + 1) as real / 50.0)
  {
  }

  lemma {:induction false} IntervalIn(windows: seq<nat>, k: nat)
    ensures Interval(k) in Intervals(windows) <==> k in windows
  {
    var intervals := Intervals(windows);
    if k in windows {
      var i :| 0 <= i < |windows| && windows[i] == k;
      assert intervals[i] == Interval(k);
    }
    if Interval(k) in intervals {
      var i :| 0 <= i < |intervals| && intervals[i] == Interval(k);
      assert windows[i] == k;
    }
  }

  /** The voiced intervals are those of exactly the voiced windows of 320 samples, 20 ms each. */
  lemma {:induction false} VoicedIntervalsAre(samples: seq<int>, k: nat)
    requires 320 * k + 320 <= |samples|
    ensures (k as real / 50.0, (k + 1) as real / 50.0) in Intervals(VoicedWindows(samples, |samples| / WINDOW))
            <==> IsVoiced(samples[320 * k..320 * k + 320])
  {
    IntervalMeans(k);
    IntervalIn(VoicedWindows(samples, |samples| / WINDOW), k);
    VoicedWindowsAre(samples, |samples| / WINDOW);
    assert WindowAt(samples, k) == samples[320 * k..320 * k + 320];
  }

  /** Some stretch of silent windows is as long as the silence counter says, and none is longer. */
  lemma {:induction false} SilenceIsLongest(samples: seq<int>)
    ensures var n := |samples| / WINDOW;
            var longest := LongestTrue(SilentFlags(samples, n));
            && (longest > 0 ==> exists i: nat :: SilentStretch(samples, i, longest))
            && (forall i: nat, length: nat :: length > 0 && SilentStretch(samples, i, length) ==> length <= longest)
  {
    var n := |samples| / WINDOW;
    var flags := SilentFlags(samples, n);
    LongestTrueIs(flags);
    if LongestTrue(flags) > 0 {
      var i, j :| IsTrueRun(flags, i, j) && j - i == LongestTrue(flags);
      assert SilentStretch(samples, i, LongestTrue(flags));
    }
    forall i: nat, length: nat | length > 0 && SilentStretch(samples, i, length)
      ensures length <= LongestTrue(flags)
    {
      assert IsTrueRun(flags, i, i + length);
    }
  }

  predicate SilentStretch(samples: seq<int>, i: nat, length: nat) {
    (i + length) * WINDOW <= |samples| && forall k: nat :: i <= k < i + length ==> !IsVoiced(WindowAt(samples, k))
  }

  // ------------------------------------------------------------------- alignment

  predicate Overlaps(cue: (real, real), voiced: (real, real)) {
    (if cue.0 < voiced.0 then voiced.0 else cue.0) < (if cue.1 < voiced.1 then cue.1 else voiced.1)
  }

  predicate Aligned(cue: (real, real), voiced: seq<(real, real)>) {
    exists i :: 0 <= i < |voiced| && Overlaps(cue, voiced[i])
  }

  function AlignedCues(cues: seq<(real, real)>, voiced: seq<(real, real)>): (n: nat)
    ensures n <= |cues|
  {
    if cues == [] then 0
    else AlignedCues(cues[..|cues| - 1], voiced) + (if Aligned(cues[|cues| - 1], voiced) then 1 else 0)
  }

  method CountAligned(cues: seq<(real, real)>, voiced: seq<(real, real)>) returns (aligned: nat)
    ensures aligned == AlignedCues(cues, voiced)
  {
    aligned := 0;
    for i := 0 to |cues|
      invariant aligned == AlignedCues(cues[..i], voiced)
    {
      assert cues[..i + 1][..i] == cues[..i];
      var found := false;
      for j := 0 to |voiced|
        invariant found <==> exists k :: 0 <= k < j && Overlaps(cues[i], voiced[k])
      {
        found := found || Overlaps(cues[i], voiced[j]);
      }
      if found {
        aligned := aligned + 1;
      }
    }
    assert cues[..|cues|] == cues;
  }

  function OneWhereAligned(cues: seq<(real, real)>, voiced: seq<(real, real)>): seq<int> {
    seq(|cues|, i requires 0 <= i < |cues| =>
      if exists j :: 0 <= j < |voiced| && Overlaps(cues[i], voiced[j]) then 1 else 0)
  }

  /** Every cue that meets some voiced interval is counted once. */
  lemma {:induction false} AlignedAreCounted(cues: seq<(real, real)>, voiced: seq<(real, real)>)
    ensures AlignedCues(cues, voiced) == Sum(OneWhereAligned(cues, voiced))
  {
    if cues != [] {
      var before := cues[..|cues| - 1];
      AlignedAreCounted(before, voiced);
      assert OneWhereAligned(cues, voiced)[..|before|] == OneWhereAligned(before, voiced);
    }
  }

  /** A cue is counted exactly when speech sounds at some moment inside it. */
  lemma OverlapMeansACommonMoment(cue: (real, real), voiced: (real, real))
    ensures Overlaps(cue, voiced) <==> exists t: real :: Inside(t, cue) && Inside(t, voiced)
  {
    if Overlaps(cue, voiced) {
      var lo := if cue.0 < voiced.0 then voiced.0 else cue.0;
      var hi := if cue.1 < voiced.1 then cue.1 else voiced.1;
      assert Inside((lo + hi) / 2.0, cue) && Inside((lo + hi) / 2.0, voiced);
    }
  }

  predicate Inside(t: real, interval: (real, real)) {
    interval.0 < t < interval.1
  }
}
