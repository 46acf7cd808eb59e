// The WebVTT text the runtime prints, and a reader for it that follows section
// 4.1 ("WebVTT file structure") of the W3C WebVTT specification: newline and NUL
// preprocessing, header line, cue blocks with identifier, timings and payload.
module Vtt {
  import opened Prelude
  import opened Text

  datatype Cue = Cue(id: string, start: nat, end: nat, text: string)

  // ------------------------------------------------------------- timestamps

  function Hours(ms: nat): string {
    ZeroPad(Decimal(ms / 3_600_000), 2)
  }

  function Minutes(ms: nat): string {
    ZeroPad(Decimal(ms % 3_600_000 / 60_000), 2)
  }

  function Seconds(ms: nat): string {
    ZeroPad(Decimal(ms % 3_600_000 % 60_000 / 1000), 2)
  }

  function Milliseconds(ms: nat): string {
    ZeroPad(Decimal(ms % 3_600_000 % 60_000 % 1000), 3)
  }

  /** HH:MM:SS.mmm; hours grow past two digits when they must. */
  function Stamp(ms: nat): string {
    Hours(ms) + ":" + Minutes(ms) + ":" + Seconds(ms) + "." + Milliseconds(ms)
  }

  /** Optional hours of two or more digits, then MM:SS.mmm. */
  function ParseStamp(t: string): Option<nat> {
    var n := |t|;
    if n < 9 || t[n - 4] != '.' || t[n - 7] != ':' then None
    else if n == 9 then FromFields("", t[..2], t[3..5], t[6..])
    else if n < 12 || t[n - 10] != ':' then None
    else FromFields(t[..n - 10], t[n - 9..n - 7], t[n - 6..n - 4], t[n - 3..])
  }

  function FromFields(h: string, m: string, s: string, f: string): Option<nat> {
    if !AllDigits(h) || !AllDigits(m) || !AllDigits(s) || !AllDigits(f) then None
    else Combined(Value(h), Value(m), Value(s), Value(f))
  }

  function Combined(h: nat, m: nat, s: nat, f: nat): Option<nat> {
    if m >= 60 || s >= 60 then None else Some(h * 3_600_000 + m * 60_000 + s * 1000 + f)
  }

  /** The four fields of a stamp: their widths, their ranges, and that they add up. */
  lemma StampLayout(ms: nat)
    ensures |Hours(ms)| >= 2 && |Minutes(ms)| == 2 && |Seconds(ms)| == 2 && |Milliseconds(ms)| == 3
    ensures AllDigits(Hours(ms)) && AllDigits(Minutes(ms)) && AllDigits(Seconds(ms)) && AllDigits(Milliseconds(ms))
    ensures Value(Minutes(ms)) < 60 && Value(Seconds(ms)) < 60 && Value(Milliseconds(ms)) < 1000
    ensures Value(Hours(ms)) * 3_600_000 + Value(Minutes(ms)) * 60_000 + Value(Seconds(ms)) * 1000
            + Value(Milliseconds(ms)) == ms
    ensures Combined(Value(Hours(ms)), Value(Minutes(ms)), Value(Seconds(ms)), Value(Milliseconds(ms))) == Some(ms)
    ensures ms < 360_000_000 ==> |Hours(ms)| == 2
  {
    var minutes, rest := ms % 3_600_000 / 60_000, ms % 3_600_000 % 60_000;
    HourFieldIs(ms / 3_600_000);
    TwoDigits(minutes);
    TwoDigits(rest / 1000);
    ThreeDigits(rest % 1000);
  }

  lemma {:induction false} HourFieldIs(hours: nat)
    ensures var h := ZeroPad(Decimal(hours), 2);
            |h| >= 2 && AllDigits(h) && Value(h) == hours && (hours < 100 ==> |h| == 2)
  {
    DecimalInverse(hours);
  }

  lemma StampInverse(ms: nat)
    ensures ParseStamp(Stamp(ms)) == Some(ms)
  {
    StampLayout(ms);
    FieldsParse(Hours(ms), Minutes(ms), Seconds(ms), Milliseconds(ms));
  }

  lemma {:induction false} FieldsParse(h: string, m: string, s: string, f: string)
    requires |h| >= 2 && |m| == 2 && |s| == 2 && |f| == 3
    requires AllDigits(h) && AllDigits(m) && AllDigits(s) && AllDigits(f)
    ensures ParseStamp(h + ":" + m + ":" + s + "." + f) == Combined(Value(h), Value(m), Value(s), Value(f))
  {
    FieldsCut(h, m, s, f);
  }

  lemma FieldsCut(h: string, m: string, s: string, f: string)
    requires |h| >= 2 && |m| == 2 && |s| == 2 && |f| == 3
    ensures ParseStamp(h + ":" + m + ":" + s + "." + f) == FromFields(h, m, s, f)
  {
    FieldPositions(h, m, s, f);
  }

  lemma Slice(a: string, b: string, c: string)
    ensures (a + b + c)[|a|..|a| + |b|] == b && (a + b + c)[|a| + |b|..] == c && (a + b + c)[..|a|] == a
  {
  }

  lemma FieldPositions(h: string, m: string, s: string, f: string)
    requires |m| == 2 && |s| == 2 && |f| == 3
    ensures var t, n := h + ":" + m + ":" + s + "." + f, |h| + 10;
            && |t| == n && t[n - 4] == '.' && t[n - 7] == ':' && t[n - 10] == ':'
            && t[n - 3..] == f && t[n - 6..n - 4] == s && t[n - 9..n - 7] == m && t[..n - 10] == h
  {
  }

  predicate IsStampChar(c: char) {
    IsDigit(c) || c == ':' || c == '.'
  }

  lemma StampChars(ms: nat)
    ensures forall i :: 0 <= i < |Stamp(ms)| ==> IsStampChar(Stamp(ms)[i])
    ensures Stamp(ms) != ""
  {
    StampLayout(ms);
  }

  lemma {:induction false} PrecedesByDigits(a: string, b: string, x: string, y: string)
    requires |a| == |b| && AllDigits(a) && AllDigits(b)
    requires Value(a) < Value(b) || (Value(a) == Value(b) && Precedes(x, y))
    ensures Precedes(a + x, b + y)
    decreases |a|
  {
    if a == "" {
      assert a + x == x && b + y == y;
    } else {
      SplitFirst(a);
      SplitFirst(b);
      ValueBound(b[1..]);
      assert (a + x)[1..] == a[1..] + x && (b + y)[1..] == b[1..] + y;
      assert DigitValue(a[0]) <= DigitValue(b[0]) by {
        if DigitValue(a[0]) > DigitValue(b[0]) {
          PowerStep(DigitValue(a[0]), DigitValue(b[0]), Power10(|a| - 1));
        }
      }
      if a[0] == b[0] {
        PrecedesByDigits(a[1..], b[1..], x, y);
      }
    }
  }

  function Power10(n: nat): nat {
    if n == 0 then 1 else 10 * Power10(n - 1)
  }

  lemma PowerStep(a: nat, b: nat, p: nat)
    requires a > b
    ensures a * p >= b * p + p
  {
    assert a * p == (b + 1) * p + (a - b - 1) * p;
  }

  lemma {:induction false} ValueBound(s: string)
    requires AllDigits(s)
    ensures Value(s) < Power10(|s|)
  {
    if s != "" {
      ValueBound(s[..|s| - 1]);
    }
  }

  lemma TimesTen(d: nat, n: nat)
    requires n > 0
    ensures d * Power10(n) == d * Power10(n - 1) * 10
  {
  }

  lemma {:induction false} SplitFirst(s: string)
    requires s != "" && AllDigits(s)
    ensures Value(s) == DigitValue(s[0]) * Power10(|s| - 1) + Value(s[1..])
  {
    if |s| == 1 {
    } else {
      var front := s[..|s| - 1];
      SplitFirst(front);
      assert s[1..][..|s| - 2] == front[1..];
      TimesTen(DigitValue(s[0]), |s| - 1);
    }
  }

  /** Below a hundred hours the fixed-width stamps sort exactly as their times do. */
  lemma StampOrder(a: nat, b: nat)
    requires a < b < 360_000_000
    ensures Precedes(Stamp(a), Stamp(b))
  {
    var h, m, s, f := Hours(a), Minutes(a), Seconds(a), Milliseconds(a);
    var h', m', s', f' := Hours(b), Minutes(b), Seconds(b), Milliseconds(b);
    StampLayout(a);
    StampLayout(b);
    var u, u' := s + ("." + f), s' + ("." + f');
    var w, w' := m + (":" + u), m' + (":" + u');
    if Value(h) == Value(h') {
      if Value(m) == Value(m') {
        if Value(s) == Value(s') {
          LastField(f, f');
        }
        NextField(s, s', ".", f, f');
      }
      NextField(m, m', ":", u, u');
    }
    NextField(h, h', ":", w, w');
    Regroup(h, m, s, f);
    Regroup(h', m', s', f');
  }

  lemma Regroup(h: string, m: string, s: string, f: string)
    ensures h + ":" + m + ":" + s + "." + f == h + (":" + (m + (":" + (s + ("." + f)))))
  {
  }

  lemma {:induction false} LastField(a: string, b: string)
    requires |a| == |b| && AllDigits(a) && AllDigits(b) && Value(a) < Value(b)
    ensures Precedes(a, b)
  {
    PrecedesByDigits(a, b, "", "");
    assert a + "" == a && b + "" == b;
  }

  lemma NextField(a: string, b: string, sep: string, x: string, y: string)
    requires |a| == |b| && AllDigits(a) && AllDigits(b) && |sep| == 1
    requires Value(a) < Value(b) || (Value(a) == Value(b) && Precedes(x, y))
    ensures Precedes(a + (sep + x), b + (sep + y))
  {
    PrecedesByDigits(a, b, sep + x, sep + y);
  }

  // ------------------------------------------------------------------ lines

  /** Every line followed by a line feed. */
  function PrintLines(lines: seq<string>): string {
    if lines == [] then "" else lines[0] + "\n" + PrintLines(lines[1..])
  }

  function LineLength(s: string): (n: nat)
    ensures n <= |s|
    ensures forall i :: 0 <= i < n ==> s[i] != '\n'
    ensures n < |s| ==> s[n] == '\n'
  {
    if s == "" || s[0] == '\n' then 0 else 1 + LineLength(s[1..])
  }

  function SplitLines(s: string): seq<string>
    decreases |s|
  {
    var n := LineLength(s);
    if n == |s| then [s] else [s[..n]] + SplitLines(s[n + 1..])
  }

  predicate NoLineFeed(s: string) {
    forall i :: 0 <= i < |s| ==> s[i] != '\n'
  }

  lemma {:induction false} SplitFirstLine(line: string, rest: string)
    requires NoLineFeed(line)
    ensures SplitLines(line + "\n" + rest) == [line] + SplitLines(rest)
  {
    var s := line + "\n" + rest;
    assert s[|line|] == '\n';
    assert s[..|line|] == line && s[|line| + 1..] == rest;
  }

  lemma {:induction false} SplitPrinted(lines: seq<string>)
    requires forall i :: 0 <= i < |lines| ==> NoLineFeed(lines[i])
    ensures SplitLines(PrintLines(lines)) == lines + [""]
  {
    if lines == [] {
      assert SplitLines("") == [""];
    } else {
      SplitFirstLine(lines[0], PrintLines(lines[1..]));
      SplitPrinted(lines[1..]);
    }
  }

  // ----------------------------------------------------------------- reader

  /** CR LF and CR become LF; NUL becomes U+FFFD. */
  function Preprocess(s: string): string
    decreases |s|
  {
    if s == "" then ""
    else if |s| >= 2 && s[0] == '\r' && s[1] == '\n' then "\n" + Preprocess(s[2..])
    else if s[0] == '\r' then "\n" + Preprocess(s[1..])
    else if s[0] == '\0' then "\U{FFFD}" + Preprocess(s[1..])
    else [s[0]] + Preprocess(s[1..])
  }

  predicate IsHeader(line: string) {
    line == "WEBVTT" || StartsWith(line, "WEBVTT ") || StartsWith(line, "WEBVTT\t")
  }

  predicate ArrowHere(line: string, i: nat) {
    i + 3 <= |line| && line[i] == '-' && line[i + 1] == '-' && line[i + 2] == '>'
  }

  predicate HasArrow(line: string) {
    exists i :: 0 <= i < |line| && ArrowHere(line, i)
  }

  /** Characters before the first "-->". */
  function ArrowAt(line: string): (n: nat)
    ensures n <= |line|
  {
    if line == "" || ArrowHere(line, 0) then 0 else 1 + ArrowAt(line[1..])
  }

  predicate IsBlankChar(c: char) {
    c == ' ' || c == '\t'
  }

  function TrimLeft(s: string): string {
    if s != "" && IsBlankChar(s[0]) then TrimLeft(s[1..]) else s
  }

  function TrimRight(s: string): string {
    if s != "" && IsBlankChar(s[|s| - 1]) then TrimRight(s[..|s| - 1]) else s
  }

  /** The first run without blanks; cue settings may follow it. */
  function FirstToken(s: string): string {
    if s == "" || IsBlankChar(s[0]) then "" else [s[0]] + FirstToken(s[1..])
  }

  function ParseTimings(line: string): Option<(nat, nat)> {
    var n := ArrowAt(line);
    if n + 3 > |line| then None
    else
      match (ParseStamp(TrimRight(line[..n])), ParseStamp(FirstToken(TrimLeft(line[n + 3..]))))
      case (Some(start), Some(end)) => Some((start, end))
      case _ => None
  }

  /** Lines of the payload: up to a blank line or the next timings. */
  function PayloadLength(lines: seq<string>): (n: nat)
    ensures n <= |lines|
  {
    if lines == [] || lines[0] == "" || HasArrow(lines[0]) then 0 else 1 + PayloadLength(lines[1..])
  }

  function JoinPayload(lines: seq<string>): string {
    if lines == [] then ""
    else if |lines| == 1 then lines[0]
    else lines[0] + "\n" + JoinPayload(lines[1..])
  }

  function ReadCues(lines: seq<string>): Option<seq<Cue>>
    decreases |lines|, 0
  {
    if lines == [] then Some([])
    else if lines[0] == "" then ReadCues(lines[1..])
    else if HasArrow(lines[0]) then ReadCue("", lines[0], lines[1..])
    else if |lines| >= 2 && HasArrow(lines[1]) then ReadCue(lines[0], lines[1], lines[2..])
    else None
  }

  function ReadCue(id: string, timings: string, rest: seq<string>): Option<seq<Cue>>
    decreases |rest|, 1
  {
    match ParseTimings(timings)
    case None => None
    case Some((start, end)) =>
      var n := PayloadLength(rest);
      match ReadCues(rest[n..])
      case None => None
      case Some(cues) => Some([Cue(id, start, end, Unescape(JoinPayload(rest[..n])))] + cues)
  }

  function ReadVtt(s: string): Option<seq<Cue>> {
    var lines := SplitLines(Preprocess(s));
    if |lines| < 2 || !IsHeader(lines[0]) || lines[1] != "" then None
    else ReadCues(lines[2..])
  }

  // ---------------------------------------------------------------- printer

  function CueLines(c: Cue): seq<string> {
    [c.id, Stamp(c.start) + " --> " + Stamp(c.end), Escape(c.text), ""]
  }

  function AllCueLines(cues: seq<Cue>): seq<string> {
    if cues == [] then [] else CueLines(cues[0]) + AllCueLines(cues[1..])
  }

  function Render(cues: seq<Cue>): string {
    PrintLines(["WEBVTT", ""] + AllCueLines(cues))
  }

  // ------------------------------------------------------------- round trip

  /** A character the printer may put inside one line. */
  predicate IsLineChar(c: char) {
    c != '\n' && c != '\r' && c != '\0'
  }

  predicate Printable(c: Cue) {
    && c.id != "" && AllDigits(c.id)
    && c.text != "" && forall i :: 0 <= i < |c.text| ==> IsLineChar(c.text[i])
  }

  predicate PlainLine(line: string) {
    forall i :: 0 <= i < |line| ==> IsLineChar(line[i])
  }

  lemma {:induction false} AllCueLinesAppend(cues: seq<Cue>, more: seq<Cue>)
    ensures AllCueLines(cues + more) == AllCueLines(cues) + AllCueLines(more)
  {
    if cues == [] {
      assert cues + more == more;
    } else {
      assert (cues + more)[1..] == cues[1..] + more;
      AllCueLinesAppend(cues[1..], more);
    }
  }

  lemma CueLinesArePlain(c: Cue)
    requires Printable(c)
    ensures forall i :: 0 <= i < 4 ==> PlainLine(CueLines(c)[i])
  {
    StampChars(c.start);
    StampChars(c.end);
    EscapeChars(c.text);
  }

  lemma {:induction false} AllCueLinesArePlain(cues: seq<Cue>)
    requires forall i :: 0 <= i < |cues| ==> Printable(cues[i])
    ensures forall i :: 0 <= i < |AllCueLines(cues)| ==> PlainLine(AllCueLines(cues)[i])
  {
    if cues != [] {
      AllCueLinesArePlain(cues[1..]);
      CueLinesArePlain(cues[0]);
    }
  }

  lemma {:induction false} PreprocessKeeps(s: string)
    requires forall i :: 0 <= i < |s| ==> s[i] != '\r' && s[i] != '\0'
    ensures Preprocess(s) == s
  {
    if s != "" {
      PreprocessKeeps(s[1..]);
    }
  }

  lemma {:induction false} PrintedChars(lines: seq<string>)
    requires forall i :: 0 <= i < |lines| ==> PlainLine(lines[i])
    ensures forall i :: 0 <= i < |PrintLines(lines)| ==> PrintLines(lines)[i] != '\r' && PrintLines(lines)[i] != '\0'
  {
    if lines != [] {
      PrintedChars(lines[1..]);
    }
  }

  lemma TimingsLine(start: nat, end: nat)
    ensures var line := Stamp(start) + " --> " + Stamp(end);
            HasArrow(line) && ParseTimings(line) == Some((start, end))
  {
    StampChars(start);
    StampChars(end);
    StampInverse(start);
    StampInverse(end);
    ArrowLine(Stamp(start), Stamp(end));
    TrimmedSides(Stamp(start), Stamp(end));
  }

  lemma ArrowLine(a: string, b: string)
    requires a != "" && forall i :: 0 <= i < |a| ==> IsStampChar(a[i])
    ensures var line := a + " --> " + b;
            HasArrow(line) && ArrowAt(line) == |a| + 1 && |a| + 4 <= |line|
            && line[..|a| + 1] == a + " " && line[|a| + 4..] == " " + b
  {
    var line := a + " --> " + b;
    assert ArrowHere(line, |a| + 1);
    FirstArrow(line, |a| + 1);
  }

  lemma {:induction false} TrimmedSides(a: string, b: string)
    requires a != "" && forall i :: 0 <= i < |a| ==> IsStampChar(a[i])
    requires b != "" && forall i :: 0 <= i < |b| ==> IsStampChar(b[i])
    ensures TrimRight(a + " ") == a
    ensures FirstToken(TrimLeft(" " + b)) == b
  {
    TokenOfStamp(b);
  }

  lemma {:induction false} FirstArrow(line: string, k: nat)
    requires ArrowHere(line, k)
    requires forall i :: 0 <= i < k ==> line[i] != '-'
    ensures ArrowAt(line) == k
  {
    if k > 0 {
      FirstArrow(line[1..], k - 1);
    }
  }

  lemma {:induction false} TokenOfStamp(s: string)
    requires forall i :: 0 <= i < |s| ==> IsStampChar(s[i])
    ensures FirstToken(s) == s
  {
    if s != "" {
      TokenOfStamp(s[1..]);
    }
  }

  lemma ReadBlock(id: string, timings: string, text: string, tail: seq<string>, start: nat, end: nat, cues: seq<Cue>)
    requires id != "" && !HasArrow(id) && HasArrow(timings) && ParseTimings(timings) == Some((start, end))
    requires text != "" && !HasArrow(text) && ReadCues(tail) == Some(cues)
    ensures ReadCues([id, timings, text, ""] + tail) == Some([Cue(id, start, end, Unescape(text))] + cues)
  {
    var lines := [id, timings, text, ""] + tail;
    assert lines[2..] == [text, ""] + tail;
    ReadPayload(text, tail);
  }

  /** One printed cue followed by anything readable. */
  lemma {:induction false} ReadOneCue(c: Cue, tail: seq<string>, cues: seq<Cue>)
    requires Printable(c) && ReadCues(tail) == Some(cues)
    ensures ReadCues(CueLines(c) + tail) == Some([c] + cues)
  {
    EscapeChars(c.text);
    TimingsLine(c.start, c.end);
    UnescapeEscape(c.text);
    ReadBlock(c.id, Stamp(c.start) + " --> " + Stamp(c.end), Escape(c.text), tail, c.start, c.end, cues);
  }

  lemma {:induction false} ReadPayload(text: string, tail: seq<string>)
    requires text != "" && !HasArrow(text)
    ensures var rest := [text, ""] + tail;
            && PayloadLength(rest) == 1 && JoinPayload(rest[..1]) == text
            && ReadCues(rest[1..]) == ReadCues(tail)
  {
  }

  lemma {:induction false} ReadPrintedCues(cues: seq<Cue>)
    requires forall i :: 0 <= i < |cues| ==> Printable(cues[i])
    ensures ReadCues(AllCueLines(cues) + [""]) == Some(cues)
  {
    if cues == [] {
    } else {
      ReadPrintedCues(cues[1..]);
      ReadOneCue(cues[0], AllCueLines(cues[1..]) + [""], cues[1..]);
      assert AllCueLines(cues) + [""] == CueLines(cues[0]) + (AllCueLines(cues[1..]) + [""]);
      assert cues == [cues[0]] + cues[1..];
    }
  }

  lemma {:induction false} SplitPlain(lines: seq<string>)
    requires forall i :: 0 <= i < |lines| ==> PlainLine(lines[i])
    ensures SplitLines(Preprocess(PrintLines(lines))) == lines + [""]
  {
    PrintedChars(lines);
    PreprocessKeeps(PrintLines(lines));
    forall i | 0 <= i < |lines| ensures NoLineFeed(lines[i]) {}
    SplitPrinted(lines);
  }

  lemma {:induction false} HeaderThenCues(s: string, body: seq<string>, cues: seq<Cue>)
    requires SplitLines(Preprocess(s)) == ["WEBVTT", ""] + body && ReadCues(body) == Some(cues)
    ensures ReadVtt(s) == Some(cues)
  {
  }

  /** Reading back what the printer prints gives exactly the cues printed. */
  lemma RoundTrip(cues: seq<Cue>)
    requires forall i :: 0 <= i < |cues| ==> Printable(cues[i])
    ensures ReadVtt(Render(cues)) == Some(cues)
  {
    var lines := ["WEBVTT", ""] + AllCueLines(cues);
    AllCueLinesArePlain(cues);
    assert PlainLine("WEBVTT") && PlainLine("");
    SplitPlain(lines);
    assert lines + [""] == ["WEBVTT", ""] + (AllCueLines(cues) + [""]);
    ReadPrintedCues(cues);
    HeaderThenCues(Render(cues), AllCueLines(cues) + [""], cues);
  }
}
