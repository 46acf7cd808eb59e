// String building blocks of the caption printer and its reader: decimal
// numerals, whitespace normalisation, HTML escaping, and lines.
module Text {

  // --------------------------------------------------------------- numerals

  const DIGITS: string := "0123456789"

  function Digit(n: nat): char
    requires n < 10
  {
    DIGITS[n]
  }

  predicate IsDigit(c: char) {
    '0' <= c <= '9'
  }

  function DigitValue(c: char): nat
    requires IsDigit(c)
  {
    (c as int) - ('0' as int)
  }

  predicate AllDigits(s: string) {
    forall i :: 0 <= i < |s| ==> IsDigit(s[i])
  }

  function Decimal(n: nat): string {
    if n < 10 then [Digit(n)] else Decimal(n / 10) + [Digit(n % 10)]
  }

  function Value(s: string): nat
    requires AllDigits(s)
  {
    if s == "" then 0 else Value(s[..|s| - 1]) * 10 + DigitValue(s[|s| - 1])
  }

  /** At least `width` characters, filled with zeros on the left. */
  function ZeroPad(s: string, width: nat): string
    decreases width - |s|
  {
    if |s| >= width then s else ZeroPad("0" + s, width)
  }

  lemma {:induction false} DecimalInverse(n: nat)
    ensures AllDigits(Decimal(n)) && Decimal(n) != "" && Value(Decimal(n)) == n
  {
    if n >= 10 {
      DecimalInverse(n / 10);
    }
  }

  lemma {:induction false} ValueOfLeadingZero(s: string)
    requires AllDigits(s)
    ensures AllDigits("0" + s) && Value("0" + s) == Value(s)
  {
    var t := "0" + s;
    if s == "" {
    } else {
      ValueOfLeadingZero(s[..|s| - 1]);
      assert t[..|t| - 1] == "0" + s[..|s| - 1];
      forall i | 0 <= i < |t| ensures IsDigit(t[i]) {
        if i > 0 { assert t[i] == s[i - 1]; }
      }
    }
  }

  lemma {:induction false} ZeroPadInverse(s: string, width: nat)
    requires AllDigits(s)
    ensures AllDigits(ZeroPad(s, width)) && Value(ZeroPad(s, width)) == Value(s)
    ensures |ZeroPad(s, width)| == if |s| >= width then |s| else width
    decreases width - |s|
  {
    if |s| < width {
      ValueOfLeadingZero(s);
      ZeroPadInverse("0" + s, width);
    }
  }

  lemma {:induction false} TwoDigits(n: nat)
    requires n < 100
    ensures var s := ZeroPad(Decimal(n), 2); |s| == 2 && AllDigits(s) && Value(s) == n
  {
    DecimalInverse(n);
  }

  lemma {:induction false} ThreeDigits(n: nat)
    requires n < 1000
    ensures var s := ZeroPad(Decimal(n), 3); |s| == 3 && AllDigits(s) && Value(s) == n
  {
    DecimalInverse(n);
    ZeroPadInverse(Decimal(n), 3);
    if n >= 10 {
      assert |Decimal(n)| == |Decimal(n / 10)| + 1;
    }
  }

  // ------------------------------------------------------------- whitespace

  /** The characters Python's str.split() separates words by. */
  predicate IsSpace(c: char) {
    || '\U{0009}' <= c <= '\U{000D}'
    || '\U{001C}' <= c <= '\U{0020}'
    || c == '\U{0085}' || c == '\U{00A0}' || c == '\U{1680}'
    || '\U{2000}' <= c <= '\U{200A}'
    || c == '\U{2028}' || c == '\U{2029}' || c == '\U{202F}' || c == '\U{205F}' || c == '\U{3000}'
  }

  /** The 29 characters, code point by code point. */
  lemma SpacesAre(c: char)
    ensures IsSpace(c) <==>
              c as int in {9, 10, 11, 12, 13, 28, 29, 30, 31, 32, 133, 160, 5760, 8192, 8193, 8194, 8195, 8196, 8197,
                           8198, 8199, 8200, 8201, 8202, 8232, 8233, 8239, 8287, 12288}
  {
  }

  predicate IsWord(w: string) {
    w != "" && forall i :: 0 <= i < |w| ==> !IsSpace(w[i])
  }

  function WordLength(s: string): (n: nat)
    ensures n <= |s|
    ensures forall i :: 0 <= i < n ==> !IsSpace(s[i])
    ensures n < |s| ==> IsSpace(s[n])
  {
    if s == "" || IsSpace(s[0]) then 0 else 1 + WordLength(s[1..])
  }

  /** str.split(): maximal runs of non-space characters. */
  function Words(s: string): (r: seq<string>)
    ensures forall i :: 0 <= i < |r| ==> IsWord(r[i])
    decreases |s|
  {
    if s == "" then []
    else if IsSpace(s[0]) then Words(s[1..])
    else
      var n := WordLength(s);
      [s[..n]] + Words(s[n..])
  }

  /** " ".join(words) */
  function JoinWords(ws: seq<string>): string {
    if ws == [] then ""
    else if |ws| == 1 then ws[0]
    else ws[0] + " " + JoinWords(ws[1..])
  }

  function Normalise(s: string): string {
    JoinWords(Words(s))
  }

  lemma {:induction false} WordLengthIs(s: string, n: nat)
    requires n <= |s| && (forall i :: 0 <= i < n ==> !IsSpace(s[i])) && (n < |s| ==> IsSpace(s[n]))
    ensures WordLength(s) == n
  {
  }

  lemma {:induction false} WordsOfJoin(ws: seq<string>)
    requires forall i :: 0 <= i < |ws| ==> IsWord(ws[i])
    ensures Words(JoinWords(ws)) == ws
  {
    if ws == [] {
    } else if |ws| == 1 {
      assert ws[0][..|ws[0]|] == ws[0] && ws[0][|ws[0]|..] == "";
    } else {
      var s := JoinWords(ws);
      var w := ws[0];
      var rest := JoinWords(ws[1..]);
      WordLengthIs(s, |w|);
      assert s[..|w|] == w && s[|w|..] == " " + rest;
      WordsOfJoin(ws[1..]);
    }
  }

  /** Normalising twice is normalising once, and keeps the words. */
  lemma {:induction false} NormaliseIdempotent(s: string)
    ensures Words(Normalise(s)) == Words(s)
    ensures Normalise(Normalise(s)) == Normalise(s)
  {
    WordsOfJoin(Words(s));
  }

  /** The only whitespace left after normalising is a plain space. */
  lemma {:induction false} JoinedSpacing(ws: seq<string>)
    requires forall i :: 0 <= i < |ws| ==> IsWord(ws[i])
    ensures forall i :: 0 <= i < |JoinWords(ws)| ==> IsSpace(JoinWords(ws)[i]) ==> JoinWords(ws)[i] == ' '
    ensures JoinWords(ws) == "" <==> ws == []
  {
    if |ws| > 1 {
      JoinedSpacing(ws[1..]);
    }
  }

  lemma {:induction false} NormaliseIsBlank(s: string)
    ensures Normalise(s) == "" <==> forall i :: 0 <= i < |s| ==> IsSpace(s[i])
    decreases |s|
  {
    if s != "" && IsSpace(s[0]) {
      NormaliseIsBlank(s[1..]);
    }
  }

  /** str.strip() */
  function Strip(s: string): string
    decreases |s|
  {
    if s != "" && IsSpace(s[0]) then Strip(s[1..])
    else if s != "" && IsSpace(s[|s| - 1]) then Strip(s[..|s| - 1])
    else s
  }

  predicate Stripped(s: string) {
    s != "" ==> !IsSpace(s[0]) && !IsSpace(s[|s| - 1])
  }

  lemma {:induction false} StripStrips(s: string)
    ensures Stripped(Strip(s)) && |Strip(s)| <= |s|
    ensures Strip(s) == s <==> Stripped(s)
    decreases |s|
  {
    if s != "" && IsSpace(s[0]) {
      StripStrips(s[1..]);
    } else if s != "" && IsSpace(s[|s| - 1]) {
      StripStrips(s[..|s| - 1]);
    }
  }

  // --------------------------------------------------------------- escaping

  function EscapeChar(c: char): string {
    if c == '&' then "&amp;"
    else if c == '<' then "&lt;"
    else if c == '>' then "&gt;"
    else [c]
  }

  /** html.escape(text, quote=False) */
  function Escape(s: string): string {
    if s == "" then "" else EscapeChar(s[0]) + Escape(s[1..])
  }

  predicate StartsWith(s: string, prefix: string) {
    |prefix| <= |s| && s[..|prefix|] == prefix
  }

  /** Character references of WebVTT cue text. */
  function Unescape(s: string): string
    decreases |s|
  {
    if s == "" then ""
    else if s[0] != '&' then [s[0]] + Unescape(s[1..])
    else if StartsWith(s, "&amp;") then "&" + Unescape(s[5..])
    else if StartsWith(s, "&lt;") then "<" + Unescape(s[4..])
    else if StartsWith(s, "&gt;") then ">" + Unescape(s[4..])
    else if StartsWith(s, "&nbsp;") then "\U{00A0}" + Unescape(s[6..])
    else if StartsWith(s, "&lrm;") then "\U{200E}" + Unescape(s[5..])
    else if StartsWith(s, "&rlm;") then "\U{200F}" + Unescape(s[5..])
    else [s[0]] + Unescape(s[1..])
  }

  lemma {:induction false} UnescapeEscape(s: string)
    ensures Unescape(Escape(s)) == s
  {
    if s != "" {
      var head, tail := EscapeChar(s[0]), Escape(s[1..]);
      UnescapeEscape(s[1..]);
      if s[0] != '&' && s[0] != '<' && s[0] != '>' {
      } else if s[0] == '&' {
      } else if s[0] == '<' {
      } else {
        assert "&amp;"[1] == 'a' && "&lt;"[1] == 'l';
      }
    }
  }

  /** Escaping adds no character but the reference letters, and no angle bracket. */
  lemma {:induction false} EscapeChars(s: string)
    ensures forall i :: 0 <= i < |Escape(s)| ==>
              && Escape(s)[i] != '>' && Escape(s)[i] != '<'
              && (IsSpace(Escape(s)[i]) || Escape(s)[i] == '\0' ==> Escape(s)[i] in s)
    ensures Escape(s) == "" <==> s == ""
  {
    if s != "" {
      EscapeChars(s[1..]);
      var head, tail := EscapeChar(s[0]), Escape(s[1..]);
      forall i | 0 <= i < |Escape(s)|
        ensures && Escape(s)[i] != '>' && Escape(s)[i] != '<'
                && (IsSpace(Escape(s)[i]) || Escape(s)[i] == '\0' ==> Escape(s)[i] in s)
      {
        if i >= |head| {
          assert Escape(s)[i] == tail[i - |head|];
          if Escape(s)[i] in s[1..] {
            assert Escape(s)[i] in s;
          }
        } else {
          assert Escape(s)[i] == head[i];
        }
      }
    }
  }

  // ------------------------------------------------------------------- order

  /** Dictionary order of strings. */
  predicate Precedes(a: string, b: string) {
    if a == "" then b != ""
    else b != "" && (a[0] < b[0] || (a[0] == b[0] && Precedes(a[1..], b[1..])))
  }

  lemma {:induction false} PrecedesItself(a: string)
    ensures !Precedes(a, a)
  {
    if a != "" {
      PrecedesItself(a[1..]);
    }
  }

  lemma {:induction false} PrecedesTotal(a: string, b: string)
    ensures a == b || Precedes(a, b) || Precedes(b, a)
  {
    if a != "" && b != "" && a[0] == b[0] {
      PrecedesTotal(a[1..], b[1..]);
      assert a == [a[0]] + a[1..] && b == [b[0]] + b[1..];
    }
  }

  lemma {:induction false} PrecedesTransitive(a: string, b: string, c: string)
    requires Precedes(a, b) && Precedes(b, c)
    ensures Precedes(a, c)
  {
    if a != "" && a[0] == b[0] && b[0] == c[0] {
      PrecedesTransitive(a[1..], b[1..], c[1..]);
    }
  }
}
