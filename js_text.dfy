/** The JavaScript string and number built-ins that the client code relies on:
    `\s` whitespace, `trim`, `length` in UTF-16 code units, `split` on a
    character and on `/\s+/`, the word count idiom
    `s.trim().split(/\s+/).filter(w => w.length > 0).length`, `String(n)` for
    integers and `padStart`. */
module JsText {
  import opened Options

  // ---------------------------------------------------------------------------
  // Whitespace

  /** The ECMAScript WhiteSpace and LineTerminator code points: what the regular
      expression class `\s` matches and what `String.prototype.trim` strips. */
  predicate IsSpace(c: char) {
    || c == '\t' || c == '\n' || c == '\U{B}' || c == '\U{C}' || c == '\r' || c == ' '
    || c == '\U{A0}' || c == '\U{1680}' || ('\U{2000}' <= c <= '\U{200A}')
    || c == '\U{2028}' || c == '\U{2029}' || c == '\U{202F}' || c == '\U{205F}'
    || c == '\U{3000}' || c == '\U{FEFF}'
  }

  ghost predicate AllSpace(s: string) {
    forall i :: 0 <= i < |s| ==> IsSpace(s[i])
  }

  ghost predicate NoSpace(s: string) {
    forall i :: 0 <= i < |s| ==> !IsSpace(s[i])
  }

  /** The number of whitespace characters `s` starts with. */
  function LeadingSpace(s: string): (k: nat)
    ensures k <= |s|
    ensures forall i :: 0 <= i < k ==> IsSpace(s[i])
    ensures k < |s| ==> !IsSpace(s[k])
  {
    if s == [] || !IsSpace(s[0]) then 0 else 1 + LeadingSpace(s[1..])
  }

  /** Where the whitespace `s` ends with begins. */
  function TrailingSpace(s: string): (k: nat)
    ensures k <= |s|
    ensures forall i :: k <= i < |s| ==> IsSpace(s[i])
    ensures k > 0 ==> !IsSpace(s[k - 1])
  {
    if s == [] || !IsSpace(s[|s| - 1]) then |s| else TrailingSpace(s[..|s| - 1])
  }

  /** `String.prototype.trimStart`. */
  function TrimStart(s: string): string {
    s[LeadingSpace(s)..]
  }

  /** `String.prototype.trimEnd`. */
  function TrimEnd(s: string): string {
    s[..TrailingSpace(s)]
  }

  /** `String.prototype.trim`. */
  function Trim(s: string): string {
    TrimEnd(TrimStart(s))
  }

  /** Neither end of a trimmed string is whitespace, and it is empty exactly
      when the input is all whitespace. */
  lemma TrimProperties(s: string)
    ensures var r := Trim(s);
            && |r| <= |s|
            && (r == [] || (!IsSpace(r[0]) && !IsSpace(r[|r| - 1])))
            && (r == [] <==> AllSpace(s))
  {
    var a := LeadingSpace(s);
    var b := TrailingSpace(s[a..]);
    assert Trim(s) == s[a..a + b];
    assert b == 0 ==> a == |s|;
  }

  /** `!s.trim()`: the string is empty or only whitespace. */
  predicate IsBlank(s: string) {
    Trim(s) == []
  }

  lemma BlankIffAllSpace(s: string)
    ensures IsBlank(s) <==> AllSpace(s)
  {
  }

  // ---------------------------------------------------------------------------
  // Length

  /** The number of UTF-16 code units a single code point takes. */
  function CodeUnits(c: char): nat {
    if c as int > 0xFFFF then 2 else 1
  }

  /** `String.prototype.length`: the number of UTF-16 code units, which counts a
      code point outside the Basic Multilingual Plane twice. */
  function JsLength(s: string): (n: nat)
    ensures |s| <= n <= 2 * |s|
    ensures n == 0 <==> s == []
  {
    if s == [] then 0 else CodeUnits(s[0]) + JsLength(s[1..])
  }

  lemma {:induction false} JsLengthAppend(a: string, b: string)
    ensures JsLength(a + b) == JsLength(a) + JsLength(b)
  {
    if a == [] {
      assert a + b == b;
    } else {
      assert (a + b)[1..] == a[1..] + b;
      JsLengthAppend(a[1..], b);
    }
  }

  // ---------------------------------------------------------------------------
  // Splitting on a character, and joining

  /** The first index of `c` in `s`, or `|s|` when `c` does not occur. */
  function IndexOf(s: string, c: char): (k: nat)
    ensures k <= |s|
    ensures forall i :: 0 <= i < k ==> s[i] != c
    ensures k < |s| ==> s[k] == c
  {
    if s == [] || s[0] == c then 0 else 1 + IndexOf(s[1..], c)
  }

  /** `s.split(sep)` for a one-character separator: the pieces between
      separators, an empty piece where two separators meet or at either end. */
  function Split(s: string, sep: char): (parts: seq<string>)
    ensures |parts| >= 1
    ensures forall i :: 0 <= i < |parts| ==> sep !in parts[i]
    decreases |s|
  {
    var k := IndexOf(s, sep);
    if k == |s| then [s] else [s[..k]] + Split(s[k + 1..], sep)
  }

  /** `s.split(sep)` has one piece more than `s` has separators. */
  lemma {:induction false} SplitCount(s: string, sep: char)
    ensures |Split(s, sep)| == multiset(s)[sep] + 1
    decreases |s|
  {
    var k := IndexOf(s, sep);
    if k == |s| {
      assert sep !in multiset(s);
    } else {
      SplitCount(s[k + 1..], sep);
      assert s == s[..k] + [sep] + s[k + 1..];
      assert sep !in multiset(s[..k]);
      assert multiset(s) == multiset(s[..k]) + multiset([sep]) + multiset(s[k + 1..]);
    }
  }

  /** `parts.join(sep)` for a one-character separator. */
  function Join(parts: seq<string>, sep: char): string {
    if |parts| == 0 then []
    else if |parts| == 1 then parts[0]
    else parts[0] + [sep] + Join(parts[1..], sep)
  }

  /** Splitting and joining again gives back the original string: the pieces
      are exactly the text between separators. */
  lemma {:induction false} JoinSplit(s: string, sep: char)
    ensures Join(Split(s, sep), sep) == s
    decreases |s|
  {
    var k := IndexOf(s, sep);
    if k < |s| {
      var rest := Split(s[k + 1..], sep);
      JoinSplit(s[k + 1..], sep);
      assert ([s[..k]] + rest)[0] == s[..k];
      assert ([s[..k]] + rest)[1..] == rest;
      assert Join([s[..k]] + rest, sep) == s[..k] + [sep] + Join(rest, sep);
      assert s == s[..k] + [sep] + s[k + 1..];
    }
  }

  // ---------------------------------------------------------------------------
  // Words

  /** The first index of a whitespace character in `s`, or `|s|`. */
  function FirstSpace(s: string): (k: nat)
    ensures k <= |s|
    ensures forall i :: 0 <= i < k ==> !IsSpace(s[i])
    ensures k < |s| ==> IsSpace(s[k])
  {
    if s == [] || IsSpace(s[0]) then 0 else 1 + FirstSpace(s[1..])
  }

  /** `s.split(/\s+/)`: the pieces between maximal whitespace runs, with an empty
      piece before a leading run and after a trailing one. */
  function SplitOnSpaceRuns(s: string): (parts: seq<string>)
    ensures |parts| >= 1
    ensures forall i :: 0 <= i < |parts| ==> NoSpace(parts[i])
    decreases |s|
  {
    var k := FirstSpace(s);
    if k == |s| then [s]
    else
      assert LeadingSpace(s[k..]) > 0;
      var rest := TrimStart(s[k..]);
      [s[..k]] + SplitOnSpaceRuns(rest)
  }

  /** `parts.filter(w => w.length > 0)`. */
  function NonEmptyPieces(parts: seq<string>): (r: seq<string>)
    ensures |r| <= |parts|
    ensures forall i :: 0 <= i < |r| ==> r[i] != []
  {
    if parts == [] then []
    else (if parts[0] != [] then [parts[0]] else []) + NonEmptyPieces(parts[1..])
  }

  /** The client's word count: `s.trim().split(/\s+/).filter(w => w.length > 0).length`. */
  function WordCount(s: string): nat {
    |NonEmptyPieces(SplitOnSpaceRuns(Trim(s)))|
  }

  /** The number of positions that start a word: a non-whitespace character at
      the start, or right after whitespace (`afterSpace` says what came before). */
  function WordStarts(s: string, afterSpace: bool): nat {
    if s == [] then 0
    else (if afterSpace && !IsSpace(s[0]) then 1 else 0) + WordStarts(s[1..], IsSpace(s[0]))
  }

  /** The number of maximal runs of non-whitespace characters in `s`. */
  function RunCount(s: string): nat {
    WordStarts(s, true)
  }

  lemma {:induction false} WordStartsAppend(a: string, b: string, p: bool)
    ensures WordStarts(a + b, p)
         == WordStarts(a, p) + WordStarts(b, if a == [] then p else IsSpace(a[|a| - 1]))
  {
    if a == [] {
      assert a + b == b;
    } else {
      assert (a + b)[0] == a[0];
      assert (a + b)[1..] == a[1..] + b;
      WordStartsAppend(a[1..], b, IsSpace(a[0]));
    }
  }

  lemma {:induction false} WordStartsNoSpace(t: string, p: bool)
    requires NoSpace(t)
    ensures WordStarts(t, p) == if t == [] then 0 else if p then 1 else 0
  {
    if t != [] {
      WordStartsNoSpace(t[1..], false);
    }
  }

  lemma {:induction false} WordStartsAllSpace(t: string, p: bool)
    requires AllSpace(t)
    ensures WordStarts(t, p) == 0
  {
    if t != [] {
      WordStartsAllSpace(t[1..], true);
    }
  }

  /** A whitespace run in front counts no word and resets to "after space". */
  lemma WordStartsTrimStart(w: string, p: bool)
    requires w != [] && IsSpace(w[0])
    ensures WordStarts(w, p) == WordStarts(TrimStart(w), true)
  {
    var d := LeadingSpace(w);
    assert w == w[..d] + w[d..];
    WordStartsAppend(w[..d], w[d..], p);
    WordStartsAllSpace(w[..d], p);
  }

  lemma NonEmptyPiecesCons(x: string, rest: seq<string>)
    ensures NonEmptyPieces([x] + rest) == (if x != [] then [x] else []) + NonEmptyPieces(rest)
  {
    assert ([x] + rest)[1..] == rest;
  }

  /** The piece before the first whitespace run counts one word when it is not
      empty, and the run itself resets the count to "after space". */
  lemma FirstPieceRuns(t: string, k: nat)
    requires k == FirstSpace(t) && k < |t|
    ensures WordStarts(t, true) == (if k > 0 then 1 else 0) + WordStarts(TrimStart(t[k..]), true)
  {
    assert t == t[..k] + t[k..];
    WordStartsAppend(t[..k], t[k..], true);
    WordStartsNoSpace(t[..k], true);
    WordStartsTrimStart(t[k..], if k == 0 then true else IsSpace(t[k - 1]));
  }

  lemma {:induction false} NonEmptyPiecesCountRuns(t: string)
    ensures |NonEmptyPieces(SplitOnSpaceRuns(t))| == WordStarts(t, true)
    decreases |t|
  {
    var k := FirstSpace(t);
    if k == |t| {
      WordStartsNoSpace(t, true);
    } else {
      var rest := TrimStart(t[k..]);
      NonEmptyPiecesCountRuns(rest);
      NonEmptyPiecesCons(t[..k], SplitOnSpaceRuns(rest));
      FirstPieceRuns(t, k);
    }
  }

  lemma TrimStartKeepsRuns(s: string)
    ensures WordStarts(TrimStart(s), true) == WordStarts(s, true)
  {
    var d := LeadingSpace(s);
    assert s == s[..d] + s[d..];
    WordStartsAppend(s[..d], s[d..], true);
    WordStartsAllSpace(s[..d], true);
  }

  lemma TrimEndKeepsRuns(t: string)
    ensures WordStarts(TrimEnd(t), true) == WordStarts(t, true)
  {
    var e := TrailingSpace(t);
    assert t == t[..e] + t[e..];
    WordStartsAppend(t[..e], t[e..], true);
    WordStartsAllSpace(t[e..], if e == 0 then true else IsSpace(t[e - 1]));
  }

  lemma TrimKeepsRuns(s: string)
    ensures WordStarts(Trim(s), true) == WordStarts(s, true)
  {
    TrimStartKeepsRuns(s);
    TrimEndKeepsRuns(TrimStart(s));
  }

  /** The word count idiom counts exactly the maximal non-whitespace runs. */
  lemma WordCountIsRunCount(s: string)
    ensures WordCount(s) == RunCount(s)
  {
    NonEmptyPiecesCountRuns(Trim(s));
    TrimKeepsRuns(s);
  }

  lemma {:induction false} RunCountZeroIffAllSpace(s: string)
    ensures RunCount(s) == 0 <==> AllSpace(s)
  {
    if s != [] {
      RunCountZeroIffAllSpace(s[1..]);
      if IsSpace(s[0]) {
        assert AllSpace(s) <==> AllSpace(s[1..]) by {
          if AllSpace(s[1..]) {
            forall i | 0 <= i < |s| ensures IsSpace(s[i]) {
              if i > 0 { assert s[i] == s[1..][i - 1]; }
            }
          }
        }
      }
    }
  }

  /** Empty and whitespace-only text counts no words; anything else at least one. */
  lemma WordCountZeroIffBlank(s: string)
    ensures WordCount(s) == 0 <==> IsBlank(s)
  {
    WordCountIsRunCount(s);
    RunCountZeroIffAllSpace(s);
  }

  // ---------------------------------------------------------------------------
  // Numbers as text

  predicate IsDigit(c: char) {
    '0' <= c <= '9'
  }

  predicate AllDigits(s: string) {
    forall i :: 0 <= i < |s| ==> IsDigit(s[i])
  }

  function DigitChar(d: nat): (c: char)
    requires d < 10
    ensures IsDigit(c) && c as int - '0' as int == d
  {
    (('0' as int) + d) as char
  }

  /** The decimal digits of `n`, without leading zeros: `String(n)` for a
      non-negative integer. */
  function NatToString(n: nat): (r: string)
    ensures r != [] && AllDigits(r)
    ensures |r| == 1 <==> n < 10
    ensures |r| > 1 ==> r[0] != '0'
  {
    if n < 10 then [DigitChar(n)] else NatToString(n / 10) + [DigitChar(n % 10)]
  }

  /** The value of a string of decimal digits. */
  function DigitsValue(s: string): nat
    requires AllDigits(s)
  {
    if s == [] then 0 else 10 * DigitsValue(s[..|s| - 1]) + (s[|s| - 1] as int - '0' as int)
  }

  lemma {:induction false} DigitsValueOfNatToString(n: nat)
    ensures DigitsValue(NatToString(n)) == n
  {
    if n >= 10 {
      var r := NatToString(n);
      assert r[..|r| - 1] == NatToString(n / 10);
      DigitsValueOfNatToString(n / 10);
    }
  }

  /** `String(i)` for an integer `i` (below 10^21 in magnitude, where JavaScript
      switches to exponent notation). */
  function IntToString(i: int): (r: string)
    ensures r != []
  {
    if i < 0 then "-" + NatToString(-i) else NatToString(i)
  }

  /** Reads back an optionally signed decimal integer; the inverse of IntToString. */
  function ParseInt(s: string): Option<int> {
    if |s| > 1 && s[0] == '-' && AllDigits(s[1..]) then
      var magnitude: int := DigitsValue(s[1..]);
      Some(-magnitude)
    else if s != [] && AllDigits(s) then
      Some(DigitsValue(s))
    else None
  }

  lemma ParseNegative(n: nat)
    requires n > 0
    ensures ParseInt("-" + NatToString(n)) == Some(-(n as int))
  {
    var r := "-" + NatToString(n);
    assert r[1..] == NatToString(n);
    DigitsValueOfNatToString(n);
  }

  lemma ParseNatural(n: nat)
    ensures ParseInt(NatToString(n)) == Some(n)
  {
    var r := NatToString(n);
    DigitsValueOfNatToString(n);
    assert r[0] != '-' by { assert IsDigit(r[0]); }
  }

  lemma ParseIntToString(i: int)
    ensures ParseInt(IntToString(i)) == Some(i)
  {
    if i < 0 {
      ParseNegative(-i);
    } else {
      ParseNatural(i);
    }
  }

  /** Different integers are written differently. */
  lemma IntToStringInjective(a: int, b: int)
    requires IntToString(a) == IntToString(b)
    ensures a == b
  {
    ParseIntToString(a);
    ParseIntToString(b);
  }

  /** `s.padStart(width, fill)` with a one-character fill. */
  function PadStart(s: string, width: nat, fill: char): (r: string)
    ensures |r| == if |s| >= width then |s| else width
    ensures r[|r| - |s|..] == s
    ensures forall i :: 0 <= i < |r| - |s| ==> r[i] == fill
  {
    if |s| >= width then s else [fill] + PadStart(s, width - 1, fill)
  }

  /** Two decimal digits for `n` below 100, reading back as `n`. */
  function TwoDigits(n: nat): (r: string)
    requires n < 100
    ensures |r| == 2 && AllDigits(r) && DigitsValue(r) == n
  {
    var r := [DigitChar(n / 10), DigitChar(n % 10)];
    assert r[..1] == [DigitChar(n / 10)] && r[..1][..0] == [];
    assert DigitsValue(r[..1]) == n / 10;
    r
  }

  /** TwoDigits is `String(n).padStart(2, '0')`. */
  lemma TwoDigitsIsPadded(n: nat)
    requires n < 100
    ensures TwoDigits(n) == PadStart(NatToString(n), 2, '0')
  {
    var s := NatToString(n);
    if n >= 10 {
      assert NatToString(n / 10) == [DigitChar(n / 10)];
      assert s == [DigitChar(n / 10), DigitChar(n % 10)];
      assert PadStart(s, 2, '0') == s;
    } else {
      assert s == [DigitChar(n)];
      assert PadStart(s, 1, '0') == s;
      assert PadStart(s, 2, '0') == ['0'] + s;
      assert DigitChar(0) == '0';
    }
  }

  /** How a boolean is written when it is appended to a FormData or
      interpolated into a string. */
  function BoolToString(b: bool): string {
    if b then "true" else "false"
  }

  /** `s || fallback` on a string that may be missing: a missing string and
      the empty string are falsy and give the fallback. */
  function OrElse(s: Option<string>, fallback: string): (r: string)
    ensures s.Some? && s.value != [] ==> r == s.value
    ensures s.None? || s.value == [] ==> r == fallback
  {
    if s.Some? && s.value != [] then s.value else fallback
  }
}
