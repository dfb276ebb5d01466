/**
 * The string operations of the .NET library that both interpreters rely on, with case
 * restricted to ASCII: `String.Split` with and without `RemoveEmptyEntries`, `ToLower`, `Trim`
 * over the white space of `Char.IsWhiteSpace`, and the decimal `Int32.Parse` / `int.TryParse`
 * (optional white space around an optional sign and at least one digit).
 */
module Text {
  import opened Wrappers
  import Int32

  // ---------------------------------------------------------------------------------------
  // Splitting
  // ---------------------------------------------------------------------------------------

  /** How many characters of `s` are separators. */
  function Count(s: string, seps: set<char>): nat {
    if s == [] then 0 else (if s[0] in seps then 1 else 0) + Count(s[1..], seps)
  }

  /**
   * `s.Split(seps)`: the pieces of `s` between separators, in order, with empty pieces kept.
   * There is always one piece more than there are separators, and no piece holds one.
   */
  function Split(s: string, seps: set<char>): (r: seq<string>)
    ensures |r| == Count(s, seps) + 1
    ensures forall i, j :: 0 <= i < |r| && 0 <= j < |r[i]| ==> r[i][j] !in seps
  {
    if s == [] then [[]]
    else
      var rest := Split(s[1..], seps);
      if s[0] in seps then [[]] + rest
      else [[s[0]] + rest[0]] + rest[1..]
  }

  /** `String.Join(c, pieces)`. */
  function Join(pieces: seq<string>, c: char): string
    requires |pieces| >= 1
  {
    if |pieces| == 1 then pieces[0] else pieces[0] + [c] + Join(pieces[1..], c)
  }

  /** Splitting on one separator loses nothing: joining the pieces gives the text back. */
  lemma {:induction false} JoinSplit(s: string, c: char)
    ensures Join(Split(s, {c}), c) == s
  {
    if s != [] {
      var rest := Split(s[1..], {c});
      JoinSplit(s[1..], c);
      if s[0] == c {
        assert Split(s, {c}) == [[]] + rest;
      } else {
        var r := Split(s, {c});
        assert r == [[s[0]] + rest[0]] + rest[1..];
        if |rest| == 1 {
          assert Join(r, c) == [s[0]] + rest[0];
        } else {
          assert Join(rest, c) == rest[0] + [c] + Join(rest[1..], c);
          assert r[1..] == rest[1..];
          assert Join(r, c) == ([s[0]] + rest[0]) + [c] + Join(rest[1..], c);
        }
      }
    }
  }

  /** `String.Join(sep, pieces)`: the pieces with `sep` between each two; nothing for no pieces. */
  function JoinWith(pieces: seq<string>, sep: string): string {
    if pieces == [] then []
    else if |pieces| == 1 then pieces[0]
    else pieces[0] + sep + JoinWith(pieces[1..], sep)
  }

  /**
   * Joining lines with CR LF and splitting again at each CR and each LF gives back the
   * same non-empty lines, in order: the rejoining only adds empty pieces.
   */
  lemma {:induction false} SplitJoinCrLf(pieces: seq<string>)
    requires forall i :: 0 <= i < |pieces| ==> NoSeparator(pieces[i], LineBreaks)
    ensures RemoveEmpty(Split(JoinWith(pieces, "\r\n"), LineBreaks)) == RemoveEmpty(pieces)
  {
    if pieces == [] {
      assert RemoveEmpty([[]]) == [] + RemoveEmpty([]);
    } else if |pieces| == 1 {
      SplitWhole(pieces[0], LineBreaks);
      assert pieces == [pieces[0]];
    } else {
      var a, rest := pieces[0], JoinWith(pieces[1..], "\r\n");
      SplitJoinCrLf(pieces[1..]);
      SplitCrLf(a, rest);
      RemoveEmptyAppend([a], pieces[1..]);
      assert pieces == [a] + pieces[1..];
    }
  }

  /** A CR LF after a piece without line breaks splits off that piece and one empty piece. */
  lemma SplitCrLf(a: string, rest: string)
    requires NoSeparator(a, LineBreaks)
    ensures RemoveEmpty(Split(a + "\r\n" + rest, LineBreaks)) == RemoveEmpty([a]) + RemoveEmpty(Split(rest, LineBreaks))
  {
    var later := Split(rest, LineBreaks);
    var pieces := [[]] + later;
    SplitAtCrLf(a, rest);
    RemoveEmptyAppend([a], pieces);
    assert pieces[0] == [] && pieces[1..] == later;
    assert RemoveEmpty(pieces) == RemoveEmpty(later);
  }

  lemma SplitAtCrLf(a: string, rest: string)
    requires NoSeparator(a, LineBreaks)
    ensures Split(a + "\r\n" + rest, LineBreaks) == [a] + ([[]] + Split(rest, LineBreaks))
  {
    var tail := ['\n'] + rest;
    assert tail[1..] == rest;
    assert Split(tail, LineBreaks) == [[]] + Split(rest, LineBreaks);
    assert a + "\r\n" + rest == a + ['\r'] + tail;
    SplitAround(a, '\r', tail, LineBreaks);
    SplitWhole(a, LineBreaks);
  }

  /** A separator cuts the text in two: the pieces of the whole are those of the two parts. */
  lemma {:induction false} SplitAround(a: string, c: char, b: string, seps: set<char>)
    requires c in seps
    ensures Split(a + [c] + b, seps) == Split(a, seps) + Split(b, seps)
  {
    if a == [] {
      assert a + [c] + b == [c] + b;
      assert ([c] + b)[1..] == b;
    } else {
      assert (a + [c] + b)[0] == a[0];
      assert (a + [c] + b)[1..] == a[1..] + [c] + b;
      SplitAround(a[1..], c, b, seps);
    }
  }

  /** `RemoveEmptyEntries`: the non-empty pieces, in order. */
  function RemoveEmpty(xs: seq<string>): (r: seq<string>)
    ensures forall i :: 0 <= i < |r| ==> r[i] != []
    ensures forall w :: w in r <==> w in xs && w != []
  {
    if xs == [] then []
    else (if xs[0] == [] then [] else [xs[0]]) + RemoveEmpty(xs[1..])
  }

  lemma {:induction false} RemoveEmptyAppend(xs: seq<string>, ys: seq<string>)
    ensures RemoveEmpty(xs + ys) == RemoveEmpty(xs) + RemoveEmpty(ys)
  {
    if xs == [] {
      assert xs + ys == ys;
    } else {
      assert (xs + ys)[0] == xs[0];
      assert (xs + ys)[1..] == xs[1..] + ys;
      RemoveEmptyAppend(xs[1..], ys);
    }
  }

  /** `s.Split(seps, RemoveEmptyEntries)`: the non-empty pieces, none holding a separator. */
  function SplitNonEmpty(s: string, seps: set<char>): (r: seq<string>)
    ensures forall i :: 0 <= i < |r| ==> r[i] != []
    ensures forall w :: w in r ==> NoSeparator(w, seps)
  {
    var pieces := Split(s, seps);
    assert forall i :: 0 <= i < |pieces| ==> NoSeparator(pieces[i], seps);
    RemoveEmpty(pieces)
  }

  predicate NoSeparator(w: string, seps: set<char>) {
    forall j :: 0 <= j < |w| ==> w[j] !in seps
  }

  /** A text made only of separators has no non-empty piece at all. */
  lemma {:induction false} OnlySeparators(s: string, seps: set<char>)
    requires forall i :: 0 <= i < |s| ==> s[i] in seps
    ensures SplitNonEmpty(s, seps) == []
  {
    if s != [] {
      var xs := Split(s, seps);
      assert xs == [[]] + Split(s[1..], seps);
      assert xs[0] == [] && xs[1..] == Split(s[1..], seps);
      assert RemoveEmpty(xs) == RemoveEmpty(xs[1..]);
      OnlySeparators(s[1..], seps);
    } else {
      assert Split(s, seps) == [[]];
      assert RemoveEmpty([[]]) == [] + RemoveEmpty([]);
    }
  }

  /**
   * Any non-empty run of separators between two parts acts as one separator, whatever
   * separators it is made of and however long it is.
   */
  lemma {:induction false} SeparatorRun(a: string, run: string, b: string, seps: set<char>)
    requires |run| >= 1
    requires forall i :: 0 <= i < |run| ==> run[i] in seps
    ensures SplitNonEmpty(a + run + b, seps) == SplitNonEmpty(a, seps) + SplitNonEmpty(b, seps)
    decreases |run|
  {
    var tail := run[1..] + b;
    assert a + run + b == a + [run[0]] + tail;
    SeparatorCut(a, run[0], tail, seps);
    if |run| == 1 {
      assert tail == b;
    } else {
      assert tail == [] + run[1..] + b;
      SeparatorRun([], run[1..], b, seps);
      OnlySeparators([], seps);
      assert SplitNonEmpty(tail, seps) == SplitNonEmpty(b, seps);
    }
  }

  /** One separator: the non-empty pieces of the whole are those of the two parts. */
  lemma SeparatorCut(a: string, c: char, b: string, seps: set<char>)
    requires c in seps
    ensures SplitNonEmpty(a + [c] + b, seps) == SplitNonEmpty(a, seps) + SplitNonEmpty(b, seps)
  {
    SplitAround(a, c, b, seps);
    RemoveEmptyAppend(Split(a, seps), Split(b, seps));
  }

  /** A text with no separator in it is a single piece. */
  lemma {:induction false} SplitWhole(s: string, seps: set<char>)
    requires NoSeparator(s, seps)
    ensures Split(s, seps) == [s]
  {
    if s != [] {
      SplitWhole(s[1..], seps);
      assert [s[0]] + s[1..] == s;
    }
  }

  /** Lower-casing every piece of a sequence. */
  function LowerAll(xs: seq<string>): (r: seq<string>)
    ensures |r| == |xs|
    ensures forall i :: 0 <= i < |r| ==> r[i] == ToLower(xs[i])
  {
    if xs == [] then [] else [ToLower(xs[0])] + LowerAll(xs[1..])
  }

  /** Separators that are neither upper- nor lower-case ASCII letters. */
  predicate CaseFree(seps: set<char>) {
    forall c :: c in seps ==> !IsUpper(c) && !('a' <= c <= 'z')
  }

  /** When no separator is a letter, splitting and lower-casing can be done in either order. */
  lemma {:induction false} SplitLower(s: string, seps: set<char>)
    requires CaseFree(seps)
    ensures Split(ToLower(s), seps) == LowerAll(Split(s, seps))
  {
    if s != [] {
      var l := ToLower(s);
      assert l[0] == LowerChar(s[0]);
      assert l[1..] == ToLower(s[1..]);
      assert (l[0] in seps) == (s[0] in seps);
      SplitLower(s[1..], seps);
      var rest := Split(s[1..], seps);
      if s[0] !in seps {
        assert ToLower([s[0]] + rest[0]) == [l[0]] + ToLower(rest[0]);
        assert LowerAll(rest)[1..] == LowerAll(rest[1..]);
      }
    }
  }

  lemma {:induction false} RemoveEmptyLower(xs: seq<string>)
    ensures RemoveEmpty(LowerAll(xs)) == LowerAll(RemoveEmpty(xs))
  {
    if xs != [] {
      assert LowerAll(xs)[0] == ToLower(xs[0]) && LowerAll(xs)[1..] == LowerAll(xs[1..]);
      RemoveEmptyLower(xs[1..]);
      if xs[0] != [] {
        assert LowerAll([xs[0]] + RemoveEmpty(xs[1..])) == [ToLower(xs[0])] + LowerAll(RemoveEmpty(xs[1..]));
      }
    }
  }

  /** Lower-casing a text lower-cases its non-empty pieces and keeps them in place. */
  lemma SplitNonEmptyLower(s: string, seps: set<char>)
    requires CaseFree(seps)
    ensures SplitNonEmpty(ToLower(s), seps) == LowerAll(SplitNonEmpty(s, seps))
  {
    SplitLower(s, seps);
    RemoveEmptyLower(Split(s, seps));
  }

  // ---------------------------------------------------------------------------------------
  // Lines and tokens
  // ---------------------------------------------------------------------------------------

  const LineBreaks: set<char> := {'\r', '\n'}

  // ---------------------------------------------------------------------------------------
  // Case
  // ---------------------------------------------------------------------------------------

  predicate IsUpper(c: char) {
    'A' <= c <= 'Z'
  }

  function LowerChar(c: char): char {
    if IsUpper(c) then (c as int + 32) as char else c
  }

  /** `s.ToLower()` on ASCII letters. */
  function ToLower(s: string): (r: string)
    ensures |r| == |s|
    ensures forall i {:trigger r[i]} :: 0 <= i < |s| ==> if IsUpper(s[i]) then r[i] as int == s[i] as int + 32 else r[i] == s[i]
    ensures forall i :: 0 <= i < |r| ==> !IsUpper(r[i])
  {
    seq(|s|, i requires 0 <= i < |s| => LowerChar(s[i]))
  }

  /** Lower-casing twice is lower-casing once. */
  lemma LowerIdempotent(s: string)
    ensures ToLower(ToLower(s)) == ToLower(s)
  {
  }

  lemma LowerSlice(s: string, i: nat, j: nat)
    requires i <= j <= |s|
    ensures ToLower(s[i..j]) == ToLower(s)[i..j]
  {
  }

  // ---------------------------------------------------------------------------------------
  // White space
  // ---------------------------------------------------------------------------------------

  /** The white space `Int32.Parse` skips around a number: U+0009 to U+000D and U+0020. */
  const NumberWhite: set<char> := {'\t', '\n', '\U{000B}', '\U{000C}', '\r', ' '}

  /**
   * The characters `Char.IsWhiteSpace` accepts, which `String.Trim()` removes: the number white
   * space above, U+0085, U+00A0, U+1680, U+2000 to U+200A, U+2028, U+2029, U+202F, U+205F
   * and U+3000.
   */
  const WhiteSpace: set<char> := NumberWhite + {
    '\U{0085}', '\U{00A0}', '\U{1680}', '\U{2000}', '\U{2001}', '\U{2002}', '\U{2003}',
    '\U{2004}', '\U{2005}', '\U{2006}', '\U{2007}', '\U{2008}', '\U{2009}', '\U{200A}',
    '\U{2028}', '\U{2029}', '\U{202F}', '\U{205F}', '\U{3000}'}

  predicate AllIn(s: string, white: set<char>) {
    forall i :: 0 <= i < |s| ==> s[i] in white
  }

  function TrimStart(s: string, white: set<char>): (r: string)
    ensures r != [] ==> r[0] !in white
    ensures |r| <= |s| && r == s[|s| - |r|..]
    ensures AllIn(s[..|s| - |r|], white)
  {
    if s != [] && s[0] in white then TrimStart(s[1..], white) else s
  }

  function TrimEnd(s: string, white: set<char>): (r: string)
    ensures r != [] ==> r[|r| - 1] !in white
    ensures |r| <= |s| && r == s[..|r|]
    ensures AllIn(s[|r|..], white)
  {
    if s != [] && s[|s| - 1] in white then TrimEnd(s[..|s| - 1], white) else s
  }

  /**
   * `s.Trim()` when `white` is `WhiteSpace`: the part of `s` left after removing every leading
   * and every trailing character of `white`.
   */
  function Trim(s: string, white: set<char>): (r: string)
    ensures r != [] ==> r[0] !in white && r[|r| - 1] !in white
    ensures exists before, after :: s == before + r + after && AllIn(before, white) && AllIn(after, white)
  {
    var t := TrimStart(s, white);
    var r := TrimEnd(t, white);
    var before, after := s[..|s| - |t|], t[|r|..];
    TrimParts(s, before, t, r, after);
    r
  }

  /** A string cut into a prefix, a middle and a suffix is their concatenation. */
  lemma TrimParts(s: string, before: string, t: string, r: string, after: string)
    requires |before| <= |s| && before == s[..|before|] && t == s[|before|..]
    requires |r| <= |t| && r == t[..|r|] && after == t[|r|..]
    ensures s == before + r + after
  {
    assert t == r + after;
    assert s == before + t;
  }

  lemma {:induction false} TrimStartLower(s: string, white: set<char>)
    requires CaseFree(white)
    ensures TrimStart(ToLower(s), white) == ToLower(TrimStart(s, white))
  {
    var l := ToLower(s);
    if s != [] && s[0] in white {
      assert l[0] == s[0];
      assert l[1..] == ToLower(s[1..]);
      TrimStartLower(s[1..], white);
    } else if s != [] {
      assert l[0] == LowerChar(s[0]);
      assert l[0] !in white;
    }
  }

  lemma {:induction false} TrimEndLower(s: string, white: set<char>)
    requires CaseFree(white)
    ensures TrimEnd(ToLower(s), white) == ToLower(TrimEnd(s, white))
  {
    var l := ToLower(s);
    if s != [] && s[|s| - 1] in white {
      assert l[|s| - 1] == s[|s| - 1];
      assert l[..|s| - 1] == ToLower(s[..|s| - 1]);
      TrimEndLower(s[..|s| - 1], white);
    } else if s != [] {
      assert l[|s| - 1] == LowerChar(s[|s| - 1]);
      assert l[|l| - 1] !in white;
    }
  }

  // ---------------------------------------------------------------------------------------
  // Integers
  // ---------------------------------------------------------------------------------------

  predicate IsDigit(c: char) {
    '0' <= c <= '9'
  }

  predicate AllDigits(s: string) {
    forall i :: 0 <= i < |s| ==> IsDigit(s[i])
  }

  function DigitValue(c: char): nat
    requires IsDigit(c)
  {
    c as int - '0' as int
  }

  /** The number an all-digit string denotes in decimal. */
  function DigitsValue(s: string): nat
    requires AllDigits(s)
  {
    if s == [] then 0 else DigitsValue(s[..|s| - 1]) * 10 + DigitValue(s[|s| - 1])
  }

  /** What `Int32.Parse` does with a string: a value, a `FormatException` or an `OverflowException`. */
  datatype Parsed = Value(n: int) | BadFormat | TooLarge

  /**
   * `Int32.Parse(s)` with the default integer style: white space may surround the number, a
   * single `+` or `-` may precede at least one decimal digit, and the value must fit an `int`.
   */
  function ParseInteger(s: string): (p: Parsed)
    ensures p.Value? ==> Int32.InRange(p.n)
  {
    ParseTrimmed(Trim(s, NumberWhite))
  }

  /** The number part of `ParseInteger`, after the white space is trimmed. */
  function ParseTrimmed(t: string): (p: Parsed)
    ensures p.Value? ==> Int32.InRange(p.n)
  {
    if t == [] then BadFormat
    else
      var digits := if t[0] == '-' || t[0] == '+' then t[1..] else t;
      if digits == [] || !AllDigits(digits) then BadFormat
      else
        var v: int := if t[0] == '-' then 0 - DigitsValue(digits) else DigitsValue(digits);
        if Int32.InRange(v) then Value(v) else TooLarge
  }

  /** `int.TryParse(s, out n)`: the value when `Int32.Parse` would succeed, nothing otherwise. */
  function TryParse(s: string): (r: Option<int>)
    ensures r.Some? <==> ParseInteger(s).Value?
    ensures r.Some? ==> Int32.InRange(r.value) && ParseInteger(s) == Value(r.value)
  {
    match ParseInteger(s)
    case Value(n) => Some(n)
    case _ => None
  }

  lemma TrimLower(s: string, white: set<char>)
    requires CaseFree(white)
    ensures Trim(ToLower(s), white) == ToLower(Trim(s, white))
  {
    TrimStartLower(s, white);
    TrimEndLower(TrimStart(s, white), white);
  }

  /** Lower-casing keeps digits and signs and turns no other character into one. */
  lemma LowerKeepsNumberChars(t: string)
    ensures AllDigits(ToLower(t)) <==> AllDigits(t)
    ensures AllDigits(t) ==> ToLower(t) == t
    ensures t != [] ==> (ToLower(t)[0] == '-' <==> t[0] == '-') && (ToLower(t)[0] == '+' <==> t[0] == '+')
  {
    var l := ToLower(t);
    if !AllDigits(t) {
      var k :| 0 <= k < |t| && !IsDigit(t[k]);
      assert l[k] == LowerChar(t[k]);
      assert !IsDigit(l[k]);
    }
  }

  lemma ParseTrimmedIgnoresCase(t: string)
    ensures ParseTrimmed(ToLower(t)) == ParseTrimmed(t)
  {
    if t != [] {
      var lt := ToLower(t);
      LowerKeepsNumberChars(t);
      var signed := t[0] == '-' || t[0] == '+';
      var digits := if signed then t[1..] else t;
      LowerSlice(t, if signed then 1 else 0, |t|);
      assert (if signed then lt[1..] else lt) == ToLower(digits);
      LowerKeepsNumberChars(digits);
    }
  }

  /** Lower-casing a token never changes how it parses as an integer. */
  lemma ParseIgnoresCase(s: string)
    ensures ParseInteger(ToLower(s)) == ParseInteger(s)
    ensures TryParse(ToLower(s)) == TryParse(s)
  {
    TrimLower(s, NumberWhite);
    ParseTrimmedIgnoresCase(Trim(s, NumberWhite));
  }

  /** The decimal digits of `n`, most significant first. */
  function Digits(n: nat): (r: string)
    ensures r != [] && AllDigits(r)
  {
    if n < 10 then [('0' as int + n) as char] else Digits(n / 10) + [('0' as int + n % 10) as char]
  }

  /** `n.ToString()`. */
  function FormatInt(n: int): string {
    if n < 0 then "-" + Digits(-n) else Digits(n)
  }

  lemma {:induction false} DigitsValueOfDigits(n: nat)
    ensures DigitsValue(Digits(n)) == n
  {
    if n >= 10 {
      var d := Digits(n);
      assert d[..|d| - 1] == Digits(n / 10);
      DigitsValueOfDigits(n / 10);
    }
  }

  lemma TrimUnchanged(f: string, white: set<char>)
    requires f != [] && f[0] !in white && f[|f| - 1] !in white
    ensures Trim(f, white) == f
  {
  }

  /** Parsing the decimal rendering of every `int` gives that `int` back. */
  lemma ParseFormat(n: int)
    requires Int32.InRange(n)
    ensures ParseInteger(FormatInt(n)) == Value(n)
    ensures TryParse(FormatInt(n)) == Some(n)
  {
    FormatHasNoWhite(n);
    TrimUnchanged(FormatInt(n), NumberWhite);
    FormatParses(n);
  }

  lemma FormatHasNoWhite(n: int)
    ensures var f := FormatInt(n); f != [] && f[0] !in NumberWhite && f[|f| - 1] !in NumberWhite
  {
    var d := Digits(if n < 0 then -n else n);
    assert IsDigit(d[0]) && IsDigit(d[|d| - 1]);
    if n < 0 {
      assert FormatInt(n) == ['-'] + d;
    }
  }

  lemma FormatParses(n: int)
    requires Int32.InRange(n)
    ensures ParseTrimmed(FormatInt(n)) == Value(n)
  {
    var m: nat := if n < 0 then -n else n;
    var d := Digits(m);
    DigitsValueOfDigits(m);
    assert IsDigit(d[0]);
    if n < 0 {
      var f := ['-'] + d;
      assert FormatInt(n) == f;
      assert f[1..] == d;
    }
  }
}
