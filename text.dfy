/**
 * The JavaScript string operations the views are built from, with the laws
 * the list pipeline and the formatters rely on: `trim`, `split(/\s+/)`,
 * `split(sep)`, `join`, `includes`, `toLowerCase`, `padStart` and the
 * decimal rendering and parsing of integers.
 */
module Text {
  import opened Common

  // ---------------------------------------------------------------- characters

  /** ECMAScript white space and line terminators: the set `\s` and `trim()` use. */
  predicate IsSpace(c: char) {
    || c == '\t' || c == '\n' || c == '\U{B}' || c == '\U{C}' || c == '\r' || c == ' '
    || c == '\U{A0}' || c == '\U{1680}' || ('\U{2000}' <= c <= '\U{200A}')
    || c == '\U{2028}' || c == '\U{2029}' || c == '\U{202F}' || c == '\U{205F}'
    || c == '\U{3000}' || c == '\U{FEFF}'
  }

  predicate NoSpace(s: string) {
    forall i :: 0 <= i < |s| ==> !IsSpace(s[i])
  }

  function LowerChar(c: char): char {
    if 'A' <= c <= 'Z' then (c as int + 32) as char else c
  }

  function UpperChar(c: char): char {
    if 'a' <= c <= 'z' then (c as int - 32) as char else c
  }

  /** `toLowerCase()` on the ASCII letters. */
  function Lower(s: string): (r: string)
    ensures |r| == |s|
    ensures forall i :: 0 <= i < |s| ==> r[i] == LowerChar(s[i])
  {
    seq(|s|, i requires 0 <= i < |s| => LowerChar(s[i]))
  }

  // ---------------------------------------------------------------- trim

  /** Drops the leading white space. */
  function TrimStart(s: string): (r: string)
    ensures |r| <= |s| && r == s[|s| - |r|..]
    ensures r == [] || !IsSpace(r[0])
  {
    if s != [] && IsSpace(s[0]) then
      var r := TrimStart(s[1..]);
      assert s[1..][|s| - 1 - |r|..] == s[|s| - |r|..];
      r
    else s
  }

  /** What `TrimStart` drops is white space. */
  lemma {:induction false} TrimStartSpaces(s: string)
    ensures forall i :: 0 <= i < |s| - |TrimStart(s)| ==> IsSpace(s[i])
  {
    if s != [] && IsSpace(s[0]) {
      TrimStartSpaces(s[1..]);
      assert forall i :: 1 <= i < |s| - |TrimStart(s)| ==> s[i] == s[1..][i - 1];
    }
  }

  /** Drops the trailing white space. */
  function TrimEnd(s: string): (r: string)
    ensures |r| <= |s| && r == s[..|r|]
    ensures r == [] || !IsSpace(r[|r| - 1])
  {
    if s != [] && IsSpace(s[|s| - 1]) then
      var r := TrimEnd(s[..|s| - 1]);
      assert s[..|s| - 1][..|r|] == s[..|r|];
      r
    else s
  }

  /** What `TrimEnd` drops is white space. */
  lemma {:induction false} TrimEndSpaces(s: string)
    ensures forall i :: |TrimEnd(s)| <= i < |s| ==> IsSpace(s[i])
  {
    if s != [] && IsSpace(s[|s| - 1]) {
      TrimEndSpaces(s[..|s| - 1]);
      assert forall i :: |TrimEnd(s)| <= i < |s| - 1 ==> s[i] == s[..|s| - 1][i];
    }
  }

  /** `s.trim()` */
  function Trim(s: string): string {
    TrimEnd(TrimStart(s))
  }

  /** `t` is `s[i..j]`, and everything of `s` outside that piece is white space. */
  predicate InnerPiece(s: string, t: string, i: int, j: int) {
    && 0 <= i <= j <= |s| && t == s[i..j]
    && (forall k :: 0 <= k < i ==> IsSpace(s[k]))
    && (forall k :: j <= k < |s| ==> IsSpace(s[k]))
  }

  /** The trimmed text is a piece of the original surrounded only by white space, and starts and ends with a non-space. */
  lemma TrimIsInnerPiece(s: string)
    ensures exists i, j :: InnerPiece(s, Trim(s), i, j)
    ensures Trim(s) == [] || (!IsSpace(Trim(s)[0]) && !IsSpace(Trim(s)[|Trim(s)| - 1]))
  {
    var a := TrimStart(s);
    var b := TrimEnd(a);
    TrimStartSpaces(s);
    TrimEndSpaces(a);
    InnerPieceOf(s, a, b);
    PieceWitness(s, Trim(s), b, |s| - |a|, |s| - |a| + |b|);
    TrimEnds(s);
  }

  lemma PieceWitness(s: string, t: string, b: string, i: int, j: int)
    requires InnerPiece(s, b, i, j) && t == b
    ensures exists i, j :: InnerPiece(s, t, i, j)
  {
  }

  /** A prefix `b` of a suffix `a` of `s`, where only white space is cut off at either step, is an inner piece of `s`. */
  lemma InnerPieceOf(s: string, a: string, b: string)
    requires |a| <= |s| && a == s[|s| - |a|..]
    requires forall k :: 0 <= k < |s| - |a| ==> IsSpace(s[k])
    requires |b| <= |a| && b == a[..|b|]
    requires forall k :: |b| <= k < |a| ==> IsSpace(a[k])
    ensures InnerPiece(s, b, |s| - |a|, |s| - |a| + |b|)
  {
    PrefixOfSuffix(s, a, b);
    var i := |s| - |a|;
    forall k | i + |b| <= k < |s|
      ensures IsSpace(s[k])
    {
      assert s[k] == a[k - i];
    }
  }

  /** A prefix of a suffix is a window of the whole. */
  lemma PrefixOfSuffix(s: string, a: string, b: string)
    requires |a| <= |s| && a == s[|s| - |a|..]
    requires |b| <= |a| && b == a[..|b|]
    ensures |s| - |a| + |b| <= |s| && b == s[|s| - |a|..|s| - |a| + |b|]
  {
    var i := |s| - |a|;
    assert forall k :: 0 <= k < |b| ==> b[k] == a[k] == s[i + k];
  }

  /** A window of a window is a window of the whole. */
  lemma WindowOfWindow(s: string, i: nat, m: nat, j: nat, n: nat)
    requires i + m <= |s| && j + n <= m
    ensures s[i..i + m][j..j + n] == s[i + j..i + j + n]
  {
    var w := s[i..i + m];
    assert forall k :: j <= k < j + n ==> w[k] == s[i + k];
  }

  /** A prefix of the text from `i` on is the window starting at `i`. */
  lemma PrefixAt(s: string, i: nat, b: string)
    requires i <= |s| && b <= s[i..]
    ensures i + |b| <= |s| && b == s[i..i + |b|]
  {
    assert forall k :: 0 <= k < |b| ==> b[k] == s[i..][k] == s[i + k];
  }

  lemma TrimEnds(s: string)
    ensures Trim(s) == [] || (!IsSpace(Trim(s)[0]) && !IsSpace(Trim(s)[|Trim(s)| - 1]))
  {
    var a := TrimStart(s);
    var b := TrimEnd(a);
    if b != [] {
      assert b[0] == a[0];
    }
  }

  /** `trim()` is idempotent: a trimmed text has nothing left to trim. */
  lemma TrimIdempotent(s: string)
    ensures Trim(Trim(s)) == Trim(s)
  {
    var t := Trim(s);
    TrimIsInnerPiece(s);
    if t != [] {
      assert TrimStart(t) == t;
      assert TrimEnd(t) == t;
    }
  }

  /** The text trims to "" exactly when it is all white space. */
  lemma TrimEmptyIffAllSpace(s: string)
    ensures Trim(s) == [] <==> forall k :: 0 <= k < |s| ==> IsSpace(s[k])
  {
    TrimIsInnerPiece(s);
    var a := TrimStart(s);
    assert a == [] || a[0] == s[|s| - |a|];
  }

  /** `toLowerCase()` neither creates nor removes white space, so it commutes with `trim()`. */
  lemma LowerTrimCommute(s: string)
    ensures Trim(Lower(s)) == Lower(Trim(s))
  {
    LowerTrimStart(s);
    LowerTrimEnd(TrimStart(s));
  }

  lemma LowerKeepsSpace(c: char)
    ensures IsSpace(LowerChar(c)) == IsSpace(c)
  {
  }

  lemma {:induction false} LowerTrimStart(s: string)
    ensures TrimStart(Lower(s)) == Lower(TrimStart(s))
  {
    if s != [] {
      var l := Lower(s);
      assert l[1..] == Lower(s[1..]);
      LowerKeepsSpace(s[0]);
      assert IsSpace(l[0]) == IsSpace(s[0]);
      if IsSpace(s[0]) {
        LowerTrimStart(s[1..]);
      }
    }
  }

  lemma {:induction false} LowerTrimEnd(s: string)
    ensures TrimEnd(Lower(s)) == Lower(TrimEnd(s))
  {
    if s != [] {
      var l := Lower(s);
      assert l[..|s| - 1] == Lower(s[..|s| - 1]);
      LowerKeepsSpace(s[|s| - 1]);
      assert IsSpace(l[|s| - 1]) == IsSpace(s[|s| - 1]);
      if IsSpace(s[|s| - 1]) {
        LowerTrimEnd(s[..|s| - 1]);
      }
    }
  }

  // ---------------------------------------------------------------- includes

  /** `hay.includes(needle)` */
  predicate Contains(hay: string, needle: string) {
    exists i :: 0 <= i <= |hay| - |needle| && needle <= hay[i..]
  }

  lemma ContainsAt(hay: string, needle: string, i: int)
    requires 0 <= i <= |hay| - |needle| && hay[i..i + |needle|] == needle
    ensures Contains(hay, needle)
  {
    assert needle <= hay[i..];
  }

  /** `includes` is transitive: a piece of a piece is a piece. */
  lemma ContainsTransitive(a: string, b: string, c: string)
    requires Contains(a, b) && Contains(b, c)
    ensures Contains(a, c)
  {
    var i :| 0 <= i <= |a| - |b| && b <= a[i..];
    var j :| 0 <= j <= |b| - |c| && c <= b[j..];
    PieceOfPiece(a, b, c, i, j);
  }

  /** `c` at `j` in `b`, and `b` at `i` in `a`, put `c` at `i + j` in `a`. */
  lemma PieceOfPiece(a: string, b: string, c: string, i: nat, j: nat)
    requires i <= |a| - |b| && b <= a[i..]
    requires j <= |b| - |c| && c <= b[j..]
    ensures i + j <= |a| - |c| && c <= a[i + j..]
  {
    PrefixAt(a, i, b);
    PrefixAt(b, j, c);
    WindowOfWindow(a, i, |b|, j, |c|);
    assert a[i + j..][..|c|] == a[i + j..i + j + |c|];
  }

  /** Every text contains every text it starts or ends with, and its own pieces. */
  lemma ContainsSlice(s: string, i: int, j: int)
    requires 0 <= i <= j <= |s|
    ensures Contains(s, s[i..j])
  {
    ContainsAt(s, s[i..j], i);
  }

  // ---------------------------------------------------------------- split and join

  /** `parts.join(sep)` */
  function Join(parts: seq<string>, sep: string): string {
    if |parts| == 0 then ""
    else if |parts| == 1 then parts[0]
    else parts[0] + sep + Join(parts[1..], sep)
  }

  /** `s.split(sep)` for a one-character separator: the pieces between separators, empty ones included. */
  function Split(s: string, sep: char): (r: seq<string>)
    ensures |r| >= 1
  {
    if s == [] then [""]
    else if s[0] == sep then [""] + Split(s[1..], sep)
    else
      var rest := Split(s[1..], sep);
      [[s[0]] + rest[0]] + rest[1..]
  }

  /** Joining the pieces back with the separator gives the text again. */
  lemma {:induction false} JoinSplit(s: string, sep: char)
    ensures Join(Split(s, sep), [sep]) == s
  {
    if s != [] {
      var rest := Split(s[1..], sep);
      JoinSplit(s[1..], sep);
      if s[0] == sep {
        assert Split(s, sep) == [""] + rest;
      } else {
        if |rest| == 1 {
          assert Split(s, sep) == [[s[0]] + rest[0]];
        } else {
          assert Join(rest, [sep]) == rest[0] + [sep] + Join(rest[1..], [sep]);
          assert Split(s, sep)[1..] == rest[1..];
        }
      }
    }
  }

  /** A text free of the separator, followed by more text, becomes the first piece's prefix. */
  lemma {:induction false} SplitPrefix(x: string, rest: string, sep: char)
    requires sep !in x
    ensures Split(x + rest, sep) == [x + Split(rest, sep)[0]] + Split(rest, sep)[1..]
  {
    if x != [] {
      assert (x + rest)[1..] == x[1..] + rest;
      assert x[0] in x;
      SplitPrefix(x[1..], rest, sep);
      assert [x[0]] + (x[1..] + Split(rest, sep)[0]) == x + Split(rest, sep)[0];
    } else {
      assert x + rest == rest;
      var r := Split(rest, sep);
      assert x + r[0] == r[0];
      assert r == [r[0]] + r[1..];
    }
  }

  /** Splitting a join of separator-free pieces gives the pieces back, so the piece count is preserved. */
  lemma {:induction false} SplitJoin(parts: seq<string>, sep: char)
    requires |parts| >= 1
    requires forall k :: 0 <= k < |parts| ==> sep !in parts[k]
    ensures Split(Join(parts, [sep]), sep) == parts
  {
    if |parts| == 1 {
      SplitPrefix(parts[0], "", sep);
      assert parts[0] + "" == parts[0];
    } else {
      SplitJoin(parts[1..], sep);
      var tail := Join(parts[1..], [sep]);
      assert Join(parts, [sep]) == parts[0] + ([sep] + tail);
      SplitPrefix(parts[0], [sep] + tail, sep);
      assert ([sep] + tail)[1..] == tail;
      assert Split([sep] + tail, sep) == [""] + parts[1..];
      assert parts[0] + "" == parts[0];
    }
  }

  /** `s.split(/\s+/)`: the pieces between maximal runs of white space. */
  function SplitSpaces(s: string): (r: seq<string>)
    ensures |r| >= 1
    decreases |s|
  {
    if s == [] then [""]
    else if IsSpace(s[0]) then
      assert TrimStart(s) == [] || TrimStart(s)[0] == s[|s| - |TrimStart(s)|];
      [""] + SplitSpaces(TrimStart(s))
    else
      var rest := SplitSpaces(s[1..]);
      [[s[0]] + rest[0]] + rest[1..]
  }

  /** A piece of the text after a prefix is a piece of the text. */
  lemma ContainsInSuffix(s: string, n: nat, t: string)
    requires n <= |s| && Contains(s[n..], t)
    ensures Contains(s, t)
  {
    ContainsSlice(s, n, |s|);
    ContainsTransitive(s, s[n..], t);
  }

  /** A text cannot contain `needle` when the needle's k-th character is missing from every place it would have to occupy. */
  lemma LacksAt(hay: string, needle: string, k: nat)
    requires k < |needle| <= |hay|
    requires needle[k] !in hay[k..|hay| - |needle| + k + 1]
    ensures !Contains(hay, needle)
  {
    forall i | 0 <= i <= |hay| - |needle|
      ensures !(needle <= hay[i..])
    {
      assert hay[k..|hay| - |needle| + k + 1][i] == hay[i + k];
    }
  }

  /** A text cannot contain a needle holding a character the text lacks. */
  lemma LacksChar(hay: string, needle: string, c: char)
    requires c in needle && c !in hay
    ensures !Contains(hay, needle)
  {
    var j :| 0 <= j < |needle| && needle[j] == c;
    forall i | 0 <= i <= |hay| - |needle|
      ensures !(needle <= hay[i..])
    {
      assert hay[i + j] in hay;
      assert hay[i..][j] != needle[j];
    }
  }

  /** A text contains its own prefix. */
  lemma ContainsPrefix(hay: string, needle: string)
    requires needle <= hay
    ensures Contains(hay, needle)
  {
    assert hay[0..] == hay;
  }

  /** No term that `split(/\s+/)` yields holds white space. */
  lemma {:induction false} SplitSpacesNoSpace(s: string)
    ensures forall k :: 0 <= k < |SplitSpaces(s)| ==> NoSpace(SplitSpaces(s)[k])
    decreases |s|
  {
    var r := SplitSpaces(s);
    if s != [] {
      if IsSpace(s[0]) {
        var t := TrimStart(s);
        assert t == [] || t[0] == s[|s| - |t|];
        SplitSpacesNoSpace(t);
        assert r == [""] + SplitSpaces(t);
      } else {
        var rest := SplitSpaces(s[1..]);
        SplitSpacesNoSpace(s[1..]);
        assert r[0] == [s[0]] + rest[0];
        assert r[1..] == rest[1..];
      }
    }
  }

  /** The first term of `split(/\s+/)` starts the text. */
  lemma {:induction false} SplitSpacesHead(s: string)
    ensures SplitSpaces(s)[0] <= s
    decreases |s|
  {
    if s != [] && !IsSpace(s[0]) {
      SplitSpacesHead(s[1..]);
    }
  }

  /** Pieces of a suffix of a text are pieces of the text. */
  lemma PiecesOfSuffix(s: string, n: nat, pieces: seq<string>)
    requires n <= |s|
    requires forall k :: 0 <= k < |pieces| ==> Contains(s[n..], pieces[k])
    ensures forall k :: 0 <= k < |pieces| ==> Contains(s, pieces[k])
  {
    forall k | 0 <= k < |pieces|
      ensures Contains(s, pieces[k])
    {
      ContainsInSuffix(s, n, pieces[k]);
    }
  }

  /** Every term that `split(/\s+/)` yields occurs in the text; the first one starts it. */
  lemma {:induction false} SplitSpacesContained(s: string)
    ensures SplitSpaces(s)[0] <= s
    ensures forall k :: 0 <= k < |SplitSpaces(s)| ==> Contains(s, SplitSpaces(s)[k])
    decreases |s|
  {
    var r := SplitSpaces(s);
    SplitSpacesHead(s);
    ContainsPrefix(s, r[0]);
    if s != [] {
      if IsSpace(s[0]) {
        var t := TrimStart(s);
        SplitSpacesContained(t);
        assert r[1..] == SplitSpaces(t);
        PiecesOfSuffix(s, |s| - |t|, r[1..]);
      } else {
        var rest := SplitSpaces(s[1..]);
        SplitSpacesContained(s[1..]);
        assert r[1..] == rest[1..];
        PiecesOfSuffix(s, 1, rest[1..]);
      }
      assert forall k :: 1 <= k < |r| ==> r[k] == r[1..][k - 1];
    }
  }

  // ---------------------------------------------------------------- numbers

  predicate IsDigit(c: char) {
    '0' <= c <= '9'
  }

  function DigitChar(d: nat): char
    requires d < 10
  {
    ('0' as int + d) as char
  }

  function DigitValue(c: char): nat
    requires IsDigit(c)
  {
    c as int - '0' as int
  }

  /** `String(n)` for a non-negative integer. */
  function NatToDecimal(n: nat): (r: string)
    ensures |r| >= 1
    ensures forall k :: 0 <= k < |r| ==> IsDigit(r[k])
    ensures n >= 10 ==> |r| >= 2
    decreases n
  {
    if n < 10 then [DigitChar(n)] else NatToDecimal(n / 10) + [DigitChar(n % 10)]
  }

  /** `String(i)` for any integer. */
  function IntToDecimal(i: int): string {
    if i < 0 then "-" + NatToDecimal(-i) else NatToDecimal(i)
  }

  /** The value of a string of decimal digits, most significant first. */
  function DigitsValue(ds: string): nat
    requires forall k :: 0 <= k < |ds| ==> IsDigit(ds[k])
  {
    if ds == [] then 0 else DigitsValue(ds[..|ds| - 1]) * 10 + DigitValue(ds[|ds| - 1])
  }

  /** Reading back the decimal rendering of a number gives the number. */
  lemma {:induction false} DecimalRoundTrip(n: nat)
    ensures DigitsValue(NatToDecimal(n)) == n
    decreases n
  {
    var r := NatToDecimal(n);
    if n >= 10 {
      DecimalRoundTrip(n / 10);
      assert r[..|r| - 1] == NatToDecimal(n / 10);
    }
  }

  /** The decimal rendering starts with '0' only for zero. */
  lemma {:induction false} DecimalNoLeadingZero(n: nat)
    ensures NatToDecimal(n)[0] == '0' <==> n == 0
    decreases n
  {
    if n >= 10 {
      DecimalNoLeadingZero(n / 10);
      assert NatToDecimal(n)[0] == NatToDecimal(n / 10)[0];
    }
  }

  /** `s.padStart(width, fill)` */
  function PadStart(s: string, width: nat, fill: char): (r: string)
    ensures |r| == if |s| >= width then |s| else width
    ensures r[|r| - |s|..] == s
    ensures forall k :: 0 <= k < |r| - |s| ==> r[k] == fill
  {
    if |s| >= width then s else seq(width - |s|, _ => fill) + s
  }

  /** `String(n).padStart(2, '0')`: a two-digit field for the numbers below 100 whose digits read back as n. */
  lemma TwoDigitField(n: nat)
    requires n < 100
    ensures var f := PadStart(NatToDecimal(n), 2, '0');
      |f| == 2 && IsDigit(f[0]) && IsDigit(f[1]) && DigitsValue(f) == n
  {
    var d := NatToDecimal(n);
    var f := PadStart(d, 2, '0');
    DecimalRoundTrip(n);
    if n < 10 {
      assert f == ['0'] + d;
      assert f[..1] == "0";
      assert DigitsValue(f[..1]) == 0;
    } else {
      assert |d| == 2 by {
        assert NatToDecimal(n / 10) == [DigitChar(n / 10)];
      }
      assert f == d;
    }
  }

  /** The digit characters of a JavaScript numeric literal in base 10 or 16. */
  function RadixDigit(c: char, radix: nat): Option<nat> {
    if '0' <= c <= '9' && (c as int - '0' as int) < radix then Some(c as int - '0' as int)
    else if radix == 16 && 'a' <= c <= 'f' then Some(c as int - 'a' as int + 10)
    else if radix == 16 && 'A' <= c <= 'F' then Some(c as int - 'A' as int + 10)
    else None
  }

  /** The longest prefix made of digits of the radix. */
  function LeadingDigits(s: string, radix: nat): (r: string)
    ensures r <= s
    ensures forall k :: 0 <= k < |r| ==> RadixDigit(r[k], radix).Some?
    ensures |r| < |s| ==> RadixDigit(s[|r|], radix).None?
  {
    if s != [] && RadixDigit(s[0], radix).Some? then [s[0]] + LeadingDigits(s[1..], radix) else ""
  }

  function RadixValue(ds: string, radix: nat): nat
    requires forall k :: 0 <= k < |ds| ==> RadixDigit(ds[k], radix).Some?
  {
    if ds == [] then 0
    else RadixValue(ds[..|ds| - 1], radix) * radix + RadixDigit(ds[|ds| - 1], radix).value
  }

  /**
   * `parseInt(s)` with no radix: leading white space, an optional sign, a "0x"
   * prefix selecting base 16, then the longest run of digits; no digit at all
   * gives NaN (None).
   */
  function ParseInt(s: string): (r: Option<int>) {
    var t := TrimStart(s);
    var neg := t != [] && t[0] == '-';
    var u := if t != [] && (t[0] == '-' || t[0] == '+') then t[1..] else t;
    match ParseUnsigned(u)
    case None => None
    case Some(v) => Some(if neg then -(v as int) else v as int)
  }

  /** The unsigned part of `parseInt`: a "0x" or "0X" prefix selects base 16, then the digit run is read. */
  function ParseUnsigned(u: string): Option<nat> {
    var hex := |u| >= 2 && u[0] == '0' && (u[1] == 'x' || u[1] == 'X');
    var radix := if hex then 16 else 10;
    var ds := LeadingDigits(if hex then u[2..] else u, radix);
    if ds == [] then None else Some(RadixValue(ds, radix))
  }

  lemma {:induction false} LeadingDigitsAll(s: string, radix: nat)
    requires forall k :: 0 <= k < |s| ==> RadixDigit(s[k], radix).Some?
    ensures LeadingDigits(s, radix) == s
  {
    if s != [] {
      LeadingDigitsAll(s[1..], radix);
    }
  }

  lemma {:induction false} RadixValueDecimal(ds: string)
    requires forall k :: 0 <= k < |ds| ==> IsDigit(ds[k])
    ensures forall k :: 0 <= k < |ds| ==> RadixDigit(ds[k], 10).Some?
    ensures RadixValue(ds, 10) == DigitsValue(ds)
  {
    if ds != [] {
      RadixValueDecimal(ds[..|ds| - 1]);
    }
  }

  /** `parseInt(String(n)) === n` for every non-negative integer. */
  lemma ParseIntDecimal(n: nat)
    ensures ParseInt(NatToDecimal(n)) == Some(n)
  {
    var d := NatToDecimal(n);
    DecimalNoLeadingZero(n);
    DecimalRoundTrip(n);
    ParseIntDigits(d);
  }

  /** A run of decimal digits with no leading zero parses to its value. */
  lemma ParseIntDigits(d: string)
    requires d != [] && forall k :: 0 <= k < |d| ==> IsDigit(d[k])
    requires d[0] == '0' ==> |d| == 1
    ensures ParseInt(d) == Some(DigitsValue(d))
  {
    assert !IsSpace(d[0]) && d[0] != '-' && d[0] != '+';
    RadixValueDecimal(d);
    LeadingDigitsAll(d, 10);
    ParseIntPlain(d);
    ParseUnsignedDecimal(d);
  }

  /** Text with no leading space and no sign is read by `ParseUnsigned` alone. */
  lemma ParseIntPlain(t: string)
    requires t != [] && !IsSpace(t[0]) && t[0] != '-' && t[0] != '+'
    ensures ParseInt(t) == ParseUnsigned(t)
  {
    assert TrimStart(t) == t;
  }

  /** Without a `0x` prefix the digit run is read in base 10. */
  lemma ParseUnsignedDecimal(u: string)
    requires !(|u| >= 2 && u[0] == '0' && (u[1] == 'x' || u[1] == 'X'))
    requires LeadingDigits(u, 10) != []
    ensures ParseUnsigned(u) == Some(RadixValue(LeadingDigits(u, 10), 10))
  {
  }
}
