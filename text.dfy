/**
 * The string operations the components call: `String.prototype.trim`,
 * `String.prototype.split` with a one-character separator (and its inverse,
 * `Array.prototype.join`), and the test `isNaN(Number(s))` for a string `s`.
 * Strings are sequences of Unicode scalar values.
 */
module Text {

  /**
   * The characters `trim` removes and `Number` skips: the ECMAScript WhiteSpace
   * (tab, vertical tab, form feed, space, no-break space, byte order mark and the
   * other Unicode "Zs" characters) and LineTerminator (LF, CR, U+2028, U+2029).
   */
  predicate IsWhitespace(c: char) {
    || c == '\t' || c == '\n' || c == '\U{B}' || c == '\U{C}' || c == '\r' || c == ' '
    || c == '\U{A0}' || c == '\U{1680}' || ('\U{2000}' <= c <= '\U{200A}')
    || c == '\U{2028}' || c == '\U{2029}' || c == '\U{202F}' || c == '\U{205F}'
    || c == '\U{3000}' || c == '\U{FEFF}'
  }

  predicate AllWhitespace(s: string) {
    forall i :: 0 <= i < |s| ==> IsWhitespace(s[i])
  }

  /** `trimStart`: `s` without its leading whitespace. */
  function TrimStart(s: string): (r: string)
    ensures |r| <= |s|
  {
    if s != [] && IsWhitespace(s[0]) then TrimStart(s[1..]) else s
  }

  /** `trimEnd`: `s` without its trailing whitespace. */
  function TrimEnd(s: string): (r: string)
    ensures |r| <= |s|
  {
    if s != [] && IsWhitespace(s[|s| - 1]) then TrimEnd(s[..|s| - 1]) else s
  }

  /** `trimStart` keeps a suffix that does not start with whitespace and drops only whitespace. */
  lemma {:induction false} TrimStartShape(s: string)
    ensures var r := TrimStart(s);
      && r == s[|s| - |r|..]
      && AllWhitespace(s[..|s| - |r|])
      && (r != [] ==> !IsWhitespace(r[0]))
  {
    if s != [] && IsWhitespace(s[0]) {
      TrimStartShape(s[1..]);
      var r := TrimStart(s[1..]);
      assert s[1..][|s| - 1 - |r|..] == s[|s| - |r|..];
      assert s[..|s| - |r|] == [s[0]] + s[1..][..|s| - 1 - |r|];
    }
  }

  /** `trimEnd` keeps a prefix that does not end with whitespace and drops only whitespace. */
  lemma {:induction false} TrimEndShape(s: string)
    ensures var r := TrimEnd(s);
      && r == s[..|r|]
      && AllWhitespace(s[|r|..])
      && (r != [] ==> !IsWhitespace(r[|r| - 1]))
  {
    if s != [] && IsWhitespace(s[|s| - 1]) {
      TrimEndShape(s[..|s| - 1]);
      var r := TrimEnd(s[..|s| - 1]);
      assert s[..|s| - 1][..|r|] == s[..|r|];
      assert s[|r|..] == s[..|s| - 1][|r|..] + [s[|s| - 1]];
    }
  }

  /** `s.trim()`. */
  function Trim(s: string): (r: string)
  {
    TrimEnd(TrimStart(s))
  }

  /**
   * What `trim` keeps: a contiguous piece of `s` that neither starts nor ends
   * with whitespace, with only whitespace cut away on either side.
   */
  lemma TrimShape(s: string)
    ensures |Trim(s)| <= |s|
    ensures Trim(s) != [] ==> !IsWhitespace(Trim(s)[0]) && !IsWhitespace(Trim(s)[|Trim(s)| - 1])
    ensures var lead := |s| - |TrimStart(s)|;
      && lead + |Trim(s)| <= |s|
      && Trim(s) == s[lead..lead + |Trim(s)|]
      && AllWhitespace(s[..lead])
      && AllWhitespace(s[lead + |Trim(s)|..])
  {
    var t := TrimStart(s);
    TrimStartShape(s);
    TrimEndShape(t);
    var r := TrimEnd(t);
    var lead := |s| - |t|;
    assert r == t[..|r|];
    assert s[lead + |r|..] == t[|r|..];
    if r != [] {
      assert r[0] == t[0];
    }
  }

  /** `!s.trim()` holds exactly when `s` consists of whitespace only (or is empty). */
  lemma TrimEmptyIff(s: string)
    ensures Trim(s) == "" <==> AllWhitespace(s)
  {
    TrimShape(s);
    TrimStartShape(s);
    var t := TrimStart(s);
    var lead := |s| - |t|;
    if Trim(s) == "" {
      if t != [] {
        TrimEndShape(t);
        assert false;
      }
      assert s[..lead] == s;
    } else {
      assert Trim(s)[0] == s[lead];
    }
  }

  /** Trimming twice is trimming once. */
  lemma TrimIdempotent(s: string)
    ensures Trim(Trim(s)) == Trim(s)
  {
    TrimShape(s);
    var r := Trim(s);
    if r != [] {
      assert TrimStart(r) == r;
      assert TrimEnd(r) == r;
    }
  }

  /** The first index of `c` in `s`, or `|s|` when `c` does not occur. */
  function IndexOf(s: string, c: char): (i: nat)
    ensures i <= |s|
    ensures i < |s| ==> s[i] == c
    ensures forall k :: 0 <= k < i ==> s[k] != c
  {
    if s == [] then 0
    else if s[0] == c then 0
    else 1 + IndexOf(s[1..], c)
  }

  /** `s.split(sep)` for a one-character separator: the pieces between separators, empty ones included. */
  function Split(s: string, sep: char): (parts: seq<string>)
    ensures |parts| >= 1
    ensures forall k :: 0 <= k < |parts| ==> sep !in parts[k]
    decreases |s|
  {
    var i := IndexOf(s, sep);
    if i == |s| then [s] else [s[..i]] + Split(s[i + 1..], sep)
  }

  /** `parts.join(sep)`. */
  function Join(parts: seq<string>, sep: char): string
  {
    if parts == [] then ""
    else if |parts| == 1 then parts[0]
    else parts[0] + [sep] + Join(parts[1..], sep)
  }

  /** How many times `c` occurs in `s`. */
  function Count(s: string, c: char): nat
  {
    if s == [] then 0 else (if s[0] == c then 1 else 0) + Count(s[1..], c)
  }

  lemma {:induction false} CountAppend(a: string, b: string, c: char)
    ensures Count(a + b, c) == Count(a, c) + Count(b, c)
  {
    if a == [] {
      assert a + b == b;
    } else {
      assert (a + b)[0] == a[0];
      assert (a + b)[1..] == a[1..] + b;
      CountAppend(a[1..], b, c);
    }
  }

  lemma {:induction false} CountAbsent(s: string, c: char)
    requires c !in s
    ensures Count(s, c) == 0
  {
    if s != [] {
      CountAbsent(s[1..], c);
    }
  }

  /** Joining the pieces with the separator gives back the original string. */
  lemma {:induction false} JoinSplit(s: string, sep: char)
    ensures Join(Split(s, sep), sep) == s
    decreases |s|
  {
    var i := IndexOf(s, sep);
    if i < |s| {
      var rest := Split(s[i + 1..], sep);
      var parts := [s[..i]] + rest;
      assert Split(s, sep) == parts;
      assert parts[1..] == rest;
      assert Join(parts, sep) == s[..i] + [sep] + Join(rest, sep);
      JoinSplit(s[i + 1..], sep);
      assert s == s[..i] + [sep] + s[i + 1..];
    }
  }

  /** `split` gives one piece more than there are separators. */
  lemma {:induction false} SplitCount(s: string, sep: char)
    ensures |Split(s, sep)| == Count(s, sep) + 1
    decreases |s|
  {
    var i := IndexOf(s, sep);
    if i == |s| {
      CountAbsent(s, sep);
    } else {
      SplitCount(s[i + 1..], sep);
      assert s == s[..i] + ([sep] + s[i + 1..]);
      CountAbsent(s[..i], sep);
      CountAppend(s[..i], [sep] + s[i + 1..], sep);
      CountAppend([sep], s[i + 1..], sep);
      assert Count([sep], sep) == 1 + Count([], sep);
    }
  }

  /** Splitting a join of separator-free pieces gives the pieces back. */
  lemma {:induction false} SplitJoin(parts: seq<string>, sep: char)
    requires |parts| >= 1
    requires forall k :: 0 <= k < |parts| ==> sep !in parts[k]
    ensures Split(Join(parts, sep), sep) == parts
  {
    if |parts| == 1 {
      assert IndexOf(parts[0], sep) == |parts[0]|;
    } else {
      var s := Join(parts, sep);
      var p := parts[0];
      assert s == p + [sep] + Join(parts[1..], sep);
      assert IndexOf(s, sep) == |p| by {
        assert s == p + ([sep] + Join(parts[1..], sep));
        IndexOfAfterFree(p, [sep] + Join(parts[1..], sep), sep);
      }
      assert s[..|p|] == p;
      assert s[|p| + 1..] == Join(parts[1..], sep);
      SplitJoin(parts[1..], sep);
    }
  }

  lemma {:induction false} IndexOfAfterFree(p: string, rest: string, c: char)
    requires c !in p
    requires rest != [] && rest[0] == c
    ensures IndexOf(p + rest, c) == |p|
  {
    if p != [] {
      assert (p + rest)[1..] == p[1..] + rest;
      IndexOfAfterFree(p[1..], rest, c);
    }
  }

  // --- Number(s) for a string s (ECMAScript StringToNumber) ---

  predicate IsDecimalDigit(c: char) { '0' <= c <= '9' }

  /** Zero or more decimal digits. */
  predicate AllDecimalDigits(s: string) {
    forall i :: 0 <= i < |s| ==> IsDecimalDigit(s[i])
  }

  /** DecimalDigits: one or more decimal digits (no numeric separators). */
  predicate IsDecimalDigits(s: string) {
    s != [] && AllDecimalDigits(s)
  }

  /** SignedInteger: an optional sign followed by DecimalDigits. */
  predicate IsSignedInteger(s: string) {
    IsDecimalDigits(s) || (s != [] && (s[0] == '+' || s[0] == '-') && IsDecimalDigits(s[1..]))
  }

  /** The index of the first exponent indicator `e` or `E`, or `|s|`. */
  function ExponentIndex(s: string): (i: nat)
    ensures i <= |s|
    ensures i < |s| ==> s[i] == 'e' || s[i] == 'E'
    ensures forall k :: 0 <= k < i ==> s[k] != 'e' && s[k] != 'E'
  {
    if s == [] then 0
    else if s[0] == 'e' || s[0] == 'E' then 0
    else 1 + ExponentIndex(s[1..])
  }

  /** The part before the exponent: `d.`, `d.d`, `.d` or `d`, with at least one digit. */
  predicate IsMantissa(m: string) {
    var dot := IndexOf(m, '.');
    if dot == |m| then IsDecimalDigits(m)
    else AllDecimalDigits(m[..dot]) && AllDecimalDigits(m[dot + 1..]) && |m| >= 2
  }

  /** StrUnsignedDecimalLiteral: `Infinity`, or a mantissa with an optional exponent part. */
  predicate IsUnsignedDecimal(s: string) {
    s == "Infinity" ||
    var e := ExponentIndex(s);
    IsMantissa(s[..e]) && (e == |s| || IsSignedInteger(s[e + 1..]))
  }

  /** StrDecimalLiteral: an optional sign and an unsigned decimal literal. */
  predicate IsStrDecimal(s: string) {
    IsUnsignedDecimal(s) || (s != [] && (s[0] == '+' || s[0] == '-') && IsUnsignedDecimal(s[1..]))
  }

  predicate IsBinaryDigit(c: char) { c == '0' || c == '1' }
  predicate IsOctalDigit(c: char) { '0' <= c <= '7' }
  predicate IsHexDigit(c: char) { '0' <= c <= '9' || 'a' <= c <= 'f' || 'A' <= c <= 'F' }

  /** NonDecimalIntegerLiteral: `0b…`, `0o…` or `0x…` with at least one digit and no sign. */
  predicate IsNonDecimalInteger(s: string) {
    && |s| >= 3 && s[0] == '0'
    && (|| ((s[1] == 'b' || s[1] == 'B') && forall i :: 2 <= i < |s| ==> IsBinaryDigit(s[i]))
        || ((s[1] == 'o' || s[1] == 'O') && forall i :: 2 <= i < |s| ==> IsOctalDigit(s[i]))
        || ((s[1] == 'x' || s[1] == 'X') && forall i :: 2 <= i < |s| ==> IsHexDigit(s[i])))
  }

  /**
   * `isNaN(Number(s))`: `Number` skips surrounding whitespace, reads an empty
   * remainder as 0, and otherwise gives NaN unless the remainder is a
   * StrNumericLiteral.
   */
  predicate NumberIsNaN(s: string) {
    var t := Trim(s);
    t != "" && !IsStrDecimal(t) && !IsNonDecimalInteger(t)
  }

  /** A string with no whitespace at either end is left as it is by `trim`. */
  lemma TrimUnchanged(s: string)
    requires s != [] && !IsWhitespace(s[0]) && !IsWhitespace(s[|s| - 1])
    ensures Trim(s) == s
  {
    assert TrimStart(s) == s;
    assert TrimEnd(s) == s;
  }

  /** A plain digit string, such as a price typed as "250", is a number. */
  lemma DigitsAreNumbers(s: string)
    requires IsDecimalDigits(s)
    ensures !NumberIsNaN(s)
  {
    assert IsDecimalDigit(s[0]) && IsDecimalDigit(s[|s| - 1]);
    TrimUnchanged(s);
    assert ExponentIndex(s) == |s| by {
      if ExponentIndex(s) < |s| {
        assert false;
      }
    }
    assert IndexOf(s, '.') == |s| by {
      if IndexOf(s, '.') < |s| {
        assert false;
      }
    }
    assert s[..|s|] == s;
    assert IsMantissa(s);
  }

  /** Unlike `parseFloat`, `Number` rejects trailing garbage: "12abc" is NaN. */
  lemma TrailingGarbageIsNaN()
    ensures NumberIsNaN("12abc")
  {
    var s := "12abc";
    TrimUnchanged(s);
    assert ExponentIndex(s) == |s|;
    assert IndexOf(s, '.') == |s|;
    assert !IsDecimalDigit(s[2]);
    assert !IsMantissa(s);
    assert !IsNonDecimalInteger(s);
  }
}
