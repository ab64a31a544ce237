/** Byte strings: decimal numbers as the two programs print and parse them, trimming, and
    splitting at a separator.  A byte is written as a `char`, so that protocol words can be
    written as literals. */
module Text {

  type Bytes = string

  datatype Option<+T> = None | Some(value: T)

  // The number of values of a signed 64-bit integer that are not negative.
  const LLONG_LIMIT: int := 0x8000_0000_0000_0000

  // ---------- decimal numbers ----------

  function DigitChar(d: nat): (c: char)
    requires d < 10
  {
    ("0123456789")[d]
  }

  predicate IsDigit(c: char) {
    '0' <= c <= '9'
  }

  function DigitValue(c: char): (d: nat)
    requires IsDigit(c)
    ensures d < 10
  {
    c as int - '0' as int
  }

  /** `to_string` and `QString::number` on a number that is not negative. */
  function Decimal(n: nat): (s: Bytes)
    ensures |s| > 0 && AllDigits(s)
  {
    if n < 10 then [DigitChar(n)] else Decimal(n / 10) + [DigitChar(n % 10)]
  }

  predicate AllDigits(s: Bytes) {
    forall i :: 0 <= i < |s| ==> IsDigit(s[i])
  }

  function Value(s: Bytes): nat
    requires AllDigits(s)
  {
    if s == [] then 0 else 10 * Value(s[..|s| - 1]) + DigitValue(s[|s| - 1])
  }

  lemma {:induction false} ValueOfDecimal(n: nat)
    ensures Value(Decimal(n)) == n
  {
    if n >= 10 {
      ValueOfDecimal(n / 10);
      var s := Decimal(n);
      assert s[..|s| - 1] == Decimal(n / 10);
    } else {
      assert Decimal(n)[..0] == [];
    }
  }

  lemma DecimalInjective(a: nat, b: nat)
    requires Decimal(a) == Decimal(b)
    ensures a == b
  {
    ValueOfDecimal(a);
    ValueOfDecimal(b);
  }

  lemma {:induction false} PrefixValueAtMost(s: Bytes, k: nat)
    requires AllDigits(s) && k <= |s|
    ensures Value(s[..k]) <= Value(s)
  {
    if k < |s| {
      var t := s[..|s| - 1];
      PrefixValueAtMost(t, k);
      assert t[..k] == s[..k];
    } else {
      assert s[..k] == s;
    }
  }

  /** Cutting digits off the end of a printed positive number makes the number smaller. */
  lemma {:induction false} CutDecimalIsSmaller(n: nat, k: nat)
    requires 0 < n && k < |Decimal(n)|
    ensures Value(Decimal(n)[..k]) < n
  {
    var s := Decimal(n);
    if n < 10 {
      assert s[..k] == [];
    } else {
      var t := Decimal(n / 10);
      assert s[..k] == t[..k];
      PrefixValueAtMost(t, k);
      ValueOfDecimal(n / 10);
    }
  }

  // ---------- parsing numbers ----------

  // The bytes that `isspace` accepts in the C locale.
  predicate IsSpace(c: char) {
    c == ' ' || '\t' <= c <= '\r'
  }

  function SkipSpaces(s: Bytes): Bytes {
    if s != [] && IsSpace(s[0]) then SkipSpaces(s[1..]) else s
  }

  function DropTrailingSpaces(s: Bytes): Bytes {
    if s != [] && IsSpace(s[|s| - 1]) then DropTrailingSpaces(s[..|s| - 1]) else s
  }

  function Trimmed(s: Bytes): Bytes {
    DropTrailingSpaces(SkipSpaces(s))
  }

  /** An optional sign and at least one digit, nothing after them, within 64 bits. */
  function ParseSigned(s: Bytes): Option<int> {
    var negative := s != [] && s[0] == '-';
    var digits := if s != [] && (s[0] == '-' || s[0] == '+') then s[1..] else s;
    if digits == [] || !AllDigits(digits) then None
    else
      var v: int := Value(digits);
      if negative then (if v <= LLONG_LIMIT then Some(-v) else None)
      else if v < LLONG_LIMIT then Some(v) else None
  }

  /** `parseNonNegativeLongLong`: `stoll` skips leading white space and must use the whole text. */
  function ParseNonNegative(text: Bytes): (r: Option<nat>) {
    match ParseSigned(SkipSpaces(text))
    case Some(v) => if v >= 0 then Some(v) else None
    case None => None
  }

  /** `QByteArray::toLongLong`, which ignores white space at both ends. */
  function ToLongLong(text: Bytes): Option<int> {
    ParseSigned(Trimmed(text))
  }

  /** What either side parses from digits alone: their value, when there are any and they fit. */
  lemma ParseDigits(s: Bytes)
    requires AllDigits(s)
    ensures ParseNonNegative(s) == if s != [] && Value(s) < LLONG_LIMIT then Some(Value(s)) else None
    ensures ToLongLong(s) == if s != [] && Value(s) < LLONG_LIMIT then Some(Value(s)) else None
  {
    if s != [] {
      assert IsDigit(s[0]);
    }
  }

  lemma ParseDecimal(n: nat)
    requires n < LLONG_LIMIT
    ensures ParseNonNegative(Decimal(n)) == Some(n)
    ensures ToLongLong(Decimal(n)) == Some(n)
  {
    ParseDigits(Decimal(n));
    ValueOfDecimal(n);
  }

  // ---------- which texts are numbers ----------

  /** Only blanks: the space, or one of the five bytes from the tab on. */
  predicate Blank(s: Bytes) {
    forall i :: 0 <= i < |s| ==> s[i] as int == 32 || 9 <= s[i] as int <= 13
  }

  /** A sign or none, and at least one digit, for a number of 64 bits. */
  predicate Signed(text: Bytes, sign: Bytes, digits: Bytes, v: int) {
    && text == sign + digits && (sign == "" || sign == "+" || sign == "-")
    && digits != [] && AllDigits(digits)
    && (if sign == "-" then -v == Value(digits) else v == Value(digits)) && -LLONG_LIMIT <= v < LLONG_LIMIT
  }

  lemma SignedWhenParsed(text: Bytes) returns (sign: Bytes, digits: Bytes)
    ensures ParseSigned(text).Some? ==> Signed(text, sign, digits, ParseSigned(text).value)
  {
    sign, digits := [], text;
    if text != [] && (text[0] == '-' || text[0] == '+') {
      sign, digits := [text[0]], text[1..];
      assert text == sign + digits;
    }
    assert [] + digits == digits;
  }

  lemma ParsedWhenSigned(text: Bytes, sign: Bytes, digits: Bytes, v: int)
    requires Signed(text, sign, digits, v)
    ensures ParseSigned(text) == Some(v)
    ensures text != [] && !IsSpace(text[0]) && !IsSpace(text[|text| - 1])
  {
    if sign == "" {
      assert text == digits && IsDigit(text[0]);
    } else {
      assert text[0] == sign[0] && text[1..] == digits;
    }
    assert text[|text| - 1] == digits[|digits| - 1] && IsDigit(digits[|digits| - 1]);
  }

  lemma {:induction false} BlanksSkipped(s: Bytes) returns (front: Bytes)
    ensures s == front + SkipSpaces(s) && Blank(front)
  {
    front := [];
    if s != [] && IsSpace(s[0]) {
      var more := BlanksSkipped(s[1..]);
      front := [s[0]] + more;
      assert s == [s[0]] + s[1..];
    }
  }

  lemma {:induction false} BlanksDropped(s: Bytes) returns (behind: Bytes)
    ensures s == DropTrailingSpaces(s) + behind && Blank(behind)
  {
    behind := [];
    if s != [] && IsSpace(s[|s| - 1]) {
      var more := BlanksDropped(s[..|s| - 1]);
      behind := more + [s[|s| - 1]];
      assert s == s[..|s| - 1] + [s[|s| - 1]];
    }
  }

  lemma {:induction false} SkipBlanks(front: Bytes, s: Bytes)
    requires Blank(front) && (s != [] ==> !IsSpace(s[0]))
    ensures SkipSpaces(front + s) == s
  {
    if front == [] {
      assert front + s == s;
    } else {
      assert (front + s)[0] == front[0] && (front + s)[1..] == front[1..] + s;
      SkipBlanks(front[1..], s);
    }
  }

  lemma {:induction false} DropBlanks(s: Bytes, behind: Bytes)
    requires Blank(behind) && (s != [] ==> !IsSpace(s[|s| - 1]))
    ensures DropTrailingSpaces(s + behind) == s
  {
    if behind == [] {
      assert s + behind == s;
    } else {
      LastOfSum(s, behind);
      DropBlanks(s, behind[..|behind| - 1]);
    }
  }

  lemma LastOfSum(s: Bytes, behind: Bytes)
    requires behind != []
    ensures var all := s + behind;
            all[|all| - 1] == behind[|behind| - 1] && all[..|all| - 1] == s + behind[..|behind| - 1]
  {
  }

  /** A number with blanks around it. */
  predicate Padded(text: Bytes, front: Bytes, sign: Bytes, digits: Bytes, behind: Bytes, v: int) {
    Blank(front) && Blank(behind) && Signed(sign + digits, sign, digits, v) && text == front + (sign + digits) + behind
  }

  /** `toLongLong` finds a number exactly in the texts that hold one of 64 bits with blanks around it. */
  lemma ClientParsesExactlyWhen(text: Bytes, v: int)
    ensures ToLongLong(text) == Some(v) <==> exists front, sign, digits, behind :: Padded(text, front, sign, digits, behind, v)
  {
    if ToLongLong(text) == Some(v) {
      var front := BlanksSkipped(text);
      var behind := BlanksDropped(SkipSpaces(text));
      var sign, digits := SignedWhenParsed(Trimmed(text));
      assert text == front + (Trimmed(text) + behind) == front + Trimmed(text) + behind;
      assert Padded(text, front, sign, digits, behind, v);
    }
    if exists front, sign, digits, behind :: Padded(text, front, sign, digits, behind, v) {
      var front, sign, digits, behind :| Padded(text, front, sign, digits, behind, v);
      var number := sign + digits;
      ParsedWhenSigned(number, sign, digits, v);
      assert text == front + (number + behind) && (number + behind)[0] == number[0];
      SkipBlanks(front, number + behind);
      DropBlanks(number, behind);
    }
  }

  /** `parseNonNegativeLongLong` finds one exactly in those that hold one that is not negative with
      blanks only in front of it. */
  lemma ServerParsesExactlyWhen(text: Bytes, v: int)
    ensures ParseNonNegative(text) == Some(v) <==> v >= 0 && exists front, sign, digits :: Padded(text, front, sign, digits, [], v)
  {
    if ParseNonNegative(text) == Some(v) {
      var front := BlanksSkipped(text);
      var sign, digits := SignedWhenParsed(SkipSpaces(text));
      assert text == front + SkipSpaces(text) + [];
      assert Padded(text, front, sign, digits, [], v);
    }
    if v >= 0 && exists front, sign, digits :: Padded(text, front, sign, digits, [], v) {
      var front, sign, digits :| Padded(text, front, sign, digits, [], v);
      ParsedWhenSigned(sign + digits, sign, digits, v);
      assert text == front + (sign + digits);
      SkipBlanks(front, sign + digits);
    }
  }

  // ---------- splitting ----------

  predicate Free(s: Bytes, d: char) {
    d !in s
  }

  /** Everything before the first separator (the whole text when there is none). */
  function Head(s: Bytes, d: char): (h: Bytes)
    ensures h <= s && Free(h, d)
    ensures |h| < |s| ==> s[|h|] == d
  {
    if s == [] || s[0] == d then [] else [s[0]] + Head(s[1..], d)
  }

  /** Tokens read with `getline` until the text is used up: an empty last token is not seen. */
  function Split(s: Bytes, d: char): (tokens: seq<Bytes>)
    ensures forall t :: t in tokens ==> Free(t, d)
    decreases |s|
  {
    if s == [] then []
    else
      var h := Head(s, d);
      [h] + (if |h| == |s| then [] else Split(s[|h| + 1..], d))
  }

  /** `QString::split` with `SkipEmptyParts`. */
  function SplitNonEmpty(s: Bytes, d: char): (tokens: seq<Bytes>)
    ensures forall t :: t in tokens ==> t != [] && Free(t, d)
    decreases |s|
  {
    if s == [] then []
    else
      var h := Head(s, d);
      (if h == [] then [] else [h]) + (if |h| == |s| then [] else SplitNonEmpty(s[|h| + 1..], d))
  }

  lemma {:induction false} HeadOfToken(t: Bytes, d: char, rest: Bytes)
    requires Free(t, d)
    ensures Head(t + [d] + rest, d) == t
    ensures Head(t, d) == t
  {
    if t != [] {
      HeadOfToken(t[1..], d, rest);
      assert (t + [d] + rest)[1..] == t[1..] + [d] + rest;
    }
  }

  /** A token followed by a separator is read back as is, and reading goes on behind it. */
  lemma SplitToken(t: Bytes, d: char, rest: Bytes)
    requires Free(t, d)
    ensures Split(t + [d] + rest, d) == [t] + Split(rest, d)
    ensures SplitNonEmpty(t + [d] + rest, d) == (if t == [] then [] else [t]) + SplitNonEmpty(rest, d)
  {
    HeadOfToken(t, d, rest);
    var s := t + [d] + rest;
    assert s[|t| + 1..] == rest;
  }

  lemma SplitLastToken(t: Bytes, d: char)
    requires Free(t, d) && t != []
    ensures Split(t, d) == [t]
    ensures SplitNonEmpty(t, d) == [t]
  {
    HeadOfToken(t, d, []);
  }

  /** No token contains a byte that the text does not contain. */
  lemma {:induction false} TokensComeFromText(s: Bytes, d: char, c: char)
    requires Free(s, c)
    ensures forall t :: t in Split(s, d) ==> Free(t, c)
    ensures forall t :: t in SplitNonEmpty(s, d) ==> Free(t, c)
    decreases |s|
  {
    if s != [] {
      var h := Head(s, d);
      if |h| < |s| {
        TokensComeFromText(s[|h| + 1..], d, c);
      }
    }
  }

  /** Tokens with a separator between any two. */
  function Join(tokens: seq<Bytes>, d: char): Bytes {
    if tokens == [] then []
    else if |tokens| == 1 then tokens[0]
    else tokens[0] + [d] + Join(tokens[1..], d)
  }

  /** Splitting undoes joining when no token holds the separator and the last is not empty. */
  lemma {:induction false} SplitOfJoin(tokens: seq<Bytes>, d: char)
    requires forall t :: t in tokens ==> Free(t, d)
    requires tokens != [] ==> tokens[|tokens| - 1] != []
    ensures Split(Join(tokens, d), d) == tokens
  {
    if |tokens| == 1 {
      SplitLastToken(tokens[0], d);
    } else if |tokens| > 1 {
      SplitOfJoin(tokens[1..], d);
      SplitToken(tokens[0], d, Join(tokens[1..], d));
    }
  }

  lemma {:induction false} JoinIsFree(tokens: seq<Bytes>, d: char, c: char)
    requires c != d && forall t :: t in tokens ==> Free(t, c)
    ensures Free(Join(tokens, d), c)
  {
    if tokens != [] {
      assert tokens[0] in tokens;
      JoinIsFree(tokens[1..], d, c);
    }
  }

  // ---------- slices ----------

  lemma FrontOfSlice(s: Bytes, from: nat, n: nat, k: nat)
    requires from + n <= |s| && k <= n
    ensures s[from..from + n][..k] == s[from..from + k]
  {
  }

  /** A front part of a sum ends in its first part, or has all of that and a front part of the second. */
  lemma FrontOfSum(a: Bytes, b: Bytes, s: Bytes)
    requires s <= a + b
    ensures if |s| >= |a| then s == a + s[|a|..] && s[|a|..] <= b else s < a
  {
    assert s == (a + b)[..|s|];
    if |s| >= |a| {
      assert s[|a|..] == b[..|s| - |a|];
    }
  }
}
