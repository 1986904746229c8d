/** The few pieces of JavaScript semantics the prompt handlers rely on: the values a
    parsed JSON body can hold, truthiness (`x || fallback`), `String.prototype.trim`,
    `String(x)` and the global `parseInt` with no radix argument. */
module Js {
  import opened Results

  /** A value read from a parsed request body. A property the body lacks reads as
      `Undefined`. Numbers are integers here (see README, "Left out"). */
  datatype Value =
    | Undefined
    | Null
    | Bool(b: bool)
    | Num(n: int)
    | Str(s: string)
    | Arr(elems: seq<Value>)
    | Obj(members: seq<(string, Value)>)

  /** ToBoolean: the falsy values are undefined, null, false, 0 and "". */
  predicate Truthy(v: Value) {
    match v
    case Undefined => false
    case Null => false
    case Bool(b) => b
    case Num(n) => n != 0
    case Str(s) => s != ""
    case Arr(_) => true
    case Obj(_) => true
  }

  /** `v || fallback`: `v` when it is truthy, else the fallback. */
  function Or(v: Value, fallback: Value): (r: Value)
    ensures Truthy(v) ==> r == v
    ensures !Truthy(v) ==> r == fallback
    ensures Truthy(r) <==> Truthy(v) || Truthy(fallback)
  {
    if Truthy(v) then v else fallback
  }

  // ---------------------------------------------------------------------------
  // Whitespace and trim
  // ---------------------------------------------------------------------------

  /** WhiteSpace or LineTerminator of ECMAScript: the characters that `trim` and
      `parseInt` skip. */
  predicate IsSpace(c: char) {
    c == '\t' || c == '\n' || c == '\U{000B}' || c == '\U{000C}' || c == '\r' || c == ' '
    || c == '\U{00A0}' || c == '\U{1680}' || ('\U{2000}' <= c <= '\U{200A}')
    || c == '\U{2028}' || c == '\U{2029}' || c == '\U{202F}' || c == '\U{205F}'
    || c == '\U{3000}' || c == '\U{FEFF}'
  }

  /** Every character of `s` from index `lo` up to (not including) `hi` is whitespace. */
  predicate SpaceBetween(s: string, lo: int, hi: int)
    requires 0 <= lo && hi <= |s|
  {
    forall k | lo <= k < hi :: IsSpace(s[k])
  }

  /** No whitespace at either end: the shape of every trimmed string. */
  predicate Tight(s: string) {
    s == [] || (!IsSpace(s[0]) && !IsSpace(s[|s| - 1]))
  }

  /** `String.prototype.trimStart`: the suffix left after the longest all-space prefix
      (that the prefix is all space is `TrimStartSkipsSpace`). */
  function TrimStart(s: string): (r: string)
    ensures |r| <= |s| && r == s[|s| - |r|..]
    ensures r == [] || !IsSpace(r[0])
  {
    if s != [] && IsSpace(s[0]) then TrimStart(s[1..]) else s
  }

  /** `String.prototype.trimEnd`: the prefix left after the longest all-space suffix
      (that the suffix is all space is `TrimEndSkipsSpace`). */
  function TrimEnd(s: string): (r: string)
    ensures |r| <= |s| && r == s[..|r|]
    ensures r == [] || !IsSpace(r[|r| - 1])
  {
    if s != [] && IsSpace(s[|s| - 1]) then TrimEnd(s[..|s| - 1]) else s
  }

  lemma {:induction false} TrimStartSkipsSpace(s: string)
    ensures SpaceBetween(s, 0, |s| - |TrimStart(s)|)
  {
    if s != [] && IsSpace(s[0]) {
      var r := TrimStart(s[1..]);
      TrimStartSkipsSpace(s[1..]);
      forall k | 1 <= k < |s| - |r|
        ensures IsSpace(s[k])
      {
        assert s[k] == s[1..][k - 1];
      }
    }
  }

  lemma {:induction false} TrimEndSkipsSpace(s: string)
    ensures SpaceBetween(s, |TrimEnd(s)|, |s|)
  {
    if s != [] && IsSpace(s[|s| - 1]) {
      var r := TrimEnd(s[..|s| - 1]);
      TrimEndSkipsSpace(s[..|s| - 1]);
      forall k | |r| <= k < |s| - 1
        ensures IsSpace(s[k])
      {
        assert s[k] == s[..|s| - 1][k];
      }
    }
  }

  /** `String.prototype.trim`: `s` without the whitespace at both ends. */
  function Trim(s: string): (r: string)
    ensures Tight(r)
    ensures r == [] <==> SpaceBetween(s, 0, |s|)
  {
    TrimBlank(s);
    TrimEnd(TrimStart(s))
  }

  /** Whitespace in a suffix of `s` is whitespace in `s`, shifted by where it starts. */
  lemma SpaceShift(s: string, i: nat, lo: nat, hi: nat)
    requires i <= |s| && hi <= |s| - i && SpaceBetween(s[i..], lo, hi)
    ensures SpaceBetween(s, i + lo, i + hi)
  {
    forall k | i + lo <= k < i + hi
      ensures IsSpace(s[k])
    {
      assert s[k] == s[i..][k - i];
    }
  }

  /** Where `trim` cuts `s`: an all-space prefix, the kept piece of `s`, an all-space
      suffix. */
  lemma TrimSplit(s: string)
    ensures var r := TrimEnd(TrimStart(s)); var i := |s| - |TrimStart(s)|;
      && i + |r| <= |s| && r == s[i..i + |r|]
      && SpaceBetween(s, 0, i) && SpaceBetween(s, i + |r|, |s|)
  {
    var t := TrimStart(s);
    var i := |s| - |t|;
    TrimStartSkipsSpace(s);
    TrimEndSkipsSpace(t);
    SuffixPrefix(s, i, TrimEnd(t));
    SpaceShift(s, i, |TrimEnd(t)|, |t|);
  }

  /** A prefix of the suffix of `s` from `i` is the piece of `s` from `i` on. */
  lemma SuffixPrefix(s: string, i: nat, r: string)
    requires i <= |s| && |r| <= |s| - i && r == s[i..][..|r|]
    ensures r == s[i..i + |r|]
  {
  }

  /** Trimming leaves nothing exactly when `s` is all whitespace. */
  lemma TrimBlank(s: string)
    ensures TrimEnd(TrimStart(s)) == [] <==> SpaceBetween(s, 0, |s|)
  {
    var t := TrimStart(s);
    var i := |s| - |t|;
    TrimStartSkipsSpace(s);
    TrimEndSkipsSpace(t);
    assert t == s[i..];
    if TrimEnd(t) == [] {
      SpaceShift(s, i, 0, |t|);
    }
  }

  /** Trimming an already trimmed string changes nothing. */
  lemma TrimTight(s: string)
    requires Tight(s)
    ensures Trim(s) == s
  {
  }

  /** `trim` is idempotent. */
  lemma TrimIdempotent(s: string)
    ensures Trim(Trim(s)) == Trim(s)
  {
    TrimTight(Trim(s));
  }

  // ---------------------------------------------------------------------------
  // String(x)
  // ---------------------------------------------------------------------------

  predicate IsDecimalDigit(c: char) {
    '0' <= c <= '9'
  }

  function DecimalChar(d: nat): (c: char)
    requires d < 10
    ensures IsDecimalDigit(c) && DigitOf(c) == d
  {
    (('0' as int) + d) as char
  }

  /** The decimal numeral of `n`, without leading zeros. */
  function DecimalDigits(n: nat): (r: string)
    ensures |r| >= 1
    ensures forall i | 0 <= i < |r| :: IsDecimalDigit(r[i])
    ensures |r| > 1 ==> r[0] != '0'
  {
    if n < 10 then [DecimalChar(n)] else DecimalDigits(n / 10) + [DecimalChar(n % 10)]
  }

  /** `Number.prototype.toString()` for an integer. */
  function NumberToString(n: int): string {
    if n < 0 then "-" + DecimalDigits(-n) else DecimalDigits(n)
  }

  /** `String(v)`; an array is joined with "," and its undefined and null elements
      print as empty strings. A string is its own text, and the text of a number is a
      numeral that `parseInt` reads back as that number. */
  function ToStr(v: Value): (r: string)
    ensures v.Str? ==> r == v.s
    ensures v.Num? ==> ParseIntString(r) == Some(v.n)
    ensures v.Arr? && v.elems == [] ==> r == ""
    decreases v, 1, 0
  {
    match v
    case Undefined => "undefined"
    case Null => "null"
    case Bool(b) => if b then "true" else "false"
    case Num(n) => ParseIntNumeral(n); NumberToString(n)
    case Str(s) => s
    case Arr(elems) => JoinElems(v, |elems|)
    case Obj(_) => "[object Object]"
  }

  /** `Array.prototype.join(",")` of the first `k` elements of the array `v`. */
  function JoinElems(v: Value, k: nat): string
    requires v.Arr? && k <= |v.elems|
    decreases v, 0, k
  {
    if k == 0 then ""
    else
      var e := v.elems[k - 1];
      var last := if e.Undefined? || e.Null? then "" else ToStr(e);
      if k == 1 then last else JoinElems(v, k - 1) + "," + last
  }

  // ---------------------------------------------------------------------------
  // parseInt(x) with no radix
  // ---------------------------------------------------------------------------

  /** The digit value of `c` in any radix up to 36; 36 when `c` is no digit. */
  function DigitOf(c: char): nat {
    if '0' <= c <= '9' then c as int - '0' as int
    else if 'a' <= c <= 'z' then c as int - 'a' as int + 10
    else if 'A' <= c <= 'Z' then c as int - 'A' as int + 10
    else 36
  }

  /** The length of the longest prefix of `s` made of digits of `radix`. */
  function DigitRun(s: string, radix: nat): (n: nat)
    ensures n <= |s|
    ensures forall i | 0 <= i < n :: DigitOf(s[i]) < radix
    ensures n < |s| ==> DigitOf(s[n]) >= radix
  {
    if s != [] && DigitOf(s[0]) < radix then 1 + DigitRun(s[1..], radix) else 0
  }

  /** The number that the digit string `s` denotes in `radix`. */
  function DigitsValue(s: string, radix: nat): nat {
    if s == [] then 0
    else DigitsValue(s[..|s| - 1], radix) * radix + DigitOf(s[|s| - 1])
  }

  /** The unsigned part of `parseInt`: a "0x"/"0X" prefix selects radix 16, otherwise
      radix 10; then the longest run of digits is read and nothing after it matters.
      `None` when there is no digit at all. */
  function ParseDigits(s: string): (r: Option<nat>)
    ensures r.Some? ==> s != [] && IsDecimalDigit(s[0])
    ensures s != [] && '1' <= s[0] <= '9' ==> r.Some?
  {
    var hex := |s| >= 2 && s[0] == '0' && (s[1] == 'x' || s[1] == 'X');
    var radix := if hex then 16 else 10;
    var body := if hex then s[2..] else s;
    var digits := body[..DigitRun(body, radix)];
    if digits == [] then None else Some(DigitsValue(digits, radix))
  }

  /** `parseInt(str)`; `None` stands for NaN. Leading whitespace is skipped and one
      sign is read before the digits. */
  function ParseIntString(str: string): (r: Option<int>)
    ensures r.Some? ==> var s := TrimStart(str);
      s != [] && (IsDecimalDigit(s[0])
        || (|s| > 1 && (s[0] == '-' || s[0] == '+') && IsDecimalDigit(s[1])))
    ensures r.Some? && r.value < 0 ==> TrimStart(str) != [] && TrimStart(str)[0] == '-'
    ensures var s := TrimStart(str); s != [] && '1' <= s[0] <= '9' ==> r.Some? && r.value >= 0
  {
    var s := TrimStart(str);
    var signed := |s| > 0 && (s[0] == '-' || s[0] == '+');
    match ParseDigits(if signed then s[1..] else s)
    case None => None
    case Some(m) => Some(if signed && s[0] == '-' then -(m as int) else m as int)
  }

  /** `parseInt(v)`: the argument is first converted with `String(v)`. A number comes
      back as itself; `undefined`, `null`, booleans, objects and the empty array give
      NaN. */
  function ParseInt(v: Value): (r: Option<int>)
    ensures v.Num? ==> r == Some(v.n)
    ensures v.Str? ==> r == ParseIntString(v.s)
    ensures v.Undefined? || v.Null? || v.Bool? || v.Obj? || v == Arr([]) ==> r.None?
  {
    var str := ToStr(v);
    if v.Num? || v.Str? || v.Arr? then ParseIntString(str)
    else NoNumeral(str); ParseIntString(str)
  }

  /** Text that starts with neither whitespace, a sign nor a digit is NaN. */
  lemma NoNumeral(str: string)
    requires str != [] && !IsSpace(str[0]) && !IsDecimalDigit(str[0])
    requires str[0] != '-' && str[0] != '+'
    ensures ParseIntString(str).None?
  {
    assert TrimStart(str) == str;
  }

  lemma {:induction false} DecimalDigitsValue(n: nat)
    ensures DigitsValue(DecimalDigits(n), 10) == n
  {
    var d := DecimalDigits(n);
    if n >= 10 {
      DecimalDigitsValue(n / 10);
      assert d[..|d| - 1] == DecimalDigits(n / 10);
    }
  }

  /** A decimal numeral reads back as the number it denotes. */
  lemma ParseDecimal(n: nat)
    ensures ParseDigits(DecimalDigits(n)) == Some(n)
  {
    var d := DecimalDigits(n);
    assert DigitRun(d, 10) == |d|;
    assert d[..|d|] == d;
    DecimalDigitsValue(n);
  }

  /** A numeral that starts with a digit or a minus sign has no leading whitespace. */
  lemma TrimStartNumeral(str: string)
    requires str != [] && (str[0] == '-' || IsDecimalDigit(str[0]))
    ensures TrimStart(str) == str
  {
    assert !IsSpace(str[0]);
  }

  /** `parseInt` reads the numeral of any integer back as that integer. */
  lemma ParseIntNumeral(n: int)
    ensures ParseIntString(NumberToString(n)) == Some(n)
  {
    if n < 0 {
      ParseNegative(n);
    } else {
      ParseNonNegative(n);
    }
  }

  lemma ParseNonNegative(n: int)
    requires n >= 0
    ensures ParseIntString(NumberToString(n)) == Some(n)
  {
    ParseDecimal(n);
    ParseUnsigned(DecimalDigits(n), n);
  }

  lemma ParseNegative(n: int)
    requires n < 0
    ensures ParseIntString(NumberToString(n)) == Some(n)
  {
    ParseDecimal(-n);
    ParseMinus(DecimalDigits(-n), -n);
  }

  /** A run of decimal digits reads as the number it denotes. */
  lemma ParseUnsigned(d: string, m: nat)
    requires d != [] && IsDecimalDigit(d[0]) && ParseDigits(d) == Some(m)
    ensures ParseIntString(d) == Some(m)
  {
    TrimStartNumeral(d);
  }

  /** A minus sign before a run of decimal digits negates what the digits denote. */
  lemma ParseMinus(d: string, m: nat)
    requires d != [] && IsDecimalDigit(d[0]) && ParseDigits(d) == Some(m)
    ensures ParseIntString("-" + d) == Some(-(m as int))
  {
    var str := "-" + d;
    TrimStartNumeral(str);
    assert str[1..] == d;
  }
}
