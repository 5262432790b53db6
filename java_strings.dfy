/** The parts of java.lang.String and java.lang.Integer the core relies on:
    trim(), lastIndexOf(char, int), Integer.parseInt, the decimal rendering of a
    non-negative int, and ASCII case mapping. A Java string is a sequence of
    UTF-16 code units, while a `string` here is a sequence of Unicode scalar values;
    the two agree on text within the Basic Multilingual Plane, which is the text
    this model covers (a character outside it is one `char` here but two units in
    Java). */
module JavaStrings {
  import opened Common

  /** `c <= ' '`: the characters String.trim() removes. */
  predicate IsTrimmable(c: char) { c <= ' ' }

  /** `s.trim().isEmpty()`: every character is trimmable. */
  ghost predicate IsBlank(s: string)
  {
    forall k :: 0 <= k < |s| ==> IsTrimmable(s[k])
  }

  /** The first index at or after `i` that holds a character trim() keeps, or `|s|`. */
  function TrimStart(s: string, i: nat): (a: nat)
    requires i <= |s|
    ensures i <= a <= |s|
    ensures forall k :: i <= k < a ==> IsTrimmable(s[k])
    ensures a < |s| ==> !IsTrimmable(s[a])
    decreases |s| - i
  {
    if i < |s| && IsTrimmable(s[i]) then TrimStart(s, i + 1) else i
  }

  /** The end of `s[lo..hi]` once its trailing trimmable characters are dropped. */
  function TrailingEnd(s: string, lo: nat, hi: nat): (e: nat)
    requires lo <= hi <= |s|
    ensures lo <= e <= hi
    ensures forall k :: e <= k < hi ==> IsTrimmable(s[k])
    ensures e > lo ==> !IsTrimmable(s[e - 1])
    decreases hi
  {
    if hi > lo && IsTrimmable(s[hi - 1]) then TrailingEnd(s, lo, hi - 1) else hi
  }

  /** String.trim(): `s` without its leading and trailing trimmable characters. */
  function Trim(s: string): (r: string)
    ensures |r| <= |s|
  {
    var a := TrimStart(s, 0);
    s[a..TrailingEnd(s, a, |s|)]
  }

  /** trim() gives "" exactly for blank strings; otherwise its result starts and ends
      with a character that is not trimmable. */
  lemma TrimSpec(s: string)
    ensures Trim(s) == [] <==> IsBlank(s)
    ensures Trim(s) != [] ==> !IsTrimmable(Trim(s)[0]) && !IsTrimmable(Trim(s)[|Trim(s)| - 1])
  {
  }

  /** A trimmed string as long as its original is that original. */
  lemma TrimKeepsFullLength(s: string)
    requires |Trim(s)| == |s|
    ensures Trim(s) == s
  {
  }

  /** Trimming twice is trimming once. */
  lemma TrimIdempotent(s: string)
    ensures Trim(Trim(s)) == Trim(s)
  {
    TrimSpec(s);
    var r := Trim(s);
    if r != [] {
      assert TrimStart(r, 0) == 0;
      assert TrailingEnd(r, 0, |r|) == |r|;
    }
  }

  /** String.lastIndexOf(c, from): the greatest index `<= from` holding `c`, or -1.
      A `from` beyond the end searches the whole string; a negative one finds nothing. */
  function LastIndexOf(s: string, c: char, from: int): (r: int)
    ensures -1 <= r < |s| && (r == -1 || r <= from)
    ensures r >= 0 ==> s[r] == c
    decreases if from < 0 then 0 else if from < |s| then from + 1 else |s| + 1
  {
    if from < 0 || s == [] then -1
    else if from >= |s| then LastIndexOf(s, c, |s| - 1)
    else if s[from] == c then from
    else LastIndexOf(s, c, from - 1)
  }

  /** No occurrence of `c` lies after the index lastIndexOf reports, up to `from`. */
  lemma {:induction false} LastIndexOfIsLast(s: string, c: char, from: int)
    ensures forall k :: LastIndexOf(s, c, from) < k < |s| && k <= from ==> s[k] != c
    decreases if from < 0 then 0 else if from < |s| then from + 1 else |s| + 1
  {
    if from < 0 || s == [] {
    } else if from >= |s| {
      LastIndexOfIsLast(s, c, |s| - 1);
    } else if s[from] != c {
      LastIndexOfIsLast(s, c, from - 1);
    }
  }

  predicate IsDigit(c: char) { '0' <= c <= '9' }

  ghost predicate AllDigits(s: string)
  {
    forall k :: 0 <= k < |s| ==> IsDigit(s[k])
  }

  /** The value of a run of decimal digits, most significant first. */
  function DigitsValue(s: string): (v: nat)
    requires AllDigits(s)
  {
    if s == [] then 0
    else DigitsValue(s[..|s| - 1]) * 10 + (s[|s| - 1] - '0') as nat
  }

  const INT_MIN: int := -0x8000_0000
  const INT_MAX: int := 0x7FFF_FFFF

  /** Integer.parseInt(s) for ASCII digits: an optional sign, at least one digit,
      nothing else, and a value that fits a 32-bit int; `None` is the
      NumberFormatException. */
  function ParseInt(s: string): (r: Option<int>)
    ensures r.Some? ==> INT_MIN <= r.value <= INT_MAX
    ensures AllDigits(s) && s != [] && DigitsValue(s) <= INT_MAX ==> r == Some(DigitsValue(s))
    ensures s == [] || s == "-" || s == "+" ==> r.None?
    ensures s != [] && !IsDigit(s[0]) && s[0] != '-' && s[0] != '+' ==> r.None?
    ensures forall k :: 0 < k < |s| && !IsDigit(s[k]) ==> r.None?
    ensures AllDigits(s) && s != [] && DigitsValue(s) > INT_MAX ==> r.None?
    ensures |s| > 1 && s[0] == '+' && AllDigits(s[1..]) ==>
      r == (if DigitsValue(s[1..]) <= INT_MAX then Some(DigitsValue(s[1..]) as int) else None)
    ensures |s| > 1 && s[0] == '-' && AllDigits(s[1..]) ==>
      r == (if -(DigitsValue(s[1..]) as int) >= INT_MIN then Some(-(DigitsValue(s[1..]) as int)) else None)
  {
    if s == [] then None
    else
      var signed := s[0] == '-' || s[0] == '+';
      var digits := if signed then s[1..] else s;
      if digits == [] then None
      else if exists k :: 0 <= k < |digits| && !IsDigit(digits[k]) then None
      else
        var v: int := if s[0] == '-' then -(DigitsValue(digits) as int) else DigitsValue(digits);
        if INT_MIN <= v <= INT_MAX then Some(v) else None
  }

  function DigitChar(d: nat): (c: char)
    requires d < 10
    ensures IsDigit(c) && (c - '0') as nat == d
  {
    ('0' as int + d) as char
  }

  /** The decimal rendering of a non-negative int, as string concatenation gives it. */
  function NatToString(n: nat): (s: string)
    ensures s != [] && AllDigits(s)
    ensures s[0] == '0' ==> n == 0
    decreases n
  {
    if n < 10 then [DigitChar(n)] else NatToString(n / 10) + [DigitChar(n % 10)]
  }

  /** Rendering a count and parsing it back gives the count again. */
  lemma {:induction false} DigitsValueOfNatToString(n: nat)
    ensures DigitsValue(NatToString(n)) == n
    decreases n
  {
    if n >= 10 {
      DigitsValueOfNatToString(n / 10);
      var s := NatToString(n);
      assert s[..|s| - 1] == NatToString(n / 10);
    }
  }

  lemma ParseIntOfNatToString(n: nat)
    requires n <= INT_MAX
    ensures ParseInt(NatToString(n)) == Some(n)
  {
    DigitsValueOfNatToString(n);
  }

  /** String.toUpperCase() restricted to ASCII letters. */
  function UpperAscii(s: string): (r: string)
    ensures |r| == |s|
    ensures forall k :: 0 <= k < |s| ==>
      r[k] == (if 'a' <= s[k] <= 'z' then (s[k] as int - 32) as char else s[k])
  {
    if s == [] then [] else
      var c := s[0];
      [if 'a' <= c <= 'z' then (c as int - 32) as char else c] + UpperAscii(s[1..])
  }

  /** String.toLowerCase() restricted to ASCII letters. */
  function LowerAscii(s: string): (r: string)
    ensures |r| == |s|
    ensures forall k :: 0 <= k < |s| ==>
      r[k] == (if 'A' <= s[k] <= 'Z' then (s[k] as int + 32) as char else s[k])
  {
    if s == [] then [] else
      var c := s[0];
      [if 'A' <= c <= 'Z' then (c as int + 32) as char else c] + LowerAscii(s[1..])
  }
}
