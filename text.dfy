/**
 * The Python string operations the handlers rely on, restricted to ASCII:
 * `str.lower`, `str.upper`, `str.strip`, the substring test `needle in hay`,
 * truthiness of an optional string, and `int(s)` on a decimal string.
 */
module Text {
  import opened Wrappers

  /** Python truthiness of an optional string: present and non-empty. */
  predicate Truthy(s: Option<string>) {
    s.Some? && s.value != ""
  }

  /** `str.isspace` on ASCII: tab through carriage return, the four separators 0x1C-0x1F, space. */
  predicate IsSpace(c: char) {
    9 <= c as int <= 13 || 28 <= c as int <= 32
  }

  /** The whitespace `int()` skips around its digits: tab through carriage return, and space. */
  predicate IsIntSpace(c: char) {
    9 <= c as int <= 13 || c == ' '
  }

  /** The two sets of whitespace in play: that of `str.strip()` and that of `int()`. */
  datatype Whitespace = StrWhitespace | IntWhitespace

  predicate IsWhite(w: Whitespace, c: char) {
    match w
    case StrWhitespace => IsSpace(c)
    case IntWhitespace => IsIntSpace(c)
  }

  function LowerChar(c: char): char {
    if 'A' <= c <= 'Z' then (c as int + 32) as char else c
  }

  function UpperChar(c: char): char {
    if 'a' <= c <= 'z' then (c as int - 32) as char else c
  }

  /** `str.lower()` on ASCII. */
  function Lower(s: string): string {
    seq(|s|, i requires 0 <= i < |s| => LowerChar(s[i]))
  }

  /** `str.upper()` on ASCII. */
  function Upper(s: string): string {
    seq(|s|, i requires 0 <= i < |s| => UpperChar(s[i]))
  }

  /** `Lower(s)` is `s` without capitals: the same length, and equal to `s` up to case. */
  lemma LowerIsCaseless(s: string)
    ensures |Lower(s)| == |s|
    ensures forall i :: 0 <= i < |s| ==> !('A' <= Lower(s)[i] <= 'Z')
    ensures forall i :: 0 <= i < |s| ==> UpperChar(Lower(s)[i]) == UpperChar(s[i])
  {
  }

  /** `Upper(s)` is `s` without small letters: the same length, and equal to `s` up to case. */
  lemma UpperIsCaseless(s: string)
    ensures |Upper(s)| == |s|
    ensures forall i :: 0 <= i < |s| ==> !('a' <= Upper(s)[i] <= 'z')
    ensures forall i :: 0 <= i < |s| ==> LowerChar(Upper(s)[i]) == LowerChar(s[i])
  {
  }


  /** Drops leading whitespace of kind `w`: what is left is a suffix of `s` that does not start with it. */
  function TrimStart(s: string, w: Whitespace): (r: string)
    ensures |r| <= |s| && r == s[|s| - |r|..]
    ensures forall k :: 0 <= k < |s| - |r| ==> IsWhite(w, s[k])
    ensures r != [] ==> !IsWhite(w, r[0])
  {
    if s != [] && IsWhite(w, s[0]) then TrimStart(s[1..], w) else s
  }

  /** Drops trailing whitespace of kind `w`: what is left is a prefix of `s` that does not end with it. */
  function TrimEnd(s: string, w: Whitespace): (r: string)
    ensures |r| <= |s| && r == s[..|r|]
    ensures forall k :: |r| <= k < |s| ==> IsWhite(w, s[k])
    ensures r != [] ==> !IsWhite(w, r[|r| - 1])
  {
    if s != [] && IsWhite(w, s[|s| - 1]) then TrimEnd(s[..|s| - 1], w) else s
  }

  /** Every character of `s` before position `a` and from position `b` on is whitespace of kind `w`. */
  predicate SpaceOutside(s: string, w: Whitespace, a: nat, b: nat) {
    && (forall k :: 0 <= k < a && k < |s| ==> IsWhite(w, s[k]))
    && (forall k :: b <= k < |s| ==> IsWhite(w, s[k]))
  }

  /** A prefix `r` of a suffix `t` of `s` is a slice of `s`, followed in `s` by the rest of `t`. */
  lemma SliceOfSuffix(s: string, t: string, r: string)
    requires |t| <= |s| && t == s[|s| - |t|..]
    requires |r| <= |t| && r == t[..|r|]
    ensures r == s[|s| - |t|..|s| - |t| + |r|]
    ensures forall k :: |s| - |t| + |r| <= k < |s| ==> s[k] == t[k - (|s| - |t|)]
  {
  }

  /**
   * `s` with whitespace of kind `w` removed from both ends and nothing else:
   * `str.strip()` with `StrWhitespace`, the trimming of `int()` with `IntWhitespace`.
   */
  function Strip(s: string, w: Whitespace): (r: string)
    ensures exists a: nat, b: nat :: a <= b <= |s| && r == s[a..b] && SpaceOutside(s, w, a, b)
    ensures |r| <= |s|
    ensures r != [] ==> !IsWhite(w, r[0]) && !IsWhite(w, r[|r| - 1])
    ensures (s == [] || (!IsWhite(w, s[0]) && !IsWhite(w, s[|s| - 1]))) ==> r == s
  {
    var t := TrimStart(s, w);
    var r := TrimEnd(t, w);
    SliceOfSuffix(s, t, r);
    r
  }

  /** `needle` occurs in `hay` starting at position `i`. */
  predicate OccursAt(needle: string, hay: string, i: nat) {
    i + |needle| <= |hay| && hay[i..i + |needle|] == needle
  }

  lemma OccursStep(needle: string, hay: string)
    requires hay != []
    ensures (exists i: nat :: OccursAt(needle, hay, i)) <==>
            OccursAt(needle, hay, 0) || exists i: nat :: OccursAt(needle, hay[1..], i)
  {
    forall i: nat | OccursAt(needle, hay[1..], i)
      ensures OccursAt(needle, hay, i + 1)
    {
      assert hay[1..][i..i + |needle|] == hay[i + 1..i + 1 + |needle|];
    }
    forall i: nat | i > 0 && OccursAt(needle, hay, i)
      ensures OccursAt(needle, hay[1..], i - 1)
    {
      assert hay[1..][i - 1..i - 1 + |needle|] == hay[i..i + |needle|];
    }
  }

  /** Python's substring test `needle in hay`. */
  function Contains(hay: string, needle: string): (b: bool)
    ensures b <==> exists i: nat :: OccursAt(needle, hay, i)
    decreases |hay|
  {
    if |needle| > |hay| then false
    else if hay[..|needle|] == needle then assert OccursAt(needle, hay, 0); true
    else OccursStep(needle, hay); Contains(hay[1..], needle)
  }

  predicate IsDigit(c: char) {
    '0' <= c <= '9'
  }

  predicate AllDigits(ds: string) {
    forall i :: 0 <= i < |ds| ==> IsDigit(ds[i])
  }

  /**
   * The digit part that `int()` accepts in base 10: digits, with single
   * underscores allowed between two digits.
   */
  predicate WellFormedDecimal(b: string) {
    && |b| > 0 && IsDigit(b[0]) && IsDigit(b[|b| - 1])
    && (forall i :: 0 <= i < |b| ==> IsDigit(b[i]) || b[i] == '_')
    && (forall i :: 0 <= i < |b| - 1 ==> b[i] != '_' || b[i + 1] != '_')
  }

  function RemoveUnderscores(b: string): (ds: string)
    ensures (forall i :: 0 <= i < |b| ==> IsDigit(b[i]) || b[i] == '_') ==> AllDigits(ds)
    ensures AllDigits(b) ==> ds == b
  {
    if b == [] then []
    else (if b[0] == '_' then [] else [b[0]]) + RemoveUnderscores(b[1..])
  }

  function DecimalValue(ds: string): nat
    requires AllDigits(ds)
  {
    if ds == [] then 0
    else DecimalValue(ds[..|ds| - 1]) * 10 + (ds[|ds| - 1] as int - '0' as int)
  }

  /**
   * Python's `int(s)` on a string: tabs, line breaks, vertical tabs, form
   * feeds, carriage returns and spaces around the number are ignored (the
   * separators 0x1C-0x1F are not), then one optional sign and a well-formed
   * run of decimal digits; anything else raises `ValueError`, here `None`.
   */
  function ParseInt(s: string): (r: Option<int>)
    ensures r.Some? ==> var t := Strip(s, IntWhitespace);
      t != "" && IsDigit(t[|t| - 1]) && forall i :: 1 <= i < |t| ==> IsDigit(t[i]) || t[i] == '_'
  {
    var t := Strip(s, IntWhitespace);
    if |t| > 0 && (t[0] == '+' || t[0] == '-') then
      var body := t[1..];
      if WellFormedDecimal(body) then
        var n: int := DecimalValue(RemoveUnderscores(body));
        Some(if t[0] == '-' then -n else n)
      else None
    else if WellFormedDecimal(t) then Some(DecimalValue(RemoveUnderscores(t)))
    else None
  }

  /** Decimal rendering of a natural number, most significant digit first. */
  function NatToString(n: nat): (s: string)
    ensures |s| > 0 && AllDigits(s)
  {
    var d := [(n % 10 + '0' as int) as char];
    if n < 10 then d else NatToString(n / 10) + d
  }

  /** Python's `str(n)` for an integer. */
  function IntToString(n: int): (s: string)
    ensures |s| > 0 && (s[0] == '-' <==> n < 0)
    ensures forall i :: (if n < 0 then 1 else 0) <= i < |s| ==> IsDigit(s[i])
  {
    if n < 0 then "-" + NatToString(-n) else NatToString(n)
  }

  lemma {:induction false} DecimalValueOfNatToString(n: nat)
    ensures DecimalValue(NatToString(n)) == n
  {
    var s := NatToString(n);
    if n >= 10 {
      assert s[..|s| - 1] == NatToString(n / 10);
      DecimalValueOfNatToString(n / 10);
    }
  }

  lemma {:induction false} NatToStringIsDecimal(m: nat)
    ensures var ds := NatToString(m);
      WellFormedDecimal(ds) && DecimalValue(RemoveUnderscores(ds)) == m && Strip(ds, IntWhitespace) == ds
  {
    var ds := NatToString(m);
    DecimalValueOfNatToString(m);
    assert RemoveUnderscores(ds) == ds;
    assert IsDigit(ds[0]) && IsDigit(ds[|ds| - 1]);
  }

  lemma NatRoundTrip(m: nat)
    ensures ParseInt(NatToString(m)) == Some(m)
  {
    NatToStringIsDecimal(m);
    var ds := NatToString(m);
    assert ds[0] != '+' && ds[0] != '-';
  }

  lemma NegativeRoundTrip(m: nat)
    requires m > 0
    ensures ParseInt("-" + NatToString(m)) == Some(-(m as int))
  {
    NatToStringIsDecimal(m);
    var ds := NatToString(m);
    var t := "-" + ds;
    assert t[1..] == ds;
    assert t[|t| - 1] == ds[|ds| - 1];
    assert Strip(t, IntWhitespace) == t;
  }

  /** `int(str(n)) == n`: the rendering of every integer is accepted and read back unchanged. */
  lemma ParseIntRoundTrip(n: int)
    ensures ParseInt(IntToString(n)) == Some(n)
  {
    if n < 0 {
      NegativeRoundTrip(-n);
    } else {
      NatRoundTrip(n);
    }
  }

  /**
   * An information separator (0x1C-0x1F) is whitespace to `str.strip()` but
   * not to `int()`: a string that starts with one is never an integer.
   */
  lemma SeparatorIsNotIntSpace(s: string)
    requires s != [] && 28 <= s[0] as int <= 31
    ensures ParseInt(s) == None
  {
    var t := Strip(s, IntWhitespace);
    if t != [] {
      assert t[0] == s[0];
    }
  }
}


