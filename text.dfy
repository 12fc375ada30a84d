/**
 * The few operations on Python `str` values that the exchange and the agents
 * rely on: `split()` without arguments, `isspace()`, `isdigit()`, `int()`,
 * the substring test `p in s`, and the decimal rendering that an f-string
 * gives an `int`.
 */
module Text {
  import opened Wrappers

  /** Python's `str.isspace()` on one character. */
  predicate IsSpace(c: char) {
    c == ' ' || ('\t' <= c <= '\r') || ('\U{1C}' <= c <= '\U{1F}')
    || c == '\U{85}' || c == '\U{A0}' || c == '\U{1680}'
    || ('\U{2000}' <= c <= '\U{200A}') || c == '\U{2028}' || c == '\U{2029}'
    || c == '\U{202F}' || c == '\U{205F}' || c == '\U{3000}'
  }

  predicate NoSpace(s: string) {
    forall i :: 0 <= i < |s| ==> !IsSpace(s[i])
  }

  /** `s.strip()` is empty exactly when every character of `s` is whitespace. */
  predicate IsBlank(s: string) {
    forall i :: 0 <= i < |s| ==> IsSpace(s[i])
  }

  /** What one element of the list returned by `str.split()` looks like. */
  predicate IsToken(s: string) {
    s != [] && NoSpace(s)
  }

  /** Length of the run of non-whitespace characters at the front of `s`. */
  function TokenLength(s: string): (n: nat)
    ensures n <= |s|
    ensures forall i :: 0 <= i < n ==> !IsSpace(s[i])
    ensures n < |s| ==> IsSpace(s[n])
  {
    if s == [] || IsSpace(s[0]) then 0 else 1 + TokenLength(s[1..])
  }

  /** Python's `s.split()`: the maximal runs of non-whitespace characters, in order. */
  function Split(s: string): (r: seq<string>)
    ensures forall i :: 0 <= i < |r| ==> IsToken(r[i])
    decreases |s|
  {
    if s == [] then []
    else if IsSpace(s[0]) then Split(s[1..])
    else
      var n := TokenLength(s);
      [s[..n]] + Split(s[n..])
  }

  /** `s.split()` is empty exactly when `s.strip()` is: the string is all whitespace. */
  lemma {:induction false} SplitEmptyIffBlank(s: string)
    ensures Split(s) == [] <==> IsBlank(s)
    decreases |s|
  {
    if s != [] {
      if IsSpace(s[0]) {
        SplitEmptyIffBlank(s[1..]);
        if IsBlank(s[1..]) {
          forall i | 0 <= i < |s| ensures IsSpace(s[i]) {
            if i > 0 { assert s[i] == s[1..][i - 1]; }
          }
        }
      }
    }
  }

  lemma {:induction false} TokenLengthOfToken(t: string, rest: string)
    requires NoSpace(t)
    requires rest == [] || IsSpace(rest[0])
    ensures TokenLength(t + rest) == |t|
    decreases |t|
  {
    if t != [] {
      assert (t + rest)[1..] == t[1..] + rest;
      TokenLengthOfToken(t[1..], rest);
    }
  }

  /** A token followed by whitespace (or by nothing) is the first field of the split. */
  lemma SplitLeadingToken(t: string, rest: string)
    requires IsToken(t)
    requires rest == [] || IsSpace(rest[0])
    ensures Split(t + rest) == [t] + Split(rest)
  {
    TokenLengthOfToken(t, rest);
    var s := t + rest;
    assert s[..|t|] == t;
    assert s[|t|..] == rest;
  }

  lemma SplitOneToken(t: string)
    requires IsToken(t)
    ensures Split(t) == [t]
  {
    SplitLeadingToken(t, []);
    assert t + [] == t;
  }

  /** Splitting `"<a> <b>"` gives back the two fields. */
  lemma SplitTwoTokens(a: string, b: string)
    requires IsToken(a) && IsToken(b)
    ensures Split(a + " " + b) == [a, b]
  {
    SplitLeadingToken(a, " " + b);
    assert a + " " + b == a + (" " + b);
    assert (" " + b)[1..] == b;
    SplitOneToken(b);
  }

  predicate StartsWith(s: string, p: string) {
    |p| <= |s| && s[..|p|] == p
  }

  /** Python's substring test `p in s`. */
  predicate Contains(s: string, p: string)
    decreases |s|
  {
    StartsWith(s, p) || (s != [] && Contains(s[1..], p))
  }

  /** A string none of whose characters is the first character of `p` does not contain `p`. */
  lemma {:induction false} NotContains(s: string, p: string)
    requires p != []
    requires forall i :: 0 <= i < |s| ==> s[i] != p[0]
    ensures !Contains(s, p)
    decreases |s|
  {
    if s != [] {
      if |p| <= |s| { assert s[..|p|][0] == s[0]; }
      NotContains(s[1..], p);
    }
  }

  predicate IsDigit(c: char) {
    '0' <= c <= '9'
  }

  /** Python's `str.isdigit()` for ASCII digits: non-empty and nothing but digits. */
  predicate IsDigits(s: string) {
    s != [] && forall i :: 0 <= i < |s| ==> IsDigit(s[i])
  }

  function DigitValue(c: char): nat
    requires IsDigit(c)
  {
    (c as int) - ('0' as int)
  }

  function DigitChar(d: nat): (c: char)
    requires d < 10
    ensures IsDigit(c) && DigitValue(c) == d
  {
    (('0' as int) + d) as char
  }

  /** The decimal rendering of a natural number, as `f"{n}"` produces it. */
  function NatToString(n: nat): (s: string)
    ensures IsDigits(s)
  {
    if n < 10 then [DigitChar(n)] else NatToString(n / 10) + [DigitChar(n % 10)]
  }

  /** The decimal rendering of an integer, with a leading '-' when it is negative. */
  function IntToString(i: int): (s: string)
    ensures IsToken(s)
  {
    if i < 0 then "-" + NatToString(-i) else NatToString(i)
  }

  /** The value of a string of decimal digits. */
  function DigitsValue(s: string): nat
    requires forall i :: 0 <= i < |s| ==> IsDigit(s[i])
  {
    if s == [] then 0 else 10 * DigitsValue(s[..|s| - 1]) + DigitValue(s[|s| - 1])
  }

  /**
   * Python's `int(s)` on one field of a split: an optional sign followed by
   * decimal digits; anything else raises `ValueError`, modelled as `None`.
   */
  function ParseInt(s: string): Option<int> {
    if s != [] && (s[0] == '-' || s[0] == '+') then
      if IsDigits(s[1..]) then
        var magnitude: int := DigitsValue(s[1..]);
        Some(if s[0] == '-' then -magnitude else magnitude)
      else None
    else if IsDigits(s) then Some(DigitsValue(s))
    else None
  }

  /** Python's `int(s)` on a whole string: surrounding whitespace is allowed, inner whitespace is not. */
  function PyInt(s: string): Option<int> {
    var w := Split(s);
    if |w| == 1 then ParseInt(w[0]) else None
  }

  lemma {:induction false} DigitsValueOfNatToString(n: nat)
    ensures DigitsValue(NatToString(n)) == n
  {
    if n >= 10 {
      var s := NatToString(n);
      assert s[..|s| - 1] == NatToString(n / 10);
      DigitsValueOfNatToString(n / 10);
    }
  }

  /** Reading back a rendered integer gives the integer: `int(str(i)) == i`. */
  lemma ParseIntOfIntToString(i: int)
    ensures ParseInt(IntToString(i)) == Some(i)
  {
    if i < 0 {
      var s := IntToString(i);
      assert s[1..] == NatToString(-i);
      DigitsValueOfNatToString(-i);
    } else {
      DigitsValueOfNatToString(i);
    }
  }

  /** Distinct numbers render to distinct strings. */
  lemma NatToStringInjective(m: nat, n: nat)
    ensures NatToString(m) == NatToString(n) ==> m == n
  {
    DigitsValueOfNatToString(m);
    DigitsValueOfNatToString(n);
  }

  /** `f"{id} {price}"`: a ticket and its price, the form of every purchase reply and of every peer offer. */
  function PriceLine(id: string, price: int): string {
    id + " " + IntToString(price)
  }

  /** Reading a price line back with `split()` and `int()` gives the ticket and the price. */
  lemma ReadPriceLine(id: string, price: int)
    requires IsToken(id)
    ensures Split(PriceLine(id, price)) == [id, IntToString(price)]
    ensures ParseInt(IntToString(price)) == Some(price)
  {
    SplitTwoTokens(id, IntToString(price));
    ParseIntOfIntToString(price);
  }

  /**
   * A price line for a numeric ticket id holds only digits, a space and
   * perhaps a minus sign, so it contains no word such as NOFUNDS or SOLDOUT.
   */
  lemma PriceLineLacksWord(id: string, price: int, w: string)
    requires IsDigits(id)
    requires w != [] && !IsDigit(w[0]) && w[0] != ' ' && w[0] != '-'
    ensures !Contains(PriceLine(id, price), w)
  {
    var s := PriceLine(id, price);
    var n := IntToString(price);
    forall i | 0 <= i < |s| ensures s[i] != w[0] {
      if i > |id| {
        assert s[i] == n[i - |id| - 1];
        if price < 0 {
          assert n == "-" + NatToString(-price);
          if i - |id| - 1 > 0 {
            assert n[i - |id| - 1] == NatToString(-price)[i - |id| - 2];
          }
        }
      }
    }
    NotContains(s, w);
  }
}
