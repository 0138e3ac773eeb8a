/**
 * Decimal numerals as Python reads and writes them: `str(n)` for an integer
 * and `int(s)` for a string, restricted to ASCII digits.
 */
module Numerals {
  import opened Values
  import opened Text

  predicate IsDigit(c: char) {
    '0' <= c <= '9'
  }

  function DigitChar(d: nat): (c: char)
    requires d < 10
    ensures IsDigit(c) && (c as int) - ('0' as int) == d
  {
    (d + '0' as int) as char
  }

  /** `str(n)` for a non-negative integer: its decimal digits, most
      significant first, without leading zeros. */
  function NatToString(n: nat): (r: string)
    ensures r != [] && forall k :: 0 <= k < |r| ==> IsDigit(r[k])
    ensures r[0] == '0' ==> n == 0
    decreases n
  {
    if n < 10 then [DigitChar(n)] else NatToString(n / 10) + [DigitChar(n % 10)]
  }

  /** `str(i)` */
  function IntToString(i: int): (r: string)
    ensures r != []
    ensures i >= 0 ==> r == NatToString(i)
    ensures i < 0 ==> r == "-" + NatToString(-i)
  {
    if i < 0 then "-" + NatToString(-i) else NatToString(i)
  }

  /** The value of a string of decimal digits. */
  function DigitsValue(s: string): nat
    requires forall k :: 0 <= k < |s| ==> IsDigit(s[k])
    decreases |s|
  {
    if s == [] then 0
    else
      var last := s[|s| - 1];
      assert IsDigit(last);
      10 * DigitsValue(s[..|s| - 1]) + ((last as int) - ('0' as int))
  }

  /** The body `int()` accepts after an optional sign: digits, with single
      underscores allowed between two digits. */
  predicate ValidDigitGroups(s: string) {
    && s != []
    && IsDigit(s[0]) && IsDigit(s[|s| - 1])
    && (forall k :: 0 <= k < |s| ==> IsDigit(s[k]) || s[k] == '_')
    && (forall k :: 0 <= k < |s| - 1 ==> !(s[k] == '_' && s[k + 1] == '_'))
  }

  function RemoveUnderscores(s: string): (r: string)
    ensures |r| <= |s|
    ensures (forall k :: 0 <= k < |s| ==> IsDigit(s[k]) || s[k] == '_') ==>
              forall k :: 0 <= k < |r| ==> IsDigit(r[k])
    decreases |s|
  {
    if s == [] then []
    else if s[|s| - 1] == '_' then RemoveUnderscores(s[..|s| - 1])
    else RemoveUnderscores(s[..|s| - 1]) + [s[|s| - 1]]
  }

  /** The value of a digit body that `ValidDigitGroups` accepts. */
  function GroupsValue(s: string): nat
    requires ValidDigitGroups(s)
  {
    DigitsValue(RemoveUnderscores(s))
  }

  /** `int(s)`: surrounding whitespace is ignored, an optional sign is
      followed by the digit body; anything else is a `ValueError` (None). */
  function ParseInt(s: string): (r: Option<int>)
    ensures r.Some? ==> Strip(s) != []
    ensures r.Some? && r.value < 0 ==> Strip(s)[0] == '-'
  {
    ParseStripped(Strip(s))
  }

  /** `int(t)` for a text without surrounding whitespace. */
  function ParseStripped(t: string): (r: Option<int>)
    ensures r.Some? ==> t != []
    ensures r.Some? && r.value < 0 ==> t[0] == '-'
  {
    if t == [] then None
    else if t[0] == '+' || t[0] == '-' then
      var body := t[1..];
      if ValidDigitGroups(body) then
        var v: int := GroupsValue(body);
        Some(if t[0] == '-' then -v else v)
      else None
    else if ValidDigitGroups(t) then Some(GroupsValue(t))
    else None
  }

  lemma {:induction false} NatToStringValue(n: nat)
    ensures DigitsValue(NatToString(n)) == n
    decreases n
  {
    var r := NatToString(n);
    if n >= 10 {
      NatToStringValue(n / 10);
      assert r[..|r| - 1] == NatToString(n / 10);
    }
  }

  lemma {:induction false} RemoveUnderscoresNone(s: string)
    requires forall k :: 0 <= k < |s| ==> s[k] != '_'
    ensures RemoveUnderscores(s) == s
    decreases |s|
  {
    if s != [] {
      RemoveUnderscoresNone(s[..|s| - 1]);
    }
  }

  /** A digit string has no whitespace at its ends, so `strip()` keeps it. */
  lemma DigitsStripped(s: string)
    requires forall k :: 0 <= k < |s| ==> IsDigit(s[k]) || s[k] == '-'
    ensures Strip(s) == s
  {
    StripNoEdges(s);
  }

  /** The digits of `str(n)` form a body `int()` accepts, worth `n`. */
  lemma NatToStringGroups(n: nat)
    ensures ValidDigitGroups(NatToString(n)) && GroupsValue(NatToString(n)) == n
  {
    var d := NatToString(n);
    NatToStringValue(n);
    RemoveUnderscoresNone(d);
  }

  /** `int(str(i)) == i` for a non-negative integer. */
  lemma ParseNatToString(i: int)
    requires i >= 0
    ensures ParseInt(IntToString(i)) == Some(i)
  {
    var d := NatToString(i);
    assert IntToString(i) == d;
    NatToStringGroups(i);
    DigitsStripped(d);
  }

  lemma ParseStrippedMinus(d: string)
    requires ValidDigitGroups(d)
    ensures ParseStripped("-" + d) == Some(-(GroupsValue(d) as int))
  {
    assert ("-" + d)[1..] == d;
  }

  /** A minus sign followed by digits has no whitespace at its ends. */
  lemma MinusDigitsStripped(d: string)
    requires forall k :: 0 <= k < |d| ==> IsDigit(d[k])
    ensures Strip("-" + d) == "-" + d
  {
    var s := "-" + d;
    forall k | 0 <= k < |s| ensures IsDigit(s[k]) || s[k] == '-' {
      if k > 0 { assert s[k] == d[k - 1]; }
    }
    DigitsStripped(s);
  }

  /** Reading a text that `strip()` keeps is reading it as it stands. */
  lemma ParseUnstripped(s: string)
    requires Strip(s) == s
    ensures ParseInt(s) == ParseStripped(s)
  {
  }

  /** `int(str(i)) == i` for a negative integer. */
  lemma ParseNegToString(i: int)
    requires i < 0
    ensures ParseInt(IntToString(i)) == Some(i)
  {
    var n: nat := -i;
    var d := NatToString(n);
    var s := IntToString(i);
    assert s == "-" + d;
    NatToStringGroups(n);
    MinusDigitsStripped(d);
    ParseUnstripped(s);
    ParseStrippedMinus(d);
    assert ParseStripped(s) == Some(i);
  }

  /** `int(str(i)) == i` for every integer. */
  lemma ParseIntToString(i: int)
    ensures ParseInt(IntToString(i)) == Some(i)
  {
    if i < 0 {
      ParseNegToString(i);
    } else {
      ParseNatToString(i);
    }
  }

  /** Blank text is not a number. */
  lemma ParseIntBlank(s: string)
    requires forall k :: 0 <= k < |s| ==> IsSpace(s[k])
    ensures ParseInt(s) == None
  {
    StripSpec(s);
  }

  lemma StripPaddedZeros()
    ensures Strip(" 007 ") == "007"
  {
    assert TrimLeft(" 007 ", true, ' ') == "007 ";
    assert TrimRight("007 ", true, ' ') == "007";
  }

  /** Appending a digit multiplies the value by ten and adds the digit. */
  lemma DigitsValueSnoc(s: string, c: char)
    requires forall k :: 0 <= k < |s| ==> IsDigit(s[k])
    requires IsDigit(c)
    ensures DigitsValue(s + [c]) == 10 * DigitsValue(s) + ((c as int) - ('0' as int))
  {
    assert (s + [c])[..|s|] == s;
  }

  lemma ZerosValue()
    ensures ValidDigitGroups("007") && GroupsValue("007") == 7
  {
    RemoveUnderscoresNone("007");
    DigitsValueSnoc("", '0');
    DigitsValueSnoc("0", '0');
    DigitsValueSnoc("00", '7');
    assert "007" == "00" + ['7'];
  }

  /** Leading zeros and surrounding whitespace are accepted. */
  lemma ParseIntLeadingZeros()
    ensures ParseInt(" 007 ") == Some(7)
  {
    StripPaddedZeros();
    ZerosValue();
  }

  /** A sign and a single digit separator are accepted. */
  lemma ParseIntSeparator()
    ensures ParseInt("-1_000") == Some(-1000)
  {
    var s := "-1_000";
    assert Strip(s) == s by { StripNoEdges(s); }
    assert s[1..] == "1_000";
    assert ValidDigitGroups("1_000");
    assert RemoveUnderscores("1_000") == "1000" by {
      assert "1_000"[..4] == "1_00";
      assert "1_00"[..3] == "1_0";
      assert "1_0"[..2] == "1_";
      assert "1_"[..1] == "1";
    }
    assert DigitsValue("1000") == 1000 by {
      assert "1000"[..3] == "100";
      assert "100"[..2] == "10";
      assert "10"[..1] == "1";
    }
  }

  /** Two separators in a row are rejected. */
  lemma ParseIntDoubleSeparator()
    ensures ParseInt("1__0") == None
  {
    var s := "1__0";
    assert Strip(s) == s by { StripNoEdges(s); }
    assert s[1] == '_' && s[2] == '_';
  }
}
