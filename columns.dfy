/**
 * Spreadsheet column names (`column_index_to_letter` in api.py): column 0 is
 * "A", 25 is "Z", 26 is "AA" and so on, bijective base 26.
 */
module Columns {

  predicate IsUpper(c: char) {
    'A' <= c <= 'Z'
  }

  function Letter(d: nat): (c: char)
    requires d < 26
    ensures IsUpper(c) && (c as int) - ('A' as int) == d
  {
    (d + 'A' as int) as char
  }

  /** The name of the column with 0-based index `i`; the empty string for a
      negative index, for which the loop never runs. */
  function ColumnName(i: int): (r: string)
    ensures i >= 0 ==> r != []
    ensures forall k :: 0 <= k < |r| ==> IsUpper(r[k])
    decreases i + 1
  {
    if i < 0 then [] else ColumnName(i / 26 - 1) + [Letter(i % 26)]
  }

  /** `column_index_to_letter`: the loop prepends one letter per round and
      moves to the next, more significant, position. */
  method ColumnIndexToLetter(index0: int) returns (result: string)
    ensures result == ColumnName(index0)
  {
    result := "";
    var index := index0;
    while index >= 0
      invariant index >= -1 || index == index0
      invariant ColumnName(index) + result == ColumnName(index0)
      decreases index + 1
    {
      result := [Letter(index % 26)] + result;
      index := index / 26 - 1;
    }
  }

  /** Reading a column name back: bijective base 26 with digits A=1 .. Z=26. */
  function Value(s: string): nat
    requires forall k :: 0 <= k < |s| ==> IsUpper(s[k])
    decreases |s|
  {
    if s == [] then 0
    else
      var last := s[|s| - 1];
      assert IsUpper(last);
      26 * Value(s[..|s| - 1]) + ((last as int) - ('A' as int) + 1)
  }

  /** The name of column `i` reads back as `i + 1`. */
  lemma {:induction false} ValueOfName(i: int)
    requires i >= -1
    ensures Value(ColumnName(i)) == i + 1
    decreases i + 1
  {
    if i >= 0 {
      var r := ColumnName(i);
      ValueOfName(i / 26 - 1);
      assert r[..|r| - 1] == ColumnName(i / 26 - 1);
    }
  }

  /** Distinct columns get distinct names. */
  lemma NameInjective(i: nat, j: nat)
    requires ColumnName(i) == ColumnName(j)
    ensures i == j
  {
    ValueOfName(i);
    ValueOfName(j);
  }

  /** Every non-empty string of capital letters names some column. */
  lemma {:induction false} NameOfValue(s: string)
    requires s != [] && forall k :: 0 <= k < |s| ==> IsUpper(s[k])
    ensures ColumnName(Value(s) - 1) == s
    decreases |s|
  {
    var p := s[..|s| - 1];
    var d := (s[|s| - 1] as int) - ('A' as int);
    var n := Value(s) - 1;
    assert n == 26 * Value(p) + d;
    assert n / 26 == Value(p) && n % 26 == d;
    if p != [] {
      NameOfValue(p);
    }
    assert s == p + [Letter(d)];
  }

  /** The first 26 columns are the single letters A to Z. */
  lemma SingleLetters(i: int)
    requires 0 <= i < 26
    ensures ColumnName(i) == [('A' as int + i) as char]
  {
  }

  lemma TwoLetterStart()
    ensures ColumnName(25) == "Z"
    ensures ColumnName(26) == "AA"
    ensures ColumnName(701) == "ZZ"
    ensures ColumnName(702) == "AAA"
  {
    assert ColumnName(0) == "A";
    assert ColumnName(25) == "Z";
    assert ColumnName(26) == ColumnName(0) + "A";
    assert ColumnName(701) == ColumnName(25) + "Z";
    assert ColumnName(702) == ColumnName(26) + "A";
  }
}
