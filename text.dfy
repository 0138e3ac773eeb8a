/**
 * The Python string operations the scraper relies on, written out with the
 * semantics CPython gives them: `str.strip()`, `str.strip(c)`, `str.lower()`
 * on ASCII, `sub in s`, `s.split(sep)`, `sep.join(parts)` and
 * `s.replace(old, new)`.
 */
module Text {
  import opened Values

  /** `c.isspace()`, which is also the set `\s` matches in a str pattern. */
  predicate IsSpace(c: char) {
    var n := c as int;
    (9 <= n <= 13) || (28 <= n <= 32) || n == 0x85 || n == 0xA0 || n == 0x1680
    || (0x2000 <= n <= 0x200A) || n == 0x2028 || n == 0x2029 || n == 0x202F
    || n == 0x205F || n == 0x3000
  }

  /** Drop leading characters satisfying `c == ch` (or whitespace when `ws`). */
  function TrimLeft(s: string, ws: bool, ch: char): string
    decreases |s|
  {
    if s != [] && (if ws then IsSpace(s[0]) else s[0] == ch) then TrimLeft(s[1..], ws, ch) else s
  }

  function TrimRight(s: string, ws: bool, ch: char): string
    decreases |s|
  {
    if s != [] && (if ws then IsSpace(s[|s| - 1]) else s[|s| - 1] == ch)
    then TrimRight(s[..|s| - 1], ws, ch) else s
  }

  /** `s.strip()` */
  function Strip(s: string): string {
    TrimRight(TrimLeft(s, true, ' '), true, ' ')
  }

  /** `s.strip(ch)` for a one-character argument. */
  function StripChar(s: string, ch: char): string {
    TrimRight(TrimLeft(s, false, ch), false, ch)
  }

  /** The characters `TrimLeft` and `TrimRight` cut. */
  predicate Cut(c: char, ws: bool, ch: char) {
    if ws then IsSpace(c) else c == ch
  }

  /** `TrimLeft` drops a prefix of cut characters and stops at one it keeps. */
  lemma {:induction false} TrimLeftSpec(s: string, ws: bool, ch: char)
    ensures |TrimLeft(s, ws, ch)| <= |s|
    ensures TrimLeft(s, ws, ch) == s[|s| - |TrimLeft(s, ws, ch)|..]
    ensures forall k :: 0 <= k < |s| - |TrimLeft(s, ws, ch)| ==> Cut(s[k], ws, ch)
    ensures TrimLeft(s, ws, ch) != [] ==> !Cut(TrimLeft(s, ws, ch)[0], ws, ch)
    decreases |s|
  {
    if s != [] && Cut(s[0], ws, ch) {
      var rest := s[1..];
      TrimLeftSpec(rest, ws, ch);
      var t := TrimLeft(rest, ws, ch);
      assert TrimLeft(s, ws, ch) == t;
      forall k | 0 <= k < |s| - |t| ensures Cut(s[k], ws, ch) {
        if k > 0 { assert s[k] == rest[k - 1]; }
      }
    }
  }

  /** `TrimRight` drops a suffix of cut characters and stops at one it keeps. */
  lemma {:induction false} TrimRightSpec(s: string, ws: bool, ch: char)
    ensures |TrimRight(s, ws, ch)| <= |s|
    ensures TrimRight(s, ws, ch) == s[..|TrimRight(s, ws, ch)|]
    ensures forall k :: |TrimRight(s, ws, ch)| <= k < |s| ==> Cut(s[k], ws, ch)
    ensures TrimRight(s, ws, ch) != [] ==> !Cut(TrimRight(s, ws, ch)[|TrimRight(s, ws, ch)| - 1], ws, ch)
    decreases |s|
  {
    if s != [] && Cut(s[|s| - 1], ws, ch) {
      var init := s[..|s| - 1];
      TrimRightSpec(init, ws, ch);
      var t := TrimRight(init, ws, ch);
      assert TrimRight(s, ws, ch) == t;
      forall k | |t| <= k < |s| ensures Cut(s[k], ws, ch) {
        if k < |init| { assert s[k] == init[k]; }
      }
    }
  }

  /** `s.strip()` keeps a contiguous slice of `s`, cuts only whitespace, and
      leaves no whitespace at either end. */
  lemma StripSpec(s: string)
    ensures exists i, j :: (0 <= i <= j <= |s| && Strip(s) == s[i..j]
                            && (forall k :: 0 <= k < i ==> IsSpace(s[k]))
                            && (forall k :: j <= k < |s| ==> IsSpace(s[k])))
    ensures var t := Strip(s); t != [] ==> !IsSpace(t[0]) && !IsSpace(t[|t| - 1])
  {
    var l := TrimLeft(s, true, ' ');
    TrimLeftSpec(s, true, ' ');
    TrimRightSpec(l, true, ' ');
    var t := Strip(s);
    var i := |s| - |l|;
    var j := i + |t|;
    assert t == s[i..j];
    forall k | 0 <= k < i ensures IsSpace(s[k]) {
      assert Cut(s[k], true, ' ');
    }
    forall k | j <= k < |s| ensures IsSpace(s[k]) {
      assert s[k] == l[k - i];
      assert Cut(l[k - i], true, ' ');
    }
    if t != [] {
      assert t[0] == l[0];
      assert !Cut(t[|t| - 1], true, ' ');
    }
  }

  /** `s.strip(ch)` keeps a contiguous slice of `s`, cuts only `ch`, and
      leaves no `ch` at either end. */
  lemma StripCharSpec(s: string, ch: char)
    ensures exists i, j :: (0 <= i <= j <= |s| && StripChar(s, ch) == s[i..j]
                            && (forall k :: 0 <= k < i ==> s[k] == ch)
                            && (forall k :: j <= k < |s| ==> s[k] == ch))
    ensures var t := StripChar(s, ch); t != [] ==> t[0] != ch && t[|t| - 1] != ch
  {
    var l := TrimLeft(s, false, ch);
    TrimLeftSpec(s, false, ch);
    TrimRightSpec(l, false, ch);
    var t := StripChar(s, ch);
    var i := |s| - |l|;
    var j := i + |t|;
    assert t == s[i..j];
    forall k | 0 <= k < i ensures s[k] == ch {
      assert Cut(s[k], false, ch);
    }
    forall k | j <= k < |s| ensures s[k] == ch {
      assert s[k] == l[k - i];
      assert Cut(l[k - i], false, ch);
    }
    if t != [] {
      assert t[0] == l[0];
      assert !Cut(t[|t| - 1], false, ch);
    }
  }

  /** A string without whitespace at its ends is its own `strip()`. */
  lemma {:induction false} StripNoEdges(s: string)
    requires s != [] ==> !IsSpace(s[0]) && !IsSpace(s[|s| - 1])
    ensures Strip(s) == s
  {
    assert TrimLeft(s, true, ' ') == s;
    assert TrimRight(s, true, ' ') == s;
  }

  lemma StripIdempotent(s: string)
    ensures Strip(Strip(s)) == Strip(s)
  {
    StripSpec(s);
    StripNoEdges(Strip(s));
  }

  /** `s.lower()` for ASCII letters. */
  function Lower(s: string): (r: string)
    ensures |r| == |s|
    ensures forall i :: 0 <= i < |s| ==> r[i] == if 'A' <= s[i] <= 'Z' then (s[i] as int + 32) as char else s[i]
  {
    seq(|s|, i requires 0 <= i < |s| => if 'A' <= s[i] <= 'Z' then (s[i] as int + 32) as char else s[i])
  }

  /** `p` occurs in `s` at position `i`. */
  predicate OccursAt(s: string, p: string, i: int) {
    0 <= i && i + |p| <= |s| && s[i..i + |p|] == p
  }

  /** `s.find(p)`, as an option: the first position at which `p` occurs. */
  function IndexOf(s: string, p: string): (r: Option<nat>)
    ensures r.Some? ==> OccursAt(s, p, r.value) && forall j :: 0 <= j < r.value ==> !OccursAt(s, p, j)
    ensures r.None? ==> forall j :: !OccursAt(s, p, j)
    decreases |s|
  {
    if |s| < |p| then None
    else if s[..|p|] == p then Some(0)
    else
      var r := IndexOf(s[1..], p);
      assert forall j :: 1 <= j ==> (OccursAt(s, p, j) <==> OccursAt(s[1..], p, j - 1)) by {
        forall j | 1 <= j ensures OccursAt(s, p, j) <==> OccursAt(s[1..], p, j - 1) {
          OccursShift(s, p, j);
        }
      }
      if r.None? then None else Some(r.value + 1)
  }

  /** An occurrence at `j >= 1` is one at `j - 1` in the tail. */
  lemma OccursShift(s: string, p: string, j: int)
    requires s != [] && 1 <= j
    ensures OccursAt(s, p, j) <==> OccursAt(s[1..], p, j - 1)
  {
    if j + |p| <= |s| {
      var a, b := s[j..j + |p|], s[1..][j - 1..j - 1 + |p|];
      assert forall m :: 0 <= m < |a| ==> a[m] == b[m];
      assert a == b;
    }
  }

  /** `p in s` */
  predicate Contains(s: string, p: string) {
    IndexOf(s, p).Some?
  }

  /** An occurrence at the very start of a longer string is found there. */
  lemma OccursInPrefix(a: string, b: string, p: string)
    requires IndexOf(a, p).Some?
    ensures IndexOf(a + b, p) == IndexOf(a, p)
  {
    var i := IndexOf(a, p).value;
    var c := a + b;
    assert c[i..i + |p|] == a[i..i + |p|];
    assert OccursAt(c, p, i);
    forall j | 0 <= j < i ensures !OccursAt(c, p, j) {
      assert !OccursAt(a, p, j);
      assert c[j..j + |p|] == a[j..j + |p|];
    }
    var r := IndexOf(c, p);
    assert r.Some? && r.value <= i;
  }

  /** `s.split(sep)` for a non-empty separator. */
  function Split(s: string, sep: string): (parts: seq<string>)
    requires sep != ""
    ensures |parts| >= 1
    decreases |s|
  {
    match IndexOf(s, sep)
    case None => [s]
    case Some(i) => [s[..i]] + Split(s[i + |sep|..], sep)
  }

  /** `sep.join(parts)` */
  function Join(parts: seq<string>, sep: string): string
    decreases |parts|
  {
    if parts == [] then ""
    else if |parts| == 1 then parts[0]
    else parts[0] + sep + Join(parts[1..], sep)
  }

  lemma JoinCons(x: string, tail: seq<string>, sep: string)
    requires tail != []
    ensures Join([x] + tail, sep) == x + sep + Join(tail, sep)
  {
    var parts := [x] + tail;
    assert parts[0] == x && parts[1..] == tail;
  }

  /** A string is the text around an occurrence of `p` and `p` itself. */
  lemma AroundOccurrence(s: string, p: string, i: nat)
    requires OccursAt(s, p, i)
    ensures s[..i] + p + s[i + |p|..] == s
  {
    assert s == s[..i] + s[i..i + |p|] + s[i + |p|..];
  }

  /** Joining the pieces of a split gives the string back. */
  lemma {:induction false} SplitJoin(s: string, sep: string)
    requires sep != ""
    ensures Join(Split(s, sep), sep) == s
    decreases |s|
  {
    match IndexOf(s, sep)
    case None =>
    case Some(i) =>
      var rest := s[i + |sep|..];
      SplitJoin(rest, sep);
      JoinCons(s[..i], Split(rest, sep), sep);
      AroundOccurrence(s, sep, i);
  }

  /** The text before the first occurrence of `sep` does not contain it. */
  lemma BeforeFirstFree(s: string, sep: string, i: nat)
    requires sep != "" && IndexOf(s, sep) == Some(i)
    ensures !Contains(s[..i], sep)
  {
    forall j ensures !OccursAt(s[..i], sep, j) {
      if 0 <= j && j + |sep| <= i {
        assert !OccursAt(s, sep, j);
        assert s[..i][j..j + |sep|] == s[j..j + |sep|];
      }
    }
  }

  /** No piece of a split contains the separator. */
  lemma {:induction false} SplitPartsFree(s: string, sep: string)
    requires sep != ""
    ensures forall k :: 0 <= k < |Split(s, sep)| ==> !Contains(Split(s, sep)[k], sep)
    decreases |s|
  {
    match IndexOf(s, sep)
    case None =>
    case Some(i) =>
      var rest := s[i + |sep|..];
      SplitPartsFree(rest, sep);
      BeforeFirstFree(s, sep, i);
      var parts := Split(s, sep);
      assert parts == [s[..i]] + Split(rest, sep);
      forall k | 0 <= k < |parts| ensures !Contains(parts[k], sep) {
        if k > 0 { assert parts[k] == Split(rest, sep)[k - 1]; }
      }
  }

  /** The number of times the character `c` appears in `s`. */
  function CountChar(s: string, c: char): nat
    decreases |s|
  {
    if s == [] then 0 else (if s[0] == c then 1 else 0) + CountChar(s[1..], c)
  }

  lemma {:induction false} CountCharAppend(a: string, b: string, c: char)
    ensures CountChar(a + b, c) == CountChar(a, c) + CountChar(b, c)
    decreases |a|
  {
    if a == [] {
      assert a + b == b;
    } else {
      assert (a + b)[1..] == a[1..] + b;
      CountCharAppend(a[1..], b, c);
    }
  }

  lemma {:induction false} NoCharNotContained(s: string, c: char)
    requires forall k :: 0 <= k < |s| ==> s[k] != c
    ensures CountChar(s, c) == 0 && !Contains(s, [c])
    decreases |s|
  {
    if s != [] {
      NoCharNotContained(s[1..], c);
    }
    forall j ensures !OccursAt(s, [c], j) {
      if 0 <= j && j + 1 <= |s| { assert s[j..j + 1] == [s[j]]; }
    }
  }

  /** Splitting at a single character gives one piece more than there are
      occurrences of that character. */
  lemma {:induction false} SplitCharCount(s: string, c: char)
    ensures |Split(s, [c])| == CountChar(s, c) + 1
    decreases |s|
  {
    match IndexOf(s, [c])
    case None =>
      forall k | 0 <= k < |s| ensures s[k] != c {
        assert s[k..k + 1] == [s[k]];
        assert !OccursAt(s, [c], k);
      }
      NoCharNotContained(s, c);
    case Some(i) =>
      var rest := s[i + 1..];
      SplitCharCount(rest, c);
      assert s == s[..i] + [c] + rest;
      forall k | 0 <= k < i ensures s[..i][k] != c {
        assert s[k..k + 1] == [s[k]];
        assert !OccursAt(s, [c], k);
      }
      NoCharNotContained(s[..i], c);
      CountCharAppend(s[..i] + [c], rest, c);
      CountCharAppend(s[..i], [c], c);
  }

  /** Splitting a join at a one-character separator that no part contains
      gives the parts back. */
  lemma {:induction false} JoinSplit(parts: seq<string>, c: char)
    requires parts != []
    requires forall k, m :: 0 <= k < |parts| && 0 <= m < |parts[k]| ==> parts[k][m] != c
    ensures Split(Join(parts, [c]), [c]) == parts
    decreases |parts|
  {
    NoCharNotContained(parts[0], c);
    if |parts| == 1 {
    } else {
      var rest := Join(parts[1..], [c]);
      var s := parts[0] + [c] + rest;
      assert Join(parts, [c]) == s;
      assert OccursAt(s, [c], |parts[0]|) by {
        assert s[|parts[0]|..|parts[0]| + 1] == [c];
      }
      forall j | 0 <= j < |parts[0]| ensures !OccursAt(s, [c], j) {
        assert s[j] == parts[0][j];
      }
      assert IndexOf(s, [c]) == Some(|parts[0]|);
      assert s[..|parts[0]|] == parts[0];
      assert s[|parts[0]| + 1..] == rest;
      JoinSplit(parts[1..], c);
    }
  }

  /** `s.replace(pat, rep)` for a non-empty `pat`: every non-overlapping
      occurrence, scanning from the left, is replaced. */
  function ReplaceAll(s: string, pat: string, rep: string): string
    requires pat != ""
    decreases |s|
  {
    match IndexOf(s, pat)
    case None => s
    case Some(i) => s[..i] + rep + ReplaceAll(s[i + |pat|..], pat, rep)
  }

  /** Replacing is splitting at `pat` and joining with `rep`. */
  lemma {:induction false} ReplaceIsSplitJoin(s: string, pat: string, rep: string)
    requires pat != ""
    ensures ReplaceAll(s, pat, rep) == Join(Split(s, pat), rep)
    decreases |s|
  {
    match IndexOf(s, pat)
    case None =>
    case Some(i) =>
      ReplaceIsSplitJoin(s[i + |pat|..], pat, rep);
  }

  /** A string in which `pat` does not occur is left unchanged. */
  lemma ReplaceAbsent(s: string, pat: string, rep: string)
    requires pat != "" && !Contains(s, pat)
    ensures ReplaceAll(s, pat, rep) == s
  {
  }

  /** A leading occurrence is removed, and so is every later one. */
  lemma ReplaceLeading(t: string, pat: string)
    requires pat != ""
    ensures ReplaceAll(pat + t, pat, "") == ReplaceAll(t, pat, "")
  {
    assert OccursAt(pat + t, pat, 0) by { assert (pat + t)[0..|pat|] == pat; }
    assert (pat + t)[|pat|..] == t;
  }
}
