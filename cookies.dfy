/**
 * The cookie cell of the accounts sheet and the two session tokens read
 * from it (`parse_cookie`, `extract_ids` and `normalize_status` in api.py
 * and index.py).
 *
 * A cell that Python's `ast.literal_eval` reads as a dict is taken as that
 * dict. Otherwise the cell is scanned with
 * `re.findall(r'([^=;\s]+)=(\".*?\"|[^;]+)', s)`, which is modelled here as
 * the scan the regex engine performs: at each position it tries one match,
 * and it moves past the match or one character further on.
 */
module Cookies {
  import opened Values
  import opened Text

  /** A character of the key group `[^=;\s]`. */
  predicate IsKeyChar(c: char) {
    c != '=' && c != ';' && !IsSpace(c)
  }

  /** Length of the longest run of key characters at the start of `t`. */
  function KeyRun(t: string): (n: nat)
    ensures n <= |t|
    ensures forall k :: 0 <= k < n ==> IsKeyChar(t[k])
    ensures n < |t| ==> !IsKeyChar(t[n])
    decreases |t|
  {
    if t != [] && IsKeyChar(t[0]) then 1 + KeyRun(t[1..]) else 0
  }

  /** Length of the longest run without `;` at the start of `t` (`[^;]+`). */
  function NonSemiRun(t: string): (n: nat)
    ensures n <= |t|
    ensures forall k :: 0 <= k < n ==> t[k] != ';'
    ensures n < |t| ==> t[n] == ';'
    decreases |t|
  {
    if t != [] && t[0] != ';' then 1 + NonSemiRun(t[1..]) else 0
  }

  /** Where the lazy `.*?"` that follows an opening quote ends: the first `"`
      in `u`, provided no newline (which `.` does not match) comes before it. */
  function QuoteEnd(u: string): (r: Option<nat>)
    ensures r.Some? ==> r.value < |u| && u[r.value] == '"'
    ensures r.Some? ==> forall k :: 0 <= k < r.value ==> u[k] != '"' && u[k] != '\n'
    ensures r.None? ==> forall i :: 0 <= i < |u| && u[i] == '"' ==> exists j :: 0 <= j < i && u[j] == '\n'
    decreases |u|
  {
    if u == [] then None
    else if u[0] == '"' then Some(0)
    else if u[0] == '\n' then None
    else
      match QuoteEnd(u[1..])
      case None =>
        assert forall i :: 1 <= i < |u| && u[i] == '"' ==> exists j :: 0 <= j < i && u[j] == '\n' by {
          forall i | 1 <= i < |u| && u[i] == '"'
            ensures exists j :: 0 <= j < i && u[j] == '\n'
          {
            assert u[1..][i - 1] == '"';
            var j :| 0 <= j < i - 1 && u[1..][j] == '\n';
            assert u[j + 1] == '\n';
          }
        }
        None
      case Some(e) => Some(e + 1)
  }

  /** The value group at the start of `rest`: a quoted string if one closes
      on the same line, otherwise the longest non-empty run without `;`. */
  function ValueAt(rest: string): (r: Option<string>)
    ensures r.Some? ==> r.value != [] && |r.value| <= |rest| && rest[..|r.value|] == r.value
    ensures r.None? <==> rest == [] || rest[0] == ';'
  {
    if rest != [] && rest[0] == '"' && QuoteEnd(rest[1..]).Some? then
      Some(rest[..QuoteEnd(rest[1..]).value + 2])
    else
      var n := NonSemiRun(rest);
      if n == 0 then None else Some(rest[..n])
  }

  /** One match of the pattern: the two groups and the number of characters
      the match spans. */
  datatype Match = Match(key: string, value: string, len: nat)

  predicate ValidKey(k: string) {
    k != [] && forall i :: 0 <= i < |k| ==> IsKeyChar(k[i])
  }

  /** The match the regex finds when it starts at the first character of
      `t`. The key group can only end where the run of key characters ends,
      since a shorter run is followed by a key character rather than `=`. */
  function MatchAt(t: string): (r: Option<Match>)
    ensures r.Some? ==> ValidKey(r.value.key) && r.value.value != []
    ensures r.Some? ==> r.value.len == |r.value.key| + 1 + |r.value.value| <= |t|
    ensures r.Some? ==> t[..r.value.len] == r.value.key + "=" + r.value.value
  {
    var n := KeyRun(t);
    if n == 0 || n == |t| || t[n] != '=' then None
    else
      match ValueAt(t[n + 1..])
      case None => None
      case Some(v) =>
        assert t[..n + 1 + |v|] == t[..n] + "=" + v by {
          assert t[n + 1..][..|v|] == v;
        }
        Some(Match(t[..n], v, n + 1 + |v|))
  }

  /** `re.findall` with two groups: the (key, value) pairs of the successive
      non-overlapping matches, from left to right. */
  function FindAll(s: string): (ps: seq<(string, string)>)
    ensures forall i :: 0 <= i < |ps| ==> ValidKey(ps[i].0) && ps[i].1 != []
    decreases |s|
  {
    if s == [] then []
    else
      match MatchAt(s)
      case Some(m) => [(m.key, m.value)] + FindAll(s[m.len..])
      case None => FindAll(s[1..])
  }

  /** The dict comprehension over the matches: key stripped, value with its
      surrounding `"` removed; a later match overwrites an earlier one. */
  function CookieMap(ps: seq<(string, string)>): map<string, string>
    decreases |ps|
  {
    if ps == [] then map[]
    else
      var last := ps[|ps| - 1];
      CookieMap(ps[..|ps| - 1])[Strip(last.0) := StripChar(last.1, '"')]
  }

  /** What `ast.literal_eval` does with a cell: raise one of the errors the
      code catches, produce something other than a dict, or produce a dict
      (given with each value already turned into text by `str`). */
  datatype LiteralEval = EvalRaises | NotADict | DictLiteral(entries: map<string, string>)

  /** `parse_cookie(s)`, with `eval` standing for `ast.literal_eval`. */
  function ParseCookie(s: string, eval: string -> LiteralEval): (m: map<string, string>)
    ensures eval(s).NotADict? ==> m == map[]
    ensures eval(s).DictLiteral? ==> m.Keys == eval(s).entries.Keys
    ensures eval(s).DictLiteral? ==> forall k :: k in m ==> m[k] == StripChar(eval(s).entries[k], '"')
    ensures eval(s).EvalRaises? ==> m == CookieMap(FindAll(s))
  {
    match eval(s)
    case EvalRaises => CookieMap(FindAll(s))
    case NotADict => map[]
    case DictLiteral(e) => map k | k in e :: StripChar(e[k], '"')
  }

  /** `extract_ids`: the JSESSIONID and li_at entries, each None if absent. */
  function ExtractIds(cookies: map<string, string>): (ids: (Option<string>, Option<string>))
    ensures ids.0.Some? <==> "JSESSIONID" in cookies
    ensures ids.1.Some? <==> "li_at" in cookies
    ensures ids.0.Some? ==> ids.0.value == cookies["JSESSIONID"]
    ensures ids.1.Some? ==> ids.1.value == cookies["li_at"]
  {
    (if "JSESSIONID" in cookies then Some(cookies["JSESSIONID"]) else None,
     if "li_at" in cookies then Some(cookies["li_at"]) else None)
  }

  /** `li_at and jsessionid`: both present and non-empty. */
  predicate BothTokens(ids: (Option<string>, Option<string>)) {
    ids.0.Some? && ids.0.value != "" && ids.1.Some? && ids.1.value != ""
  }

  /** `normalize_status`: strip, then lower-case. */
  function NormalizeStatus(s: string): (r: string)
    ensures |r| <= |s|
  {
    StripSpec(s);
    Lower(Strip(s))
  }

  /** A status counts as verified exactly when, once stripped, it spells
      `verified` in any mix of upper- and lower-case letters. */
  lemma NormalizeStatusVerified(s: string)
    ensures NormalizeStatus(s) == "verified" <==>
              |Strip(s)| == 8
              && forall i :: 0 <= i < 8 ==> Strip(s)[i] == "verified"[i] || Strip(s)[i] == "VERIFIED"[i]
  {
    var t := Strip(s);
    var r := Lower(t);
    assert r == NormalizeStatus(s);
    if r == "verified" {
      forall i | 0 <= i < 8 ensures t[i] == "verified"[i] || t[i] == "VERIFIED"[i] {
        assert r[i] == "verified"[i];
      }
    }
    if |t| == 8 && forall i :: 0 <= i < 8 ==> t[i] == "verified"[i] || t[i] == "VERIFIED"[i] {
      forall i | 0 <= i < 8 ensures r[i] == "verified"[i] {
        assert t[i] == "verified"[i] || t[i] == "VERIFIED"[i];
      }
      assert r == "verified";
    }
  }

  /** A normalised status holds no upper-case ASCII letter. */
  lemma NormalizeStatusLowercase(s: string)
    ensures forall i :: 0 <= i < |NormalizeStatus(s)| ==> !('A' <= NormalizeStatus(s)[i] <= 'Z')
  {
  }

  /** Normalising twice is normalising once. */
  lemma NormalizeStatusIdempotent(s: string)
    ensures NormalizeStatus(NormalizeStatus(s)) == NormalizeStatus(s)
  {
    var t := Strip(s);
    var r := Lower(t);
    assert r == NormalizeStatus(s);
    StripSpec(s);
    assert r != [] ==> !IsSpace(r[0]) && !IsSpace(r[|r| - 1]);
    NormalizeStatusLowercase(s);
    StripNoEdges(r);
    assert Lower(r) == r;
  }

  // ---------------------------------------------------------------------
  // Properties of the scanner and of the fold

  /** Keys found by the scanner have no surrounding whitespace, so the
      `key.strip()` of the comprehension leaves them unchanged. */
  lemma FoundKeysStripped(s: string)
    ensures forall i :: 0 <= i < |FindAll(s)| ==> Strip(FindAll(s)[i].0) == FindAll(s)[i].0
  {
    var ps := FindAll(s);
    forall i | 0 <= i < |ps| ensures Strip(ps[i].0) == ps[i].0 {
      StripNoEdges(ps[i].0);
    }
  }

  /** A key appears in the map exactly when some pair carries it, and it maps
      to the value of the last such pair. */
  lemma CookieMapLastWins(ps: seq<(string, string)>, k: string)
    ensures k in CookieMap(ps) <==> exists i :: 0 <= i < |ps| && Strip(ps[i].0) == k
    ensures forall i :: 0 <= i < |ps| && Strip(ps[i].0) == k
                        && (forall j :: i < j < |ps| ==> Strip(ps[j].0) != k)
                        ==> CookieMap(ps)[k] == StripChar(ps[i].1, '"')
  {
    CookieMapHas(ps, k);
    forall i | 0 <= i < |ps| && Strip(ps[i].0) == k && (forall j :: i < j < |ps| ==> Strip(ps[j].0) != k)
      ensures CookieMap(ps)[k] == StripChar(ps[i].1, '"')
    {
      CookieMapAt(ps, k, i);
    }
  }

  lemma {:induction false} CookieMapHas(ps: seq<(string, string)>, k: string)
    ensures k in CookieMap(ps) <==> exists i :: 0 <= i < |ps| && Strip(ps[i].0) == k
    decreases |ps|
  {
    if ps != [] {
      var init := ps[..|ps| - 1];
      CookieMapHas(init, k);
      if Strip(ps[|ps| - 1].0) != k {
        if exists i :: 0 <= i < |ps| && Strip(ps[i].0) == k {
          var i :| 0 <= i < |ps| && Strip(ps[i].0) == k;
          assert init[i] == ps[i];
        }
        if exists i :: 0 <= i < |init| && Strip(init[i].0) == k {
          var i :| 0 <= i < |init| && Strip(init[i].0) == k;
          assert ps[i] == init[i];
        }
      }
    }
  }

  lemma {:induction false} CookieMapAt(ps: seq<(string, string)>, k: string, i: nat)
    requires i < |ps| && Strip(ps[i].0) == k
    requires forall j :: i < j < |ps| ==> Strip(ps[j].0) != k
    ensures k in CookieMap(ps) && CookieMap(ps)[k] == StripChar(ps[i].1, '"')
    decreases |ps|
  {
    if i < |ps| - 1 {
      var init := ps[..|ps| - 1];
      assert Strip(ps[|ps| - 1].0) != k;
      assert init[i] == ps[i];
      forall j | i < j < |init| ensures Strip(init[j].0) != k {
        assert init[j] == ps[j];
      }
      CookieMapAt(init, k, i);
    }
  }

  // ---------------------------------------------------------------------
  // Round trip: a header written as `k1=v1; k2=v2; ...` is read back

  /** A value the scanner reads back whole: either a quoted string without
      inner quotes or newlines, or a non-empty text without `;` that does not
      start with a quote. */
  predicate WellFormedValue(v: string) {
    || (v != [] && v[0] != '"' && forall i :: 0 <= i < |v| ==> v[i] != ';')
    || (|v| >= 2 && v[0] == '"' && v[|v| - 1] == '"'
        && forall i :: 1 <= i < |v| - 1 ==> v[i] != '"' && v[i] != '\n' && v[i] != ';')
  }

  function Items(ps: seq<(string, string)>): (items: seq<string>)
    ensures |items| == |ps|
    decreases |ps|
  {
    if ps == [] then [] else [ps[0].0 + "=" + ps[0].1] + Items(ps[1..])
  }

  /** The header `k1=v1; k2=v2; ...`. */
  function Render(ps: seq<(string, string)>): string {
    Join(Items(ps), "; ")
  }

  lemma {:induction false} KeyRunOfKey(k: string, tail: string)
    requires forall i :: 0 <= i < |k| ==> IsKeyChar(k[i])
    requires tail != [] && tail[0] == '='
    ensures KeyRun(k + tail) == |k|
    decreases |k|
  {
    if k == [] {
      assert k + tail == tail;
    } else {
      assert (k + tail)[1..] == k[1..] + tail;
      KeyRunOfKey(k[1..], tail);
    }
  }

  lemma {:induction false} NonSemiRunOf(v: string, tail: string)
    requires forall i :: 0 <= i < |v| ==> v[i] != ';'
    requires tail == [] || tail[0] == ';'
    ensures NonSemiRun(v + tail) == |v|
    decreases |v|
  {
    if v == [] {
      assert v + tail == tail;
    } else {
      assert (v + tail)[1..] == v[1..] + tail;
      NonSemiRunOf(v[1..], tail);
    }
  }

  lemma {:induction false} QuoteEndOf(inner: string, tail: string)
    requires forall i :: 0 <= i < |inner| ==> inner[i] != '"' && inner[i] != '\n'
    ensures QuoteEnd(inner + "\"" + tail) == Some(|inner|)
    decreases |inner|
  {
    if inner == [] {
      assert (inner + "\"" + tail)[0] == '"';
    } else {
      assert (inner + "\"" + tail)[1..] == inner[1..] + "\"" + tail;
      QuoteEndOf(inner[1..], tail);
    }
  }

  lemma ValueAtOf(v: string, tail: string)
    requires WellFormedValue(v)
    requires tail == [] || tail[0] == ';'
    ensures ValueAt(v + tail) == Some(v)
  {
    var rest := v + tail;
    if v[0] == '"' && |v| >= 2 && v[|v| - 1] == '"'
       && forall i :: 1 <= i < |v| - 1 ==> v[i] != '"' && v[i] != '\n' && v[i] != ';' {
      var inner := v[1..|v| - 1];
      assert v[1..] == inner + "\"";
      assert rest[1..] == v[1..] + tail;
      assert rest[1..] == inner + "\"" + tail;
      QuoteEndOf(inner, tail);
      assert rest[..|inner| + 2] == v;
    } else {
      NonSemiRunOf(v, tail);
      assert rest[..|v|] == v;
    }
  }

  /** A pair written as `k=v` and followed by `;` (or nothing) is matched
      exactly. */
  lemma MatchAtPair(k: string, v: string, tail: string)
    requires ValidKey(k) && WellFormedValue(v)
    requires tail == [] || tail[0] == ';'
    ensures MatchAt(k + "=" + v + tail) == Some(Match(k, v, |k| + 1 + |v|))
  {
    var t := k + "=" + v + tail;
    KeyRunOfKey(k, "=" + v + tail);
    assert t == k + ("=" + v + tail);
    assert t[|k|] == '=';
    assert t[|k| + 1..] == v + tail;
    ValueAtOf(v, tail);
    assert t[..|k|] == k;
  }

  /** The separator `; ` produces no match and is skipped. */
  lemma SkipSeparator(rest: string)
    ensures FindAll("; " + rest) == FindAll(rest)
  {
    var t := "; " + rest;
    assert KeyRun(t) == 0;
    assert t[1..] == " " + rest;
    assert KeyRun(t[1..]) == 0;
    assert t[1..][1..] == rest;
  }

  /** A pair written as `k=v` is read as that pair, and the scan goes on
      after it. */
  lemma FindAllPair(k: string, v: string, tail: string)
    requires ValidKey(k) && WellFormedValue(v)
    requires tail == [] || tail[0] == ';'
    ensures FindAll(k + "=" + v + tail) == [(k, v)] + FindAll(tail)
  {
    var t := k + "=" + v + tail;
    MatchAtPair(k, v, tail);
    assert t[|k| + 1 + |v|..] == tail;
  }

  lemma RenderCons(ps: seq<(string, string)>)
    requires |ps| >= 2
    ensures Render(ps) == ps[0].0 + "=" + ps[0].1 + ("; " + Render(ps[1..]))
  {
    assert Items(ps)[1..] == Items(ps[1..]);
  }

  /** Reading a rendered header gives back exactly the pairs written. */
  lemma {:induction false} FindAllRender(ps: seq<(string, string)>)
    requires forall i :: 0 <= i < |ps| ==> ValidKey(ps[i].0) && WellFormedValue(ps[i].1)
    ensures FindAll(Render(ps)) == ps
    decreases |ps|
  {
    if ps == [] {
    } else if |ps| == 1 {
      assert Render(ps) == ps[0].0 + "=" + ps[0].1 + "";
      FindAllPair(ps[0].0, ps[0].1, "");
    } else {
      var rest := Render(ps[1..]);
      RenderCons(ps);
      FindAllPair(ps[0].0, ps[0].1, "; " + rest);
      SkipSeparator(rest);
      FindAllRender(ps[1..]);
      assert ps == [ps[0]] + ps[1..];
    }
  }

  /** A cookie header that is not a Python literal and names each key once
      is parsed to those keys, each value with its quotes removed. */
  lemma ParseRenderedHeader(ps: seq<(string, string)>, eval: string -> LiteralEval)
    requires forall i :: 0 <= i < |ps| ==> ValidKey(ps[i].0) && WellFormedValue(ps[i].1)
    requires forall i, j :: 0 <= i < j < |ps| ==> ps[i].0 != ps[j].0
    requires eval(Render(ps)) == EvalRaises
    ensures forall i :: 0 <= i < |ps| ==>
              ps[i].0 in ParseCookie(Render(ps), eval)
              && ParseCookie(Render(ps), eval)[ps[i].0] == StripChar(ps[i].1, '"')
  {
    FindAllRender(ps);
    forall i | 0 <= i < |ps|
      ensures ps[i].0 in CookieMap(ps) && CookieMap(ps)[ps[i].0] == StripChar(ps[i].1, '"')
    {
      StripNoEdges(ps[i].0);
      forall j | 0 <= j < |ps| ensures Strip(ps[j].0) == ps[j].0 { StripNoEdges(ps[j].0); }
      CookieMapLastWins(ps, ps[i].0);
    }
  }

  /** The usual cookie header carrying both session tokens yields both. */
  lemma TokensFromHeader(jsession: string, liAt: string, eval: string -> LiteralEval)
    requires WellFormedValue(jsession) && WellFormedValue(liAt)
    requires StripChar(jsession, '"') != "" && StripChar(liAt, '"') != ""
    requires eval(Render([("JSESSIONID", jsession), ("li_at", liAt)])) == EvalRaises
    ensures var ids := ExtractIds(ParseCookie(Render([("JSESSIONID", jsession), ("li_at", liAt)]), eval));
            BothTokens(ids) && ids.0.value == StripChar(jsession, '"') && ids.1.value == StripChar(liAt, '"')
  {
    var ps := [("JSESSIONID", jsession), ("li_at", liAt)];
    assert ValidKey("JSESSIONID") && ValidKey("li_at");
    ParseRenderedHeader(ps, eval);
    var m := ParseCookie(Render(ps), eval);
    assert ps[0].0 in m && m[ps[0].0] == StripChar(ps[0].1, '"');
    assert ps[1].0 in m && m[ps[1].0] == StripChar(ps[1].1, '"');
  }
}
