/**
 * Values shared by every part of the model: an Option type, the dynamically
 * typed values that flow through the scraper (parsed JSON documents and
 * Python dicts), Python truthiness, insertion-ordered dictionaries and the
 * concatenation of a list of lists, and the values of the `Some`s of a
 * list of options (a filtering comprehension).
 */
module Values {

  datatype Option<+T> = None | Some(value: T) {
    function GetOr(default: T): (r: T)
      ensures Some? ==> r == value
      ensures None? ==> r == default
    {
      match this
      case Some(v) => v
      case None => default
    }
  }

  /** A JSON-like value as Python holds it after `json.loads`: an object keeps
      its fields in insertion order, as a Python dict does. */
  datatype Json =
    | Null
    | Bool(b: bool)
    | Int(i: int)
    | Str(s: string)
    | List(items: seq<Json>)
    | Object(fields: seq<(string, Json)>)

  /** Python truthiness: None, False, 0, "", [] and {} are false. */
  predicate Truthy(j: Json) {
    match j
    case Null => false
    case Bool(b) => b
    case Int(i) => i != 0
    case Str(s) => s != ""
    case List(items) => items != []
    case Object(fields) => fields != []
  }

  /** An insertion-ordered dictionary with string keys. */
  type Record = seq<(string, Json)>

  function Keys(rec: Record): (ks: seq<string>)
    ensures |ks| == |rec|
    ensures forall i :: 0 <= i < |rec| ==> ks[i] == rec[i].0
  {
    seq(|rec|, i requires 0 <= i < |rec| => rec[i].0)
  }

  /** No key occurs twice, as in every Python dict. */
  predicate UniqueKeys(rec: Record) {
    forall i, j :: 0 <= i < j < |rec| ==> rec[i].0 != rec[j].0
  }

  /** `d.get(k)`: the value stored under `k`, if any. */
  function Lookup(rec: Record, k: string): (r: Option<Json>)
    ensures r.None? <==> k !in Keys(rec)
    ensures r.Some? ==> exists i :: 0 <= i < |rec| && rec[i] == (k, r.value)
  {
    if rec == [] then None
    else if rec[0].0 == k then Some(rec[0].1)
    else
      var r := Lookup(rec[1..], k);
      assert Keys(rec) == [rec[0].0] + Keys(rec[1..]);
      assert r.Some? ==> exists i :: 0 <= i < |rec[1..]| && rec[1..][i] == (k, r.value);
      r
  }

  /** `d[k] = v`: an existing key keeps its position, a new key goes last. */
  function Put(rec: Record, k: string, v: Json): (r: Record)
    ensures k in Keys(rec) ==> |r| == |rec|
    ensures k !in Keys(rec) ==> r == rec + [(k, v)]
  {
    if rec == [] then [(k, v)]
    else if rec[0].0 == k then [(k, v)] + rec[1..]
    else
      assert Keys(rec) == [rec[0].0] + Keys(rec[1..]);
      [rec[0]] + Put(rec[1..], k, v)
  }

  /** Perform the assignments `ws` one after the other. */
  function PutAll(rec: Record, ws: seq<(string, Json)>): Record
    decreases |ws|
  {
    if ws == [] then rec
    else Put(PutAll(rec, ws[..|ws| - 1]), ws[|ws| - 1].0, ws[|ws| - 1].1)
  }

  /** The value of the last assignment to `k` in `ws`, if there is one. */
  function LastWrite(ws: seq<(string, Json)>, k: string): Option<Json>
    decreases |ws|
  {
    if ws == [] then None
    else if ws[|ws| - 1].0 == k then Some(ws[|ws| - 1].1)
    else LastWrite(ws[..|ws| - 1], k)
  }

  lemma {:induction false} PutLookup(rec: Record, k: string, v: Json, k': string)
    ensures Lookup(Put(rec, k, v), k') == if k' == k then Some(v) else Lookup(rec, k')
    decreases |rec|
  {
    if rec != [] && rec[0].0 != k {
      PutLookup(rec[1..], k, v, k');
      assert Put(rec, k, v)[1..] == Put(rec[1..], k, v);
    }
  }

  lemma KeysCons(x: (string, Json), rec: Record)
    ensures Keys([x] + rec) == [x.0] + Keys(rec)
  {
  }

  lemma {:induction false} PutKeys(rec: Record, k: string, v: Json)
    ensures Keys(Put(rec, k, v)) == if k in Keys(rec) then Keys(rec) else Keys(rec) + [k]
    decreases |rec|
  {
    if rec != [] {
      var rest := rec[1..];
      assert rec == [rec[0]] + rest;
      KeysCons(rec[0], rest);
      if rec[0].0 != k {
        PutKeys(rest, k, v);
        assert k in Keys(rec) <==> k in Keys(rest);
        KeysCons(rec[0], Put(rest, k, v));
        if k !in Keys(rest) {
          assert [rec[0].0] + (Keys(rest) + [k]) == ([rec[0].0] + Keys(rest)) + [k];
        }
      } else {
        KeysCons((k, v), rest);
      }
    }
  }

  lemma PutKeepsUnique(rec: Record, k: string, v: Json)
    requires UniqueKeys(rec)
    ensures UniqueKeys(Put(rec, k, v))
  {
    var r := Put(rec, k, v);
    PutKeys(rec, k, v);
    forall i, j | 0 <= i < j < |r| ensures r[i].0 != r[j].0 {
      assert Keys(r)[i] == r[i].0 && Keys(r)[j] == r[j].0;
      if k !in Keys(rec) && j == |rec| {
        assert Keys(rec)[i] == rec[i].0;
      } else {
        assert Keys(rec)[i] == rec[i].0 && Keys(rec)[j] == rec[j].0;
      }
    }
  }

  /** After a run of assignments, a key holds the last value assigned to it,
      or the value it held before when nothing was assigned to it. */
  lemma {:induction false} PutAllLookup(rec: Record, ws: seq<(string, Json)>, k: string)
    ensures Lookup(PutAll(rec, ws), k) == match LastWrite(ws, k)
                                          case Some(v) => Some(v)
                                          case None => Lookup(rec, k)
    decreases |ws|
  {
    if ws != [] {
      var last := ws[|ws| - 1];
      PutLookup(PutAll(rec, ws[..|ws| - 1]), last.0, last.1, k);
      PutAllLookup(rec, ws[..|ws| - 1], k);
    }
  }

  lemma {:induction false} PutAllAppend(rec: Record, a: seq<(string, Json)>, b: seq<(string, Json)>)
    ensures PutAll(rec, a + b) == PutAll(PutAll(rec, a), b)
    decreases |b|
  {
    if b == [] {
      assert a + b == a;
    } else {
      assert (a + b)[..|a + b| - 1] == a + b[..|b| - 1];
      PutAllAppend(rec, a, b[..|b| - 1]);
    }
  }

  lemma {:induction false} LastWriteAppend(a: seq<(string, Json)>, b: seq<(string, Json)>, k: string)
    ensures LastWrite(a + b, k) == if LastWrite(b, k).Some? then LastWrite(b, k) else LastWrite(a, k)
    decreases |b|
  {
    if b == [] {
      assert a + b == a;
    } else {
      assert (a + b)[..|a + b| - 1] == a + b[..|b| - 1];
      LastWriteAppend(a, b[..|b| - 1], k);
    }
  }

  /** Writes whose keys all differ from `k` leave it alone. */
  lemma {:induction false} LastWriteAbsent(ws: seq<(string, Json)>, k: string)
    requires forall i :: 0 <= i < |ws| ==> ws[i].0 != k
    ensures LastWrite(ws, k) == None
    decreases |ws|
  {
    if ws != [] {
      LastWriteAbsent(ws[..|ws| - 1], k);
    }
  }

  /** The concatenation of a list of lists, as repeated `list.extend`. */
  function Concat<T>(xss: seq<seq<T>>): seq<T>
    decreases |xss|
  {
    if xss == [] then [] else Concat(xss[..|xss| - 1]) + xss[|xss| - 1]
  }

  /** Total length of a list of lists. */
  function TotalLength<T>(xss: seq<seq<T>>): nat
    decreases |xss|
  {
    if xss == [] then 0 else TotalLength(xss[..|xss| - 1]) + |xss[|xss| - 1]|
  }

  lemma {:induction false} ConcatAppend<T>(a: seq<seq<T>>, b: seq<seq<T>>)
    ensures Concat(a + b) == Concat(a) + Concat(b)
    decreases |b|
  {
    if b == [] {
      assert a + b == a;
    } else {
      var init, last := b[..|b| - 1], b[|b| - 1];
      assert (a + b)[..|a + b| - 1] == a + init;
      assert (a + b)[|a + b| - 1] == last;
      assert Concat(a + b) == Concat(a + init) + last;
      ConcatAppend(a, init);
      assert Concat(b) == Concat(init) + last;
      assert Concat(a) + Concat(init) + last == Concat(a) + (Concat(init) + last);
    }
  }

  lemma {:induction false} ConcatLength<T>(xss: seq<seq<T>>)
    ensures |Concat(xss)| == TotalLength(xss)
    decreases |xss|
  {
    if xss != [] {
      ConcatLength(xss[..|xss| - 1]);
    }
  }

  /** The values of the `Some`s of `xs`, in order. */
  function Somes<T>(xs: seq<Option<T>>): (ys: seq<T>)
    ensures |ys| <= |xs|
    decreases |xs|
  {
    if xs == [] then []
    else Somes(xs[..|xs| - 1]) + (if xs[|xs| - 1].Some? then [xs[|xs| - 1].value] else [])
  }

  /** One more element of `xs` adds its value, if it has one. */
  lemma SomesStep<T>(xs: seq<Option<T>>, i: nat)
    requires i < |xs|
    ensures Somes(xs[..i + 1]) == Somes(xs[..i]) + (if xs[i].Some? then [xs[i].value] else [])
  {
    assert xs[..i + 1][..i] == xs[..i];
  }

  /** A longer prefix holds at least as many `Some`s. */
  lemma {:induction false} SomesPrefix<T>(xs: seq<Option<T>>, i: nat, j: nat)
    requires i <= j <= |xs|
    ensures |Somes(xs[..i])| <= |Somes(xs[..j])|
    decreases j - i
  {
    if i < j {
      SomesPrefix(xs, i, j - 1);
      assert xs[..j][..j - 1] == xs[..j - 1];
    }
  }

  /** The position in `xs` of the `n`-th value of `Somes(xs)`: `n` values
      come before it. */
  function SourceIndex<T>(xs: seq<Option<T>>, n: nat): (j: nat)
    requires n < |Somes(xs)|
    ensures j < |xs| && xs[j] == Some(Somes(xs)[n])
    ensures |Somes(xs[..j])| == n
    decreases |xs|
  {
    var init := xs[..|xs| - 1];
    if n < |Somes(init)| then
      var j := SourceIndex(init, n);
      assert xs[..j] == init[..j];
      j
    else
      assert xs[..|xs| - 1] == init;
      |xs| - 1
  }

  /** Values further on in `Somes(xs)` come from further on in `xs`. */
  lemma SourceIndexOrder<T>(xs: seq<Option<T>>, a: nat, b: nat)
    requires a < b < |Somes(xs)|
    ensures SourceIndex(xs, a) < SourceIndex(xs, b)
  {
    var ja, jb := SourceIndex(xs, a), SourceIndex(xs, b);
    if jb <= ja {
      SomesPrefix(xs, jb, ja);
    }
  }

  /** Every `Some` of `xs` has its value in `Somes(xs)`. */
  lemma {:induction false} SomeListed<T>(xs: seq<Option<T>>, j: nat)
    requires j < |xs| && xs[j].Some?
    ensures xs[j].value in Somes(xs)
    decreases |xs|
  {
    if j < |xs| - 1 {
      var init := xs[..|xs| - 1];
      SomeListed(init, j);
    }
  }

  /** `Somes(xs)` is empty exactly when no element of `xs` is a `Some`. */
  lemma {:induction false} SomesEmpty<T>(xs: seq<Option<T>>)
    ensures Somes(xs) == [] <==> forall i :: 0 <= i < |xs| ==> xs[i].None?
    decreases |xs|
  {
    if xs != [] {
      var init := xs[..|xs| - 1];
      SomesEmpty(init);
      assert forall i :: 0 <= i < |init| ==> init[i] == xs[i];
    }
  }
}
