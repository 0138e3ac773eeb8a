/**
 * The small pure helpers of the LinkedIn client: how the constructor turns a
 * `host:port:username:password` proxy string into the HTTP client's proxy
 * settings and decides how to authenticate, the forgiving nested lookup
 * `safe_get`, the last segment of a URN, the company id in a company URL
 * and the formatting of a date object.
 */
module LinkedinHelper {
  import opened Values
  import opened Text
  import opened Numerals

  // ---------------------------------------------------------------------
  // The constructor: proxy settings and authentication
  // ---------------------------------------------------------------------

  /** The proxy settings handed to the HTTP client, keyed by scheme. */
  type ProxyConfig = map<string, string>

  /** `f"http://{username}:{password}@{host}:{port}"` */
  function ProxyUrl(host: string, port: string, user: string, pass: string): string {
    "http://" + user + ":" + pass + "@" + host + ":" + port
  }

  /** `proxy.split(':')` for a truthy proxy string; nothing is split for a
      missing or empty one. */
  function ProxyPieces(proxy: Option<string>): (parts: seq<string>)
    ensures proxy.Some? && proxy.value != "" ==> parts == Split(proxy.value, ":")
    ensures proxy.None? || proxy.value == "" ==> parts == []
  {
    if proxy.Some? && proxy.value != "" then Split(proxy.value, ":") else []
  }

  /** The same authenticated URL for both schemes when there are exactly
      four pieces, and no proxy at all otherwise. */
  function ProxyConfigOf(parts: seq<string>): (c: ProxyConfig)
    ensures |parts| != 4 ==> c == map[]
    ensures |parts| == 4 ==>
      && c.Keys == {"http", "https"}
      && c["http"] == c["https"] == ProxyUrl(parts[0], parts[1], parts[2], parts[3])
  {
    if |parts| == 4 then
      var url := ProxyUrl(parts[0], parts[1], parts[2], parts[3]);
      map["http" := url, "https" := url]
    else map[]
  }

  /** A proxy is configured exactly when the proxy string has three colons. */
  lemma ProxyConfiguredIff(proxy: Option<string>)
    ensures ProxyConfigOf(ProxyPieces(proxy)) != map[] <==>
      proxy.Some? && CountChar(proxy.value, ':') == 3
  {
    if proxy.Some? {
      SplitCharCount(proxy.value, ':');
      if proxy.value == "" {
        assert CountChar(proxy.value, ':') == 0;
      }
    }
    var c := ProxyConfigOf(ProxyPieces(proxy));
    if |ProxyPieces(proxy)| == 4 {
      assert "http" in c;
    }
  }

  /** A proxy string assembled from four colon-free pieces splits back into
      those pieces. */
  lemma ProxyPiecesOfJoin(host: string, port: string, user: string, pass: string)
    requires forall m :: 0 <= m < |host| ==> host[m] != ':'
    requires forall m :: 0 <= m < |port| ==> port[m] != ':'
    requires forall m :: 0 <= m < |user| ==> user[m] != ':'
    requires forall m :: 0 <= m < |pass| ==> pass[m] != ':'
    ensures ProxyPieces(Some(host + ":" + port + ":" + user + ":" + pass)) == [host, port, user, pass]
  {
    var parts := [host, port, user, pass];
    JoinCons(user, [pass], ":");
    JoinCons(port, [user, pass], ":");
    JoinCons(host, [port, user, pass], ":");
    assert [host, port, user, pass][1..] == [port, user, pass];
    assert Join(parts, ":") == host + ":" + port + ":" + user + ":" + pass;
    JoinSplit(parts, ':');
  }

  /** Round trip: the proxy URL of `host:port:user:pass` is built from
      exactly those four pieces, for both schemes. */
  lemma ProxyRoundTrip(host: string, port: string, user: string, pass: string)
    requires forall m :: 0 <= m < |host| ==> host[m] != ':'
    requires forall m :: 0 <= m < |port| ==> port[m] != ':'
    requires forall m :: 0 <= m < |user| ==> user[m] != ':'
    requires forall m :: 0 <= m < |pass| ==> pass[m] != ':'
    ensures var url := ProxyUrl(host, port, user, pass);
      ProxyConfigOf(ProxyPieces(Some(host + ":" + port + ":" + user + ":" + pass)))
        == map["http" := url, "https" := url]
  {
    ProxyPiecesOfJoin(host, port, user, pass);
  }

  /** How the client authenticates. */
  datatype Auth =
    | CustomHeaders        // headers given: authentication is skipped
    | NoAuthentication     // authenticate=False
    | SessionCookies       // cookies given: they are installed as they are
    | Login(username: string, password: string)
    | MissingCredentials   // raises ValueError

  /** What the constructor sets up: the proxy settings and the way it
      authenticates. */
  datatype Setup = Setup(proxies: ProxyConfig, auth: Auth)

  /** A truthy optional string. */
  predicate Given(s: Option<string>) {
    s.Some? && s.value != ""
  }

  /** The authentication branch of the constructor. */
  function AuthOf(username: Option<string>, password: Option<string>, authenticate: bool,
                  hasCookies: bool, hasHeaders: bool): (a: Auth)
    ensures a.Login? <==> !hasHeaders && authenticate && !hasCookies && Given(username) && Given(password)
    ensures a.Login? ==> a == Login(username.value, password.value)
    ensures a.MissingCredentials? <==>
      !hasHeaders && authenticate && !hasCookies && !(Given(username) && Given(password))
  {
    if hasHeaders then CustomHeaders
    else if !authenticate then NoAuthentication
    else if hasCookies then SessionCookies
    else if Given(username) && Given(password) then Login(username.value, password.value)
    else MissingCredentials
  }

  /** The constructor as written: unpacking a four-piece proxy assigns the
      proxy's own user name and password to the constructor's `username`
      and `password`, which the login then uses. */
  function SessionSetup(username: Option<string>, password: Option<string>, authenticate: bool,
                        proxy: Option<string>, hasCookies: bool, hasHeaders: bool): Setup
  {
    var parts := ProxyPieces(proxy);
    var user := if |parts| == 4 then Some(parts[2]) else username;
    var pass := if |parts| == 4 then Some(parts[3]) else password;
    Setup(ProxyConfigOf(parts), AuthOf(user, pass, authenticate, hasCookies, hasHeaders))
  }

  /** With a four-piece proxy and no headers or cookies, the constructor as
      written logs in with the proxy's credentials, whatever credentials the
      caller passed, and even when the caller passed none. */
  lemma ProxyReplacesLogin(username: Option<string>, password: Option<string>, proxy: Option<string>)
    requires |ProxyPieces(proxy)| == 4
    requires ProxyPieces(proxy)[2] != "" && ProxyPieces(proxy)[3] != ""
    ensures SessionSetup(username, password, true, proxy, false, false).auth
      == Login(ProxyPieces(proxy)[2], ProxyPieces(proxy)[3])
  {
  }

  /** The discrepancy on one input: the caller asks to log in as
      `alice`/`secret` through the proxy `h:8080:pu:pp`, and the constructor
      logs in as `pu`/`pp` instead. */
  lemma ProxyReplacesLoginExample()
    ensures SessionSetup(Some("alice"), Some("secret"), true, Some("h:8080:pu:pp"), false, false).auth
      == Login("pu", "pp")
  {
    ExampleProxyPieces();
    ProxyReplacesLogin(Some("alice"), Some("secret"), Some("h:8080:pu:pp"));
  }

  /** The pieces of the example proxy. */
  lemma ExampleProxyPieces()
    ensures ProxyPieces(Some("h:8080:pu:pp")) == ["h", "8080", "pu", "pp"]
  {
    ProxyPiecesOfJoin("h", "8080", "pu", "pp");
    assert "h" + ":" + "8080" + ":" + "pu" + ":" + "pp" == "h:8080:pu:pp";
  }

  /** The constructor as evidently intended: the proxy's pieces configure
      the proxy only, and the login uses the caller's credentials. */
  function SessionSetupIntended(username: Option<string>, password: Option<string>, authenticate: bool,
                                proxy: Option<string>, hasCookies: bool, hasHeaders: bool): (s: Setup)
    ensures s.proxies == SessionSetup(username, password, authenticate, proxy, hasCookies, hasHeaders).proxies
  {
    Setup(ProxyConfigOf(ProxyPieces(proxy)), AuthOf(username, password, authenticate, hasCookies, hasHeaders))
  }

  /** On the same input the intended constructor logs in as `alice`. */
  lemma IntendedLoginExample()
    ensures SessionSetupIntended(Some("alice"), Some("secret"), true, Some("h:8080:pu:pp"), false, false).auth
      == Login("alice", "secret")
  {
    IntendedAuthIgnoresProxy(Some("alice"), Some("secret"), true, Some("h:8080:pu:pp"), None, false, false);
  }

  /** In the intended constructor the proxy never changes how the client
      authenticates, and where the proxy does not parse it agrees with the
      constructor as written. */
  lemma IntendedAuthIgnoresProxy(username: Option<string>, password: Option<string>, authenticate: bool,
                                 proxy: Option<string>, other: Option<string>,
                                 hasCookies: bool, hasHeaders: bool)
    ensures SessionSetupIntended(username, password, authenticate, proxy, hasCookies, hasHeaders).auth
      == SessionSetupIntended(username, password, authenticate, other, hasCookies, hasHeaders).auth
    ensures |ProxyPieces(proxy)| != 4 ==>
      SessionSetupIntended(username, password, authenticate, proxy, hasCookies, hasHeaders)
        == SessionSetup(username, password, authenticate, proxy, hasCookies, hasHeaders)
  {
  }

  // ---------------------------------------------------------------------
  // safe_get
  // ---------------------------------------------------------------------

  /** The value `safe_get(data, *keys, default=default)` returns: walk down
      the keys, giving up with `default` at a value that is not an object or
      at a None; a missing key continues the walk from `default`. */
  function SafeGetSpec(current: Json, keys: seq<string>, default: Json): Json
    decreases |keys|
  {
    if keys == [] then current
    else if !current.Object? then default
    else
      var next := Lookup(current.fields, keys[0]).GetOr(default);
      if next == Null then default else SafeGetSpec(next, keys[1..], default)
  }

  /** `safe_get` */
  method SafeGet(data: Json, keys: seq<string>, default: Json) returns (r: Json)
    ensures r == SafeGetSpec(data, keys, default)
  {
    var current := data;
    for i := 0 to |keys|
      invariant SafeGetSpec(current, keys[i..], default) == SafeGetSpec(data, keys, default)
    {
      assert keys[i..][1..] == keys[i + 1..];
      if !current.Object? {
        return default;
      }
      current := Lookup(current.fields, keys[i]).GetOr(default);
      if current == Null {
        return default;
      }
    }
    assert keys[|keys|..] == [];
    return current;
  }

  /** The strict nested lookup: the value at the end of the path when every
      step is an object holding the key with a value other than None. */
  function PathValue(current: Json, keys: seq<string>): Option<Json>
    decreases |keys|
  {
    if keys == [] then Some(current)
    else if !current.Object? then None
    else match Lookup(current.fields, keys[0])
      case None => None
      case Some(next) => if next == Null then None else PathValue(next, keys[1..])
  }

  /** Where the path exists, `safe_get` finds the value at its end. */
  lemma {:induction false} SafeGetFollowsPath(current: Json, keys: seq<string>, default: Json)
    requires PathValue(current, keys).Some?
    ensures SafeGetSpec(current, keys, default) == PathValue(current, keys).value
    decreases |keys|
  {
    if keys != [] {
      var next := Lookup(current.fields, keys[0]).value;
      SafeGetFollowsPath(next, keys[1..], default);
    }
  }

  /** Where the path breaks off and the default is not an object, `safe_get`
      returns the default. */
  lemma {:induction false} SafeGetBrokenPath(current: Json, keys: seq<string>, default: Json)
    requires PathValue(current, keys).None?
    requires !default.Object?
    ensures SafeGetSpec(current, keys, default) == default
    decreases |keys|
  {
    if current.Object? {
      var next := Lookup(current.fields, keys[0]);
      if next.Some? && next.value != Null {
        SafeGetBrokenPath(next.value, keys[1..], default);
      } else if next.None? && keys[1..] != [] {
        assert SafeGetSpec(default, keys[1..], default) == default;
      }
    }
  }

  /** With at least one key, `safe_get` never returns None unless None is
      the default. */
  lemma {:induction false} SafeGetNotNull(current: Json, keys: seq<string>, default: Json)
    requires keys != [] && default != Null
    ensures SafeGetSpec(current, keys, default) != Null
    decreases |keys|
  {
    if current.Object? {
      var next := Lookup(current.fields, keys[0]).GetOr(default);
      if next != Null && keys[1..] != [] {
        SafeGetNotNull(next, keys[1..], default);
      }
    }
  }

  // ---------------------------------------------------------------------
  // safe_split_urn
  // ---------------------------------------------------------------------

  /** `s` ends with `p`. */
  predicate EndsWith(s: string, p: string) {
    |p| <= |s| && s[|s| - |p|..] == p
  }

  function Last<T>(xs: seq<T>): T
    requires xs != []
  {
    xs[|xs| - 1]
  }

  /** `safe_split_urn(urn, delimiter, default)`: the last segment of a
      non-empty string, and `default` for anything else. An empty
      delimiter makes `str.split` raise, so callers pass a non-empty one. */
  function SafeSplitUrn(urn: Json, delimiter: string, default: Json): Json
    requires delimiter != ""
  {
    if Truthy(urn) && urn.Str? then Str(Last(Split(urn.s, delimiter))) else default
  }

  /** The text after the last occurrence of `sep`, found by skipping past
      one occurrence at a time. */
  function LastSegment(s: string, sep: string): string
    requires sep != ""
    decreases |s|
  {
    match IndexOf(s, sep)
    case None => s
    case Some(i) => LastSegment(s[i + |sep|..], sep)
  }
  /** The last piece of a split is the last segment. */
  lemma {:induction false} LastIsSegment(s: string, sep: string)
    requires sep != ""
    ensures Last(Split(s, sep)) == LastSegment(s, sep)
    decreases |s|
  {
    match IndexOf(s, sep)
    case None =>
    case Some(i) =>
      var rest := s[i + |sep|..];
      LastIsSegment(rest, sep);
      assert Split(s, sep) == [s[..i]] + Split(rest, sep);
  }
  /** The last segment ends the string. */
  lemma {:induction false} LastSegmentEnds(s: string, sep: string)
    requires sep != ""
    ensures |LastSegment(s, sep)| <= |s|
    ensures s[|s| - |LastSegment(s, sep)|..] == LastSegment(s, sep)
    decreases |s|
  {
    match IndexOf(s, sep)
    case None =>
      assert s[0..] == s;
    case Some(i) =>
      var rest := s[i + |sep|..];
      LastSegmentEnds(rest, sep);
      var r := LastSegment(rest, sep);
      assert LastSegment(s, sep) == r;
      SuffixOfRest(s, i + |sep|, r);
  }
  /** The last segment is the whole string or comes right after an
      occurrence of the separator. */
  lemma {:induction false} LastSegmentAfterSeparator(s: string, sep: string)
    requires sep != ""
    ensures LastSegment(s, sep) == s || AfterSeparator(s, |s| - |LastSegment(s, sep)|, sep)
    decreases |s|
  {
    match IndexOf(s, sep)
    case None =>
      assert LastSegment(s, sep) == s;
    case Some(i) =>
      var rest := s[i + |sep|..];
      LastSegmentEnds(rest, sep);
      LastSegmentAfterSeparator(rest, sep);
      var r := LastSegment(rest, sep);
      assert LastSegment(s, sep) == r;
      if r == rest {
        assert OccursAt(s, sep, i);
        assert |s| - |r| == i + |sep|;
        assert s[i..i + |sep|] == sep;
      } else {
        AfterInRest(s, sep, i + |sep|, r);
      }
  }
  /** Position `j` of `s` comes right after an occurrence of `sep`. */
  predicate AfterSeparator(s: string, j: int, sep: string) {
    |sep| <= j <= |s| && s[j - |sep|..j] == sep
  }

  /** An end of `s[start..]` is an end of `s`. */
  lemma SuffixOfRest(s: string, start: nat, r: string)
    requires start <= |s|
    requires |r| <= |s| - start && s[start..][|s| - start - |r|..] == r
    ensures s[|s| - |r|..] == r
  {
    assert s[start..][|s| - start - |r|..] == s[|s| - |r|..];
  }
  /** Coming right after a separator in `s[start..]` carries over to `s`. */
  lemma AfterInRest(s: string, sep: string, start: nat, r: string)
    requires start <= |s|
    requires |r| <= |s| - start
    requires AfterSeparator(s[start..], |s| - start - |r|, sep)
    ensures AfterSeparator(s, |s| - |r|, sep)
  {
    var rest := s[start..];
    var k := |s| - |r|;
    assert rest[|rest| - |r| - |sep|..|rest| - |r|] == s[k - |sep|..k];
  }
  /** `r` is the longest delimiter-free end of `s`: an end of `s` holding
      no `sep`, either all of `s` or just after a `sep`, and all of `s`
      when `s` holds no `sep`. */
  predicate IsLastSegment(s: string, sep: string, r: string)
    requires sep != ""
  {
    && EndsWith(s, r)
    && !Contains(r, sep)
    && (r == s || AfterSeparator(s, |s| - |r|, sep))
    && (!Contains(s, sep) ==> r == s)
  }

  /** The last piece of a split is the longest separator-free end. */
  lemma LastPieceIsSegment(s: string, sep: string)
    requires sep != ""
    ensures IsLastSegment(s, sep, Last(Split(s, sep)))
  {
    LastIsSegment(s, sep);
    LastSegmentEnds(s, sep);
    LastSegmentAfterSeparator(s, sep);
    SplitPartsFree(s, sep);
  }

  /** What `safe_split_urn` returns: for a non-empty string, its longest
      delimiter-free end; `default` otherwise. */
  lemma SafeSplitUrnSpec(urn: Json, delimiter: string, default: Json)
    requires delimiter != ""
    ensures !(urn.Str? && urn.s != "") ==> SafeSplitUrn(urn, delimiter, default) == default
    ensures urn.Str? && urn.s != "" ==>
      && SafeSplitUrn(urn, delimiter, default).Str?
      && IsLastSegment(urn.s, delimiter, SafeSplitUrn(urn, delimiter, default).s)
  {
    if urn.Str? && urn.s != "" {
      LastPieceIsSegment(urn.s, delimiter);
    }
  }

  // ---------------------------------------------------------------------
  // extract_linkedin_company_id
  // ---------------------------------------------------------------------

  const CompanyPath := "linkedin.com/company"
  const CompanyPrefix := "linkedin.com/company/"

  /** `extract_linkedin_company_id(url)`: the text after the first
      `linkedin.com/company/`, up to the next `/` or the next
      `linkedin.com/company/`; None when the URL has no company path or the
      path is not followed by `/` (the `IndexError`). */
  function ExtractCompanyId(url: string): Option<string>
  {
    if !Contains(url, CompanyPath) then None
    else
      var parts := Split(url, CompanyPrefix);
      if |parts| < 2 then None else Some(Split(parts[1], "/")[0])
  }

  /** The first piece of a split is where the string starts. */
  lemma FirstPiecePrefix(s: string, sep: string)
    requires sep != ""
    ensures |Split(s, sep)[0]| <= |s| && s[..|Split(s, sep)[0]|] == Split(s, sep)[0]
  {
  }

  /** The first piece of a split runs up to the first occurrence of the
      separator, or to the end of the string when there is none. */
  lemma FirstPieceStops(s: string, sep: string)
    requires sep != ""
    ensures var p := Split(s, sep)[0];
      && |p| <= |s| && s[..|p|] == p
      && (forall k :: 0 <= k < |p| ==> !OccursAt(s, sep, k))
      && (|p| == |s| || OccursAt(s, sep, |p|))
  {
    match IndexOf(s, sep)
    case None =>
      assert Split(s, sep)[0] == s;
    case Some(i) =>
      assert Split(s, sep)[0] == s[..i];
  }

  /** A split has a second piece exactly when the separator occurs, and that
      piece starts the text after the first occurrence. */
  lemma SecondPiece(s: string, sep: string)
    requires sep != ""
    ensures |Split(s, sep)| >= 2 <==> Contains(s, sep)
    ensures Contains(s, sep) ==>
      var rest := s[IndexOf(s, sep).value + |sep|..];
      && Split(s, sep)[1] == Split(rest, sep)[0]
      && |Split(s, sep)[1]| <= |rest| && rest[..|Split(s, sep)[1]|] == Split(s, sep)[1]
  {
    match IndexOf(s, sep)
    case None =>
    case Some(i) =>
      var rest := s[i + |sep|..];
      assert Split(s, sep) == [s[..i]] + Split(rest, sep);
      FirstPiecePrefix(rest, sep);
  }

  /** An occurrence of a pattern is an occurrence of each of its prefixes. */
  lemma ContainsPrefixOfPattern(s: string, p: string, q: string)
    requires |q| <= |p| && p[..|q|] == q
    requires Contains(s, p)
    ensures Contains(s, q)
  {
    var i := IndexOf(s, p).value;
    assert s[i..i + |q|] == p[..|q|];
    assert OccursAt(s, q, i);
  }

  /** `id` is the longest start of `rest` that reaches neither a `/` nor
      another `linkedin.com/company/`: it holds no `/`, no occurrence of the
      prefix begins inside it, and it stops at the end of `rest`, at a `/`,
      or where the prefix occurs again. */
  predicate IsCompanyId(rest: string, id: string) {
    && |id| <= |rest| && rest[..|id|] == id
    && !Contains(id, "/")
    && (forall k :: 0 <= k < |id| ==> !OccursAt(rest, CompanyPrefix, k))
    && (|id| == |rest| || rest[|id|] == '/' || OccursAt(rest, CompanyPrefix, |id|))
  }

  /** At most one string is the company id of a given text. */
  lemma CompanyIdUnique(rest: string, a: string, b: string)
    requires IsCompanyId(rest, a) && IsCompanyId(rest, b)
    ensures a == b
  {
    if |a| < |b| {
      CompanyIdStopsFirst(rest, a, b);
    } else if |b| < |a| {
      CompanyIdStopsFirst(rest, b, a);
    } else {
      assert a == rest[..|a|] == b;
    }
  }

  /** A company id ends no later than any other candidate. */
  lemma CompanyIdStopsFirst(rest: string, a: string, b: string)
    requires IsCompanyId(rest, a) && IsCompanyId(rest, b)
    ensures |b| <= |a|
  {
    forall i | 0 <= i < |b| ensures rest[i] != '/' {
      assert !OccursAt(b, "/", i);
      assert b[i..i + 1] == [rest[i]];
    }
  }

  /** The first `/`-piece of the first `linkedin.com/company/`-piece of a
      text is its company id. */
  lemma CompanyIdOfText(rest: string)
    ensures IsCompanyId(rest, Split(Split(rest, CompanyPrefix)[0], "/")[0])
  {
    var piece := Split(rest, CompanyPrefix)[0];
    var id := Split(piece, "/")[0];
    FirstPieceStops(rest, CompanyPrefix);
    FirstPieceStops(piece, "/");
    SplitPartsFree(piece, "/");
    assert !Contains(id, "/");
    assert rest[..|id|] == id by {
      assert piece[..|id|] == rest[..|piece|][..|id|];
    }
    if |id| < |piece| {
      assert OccursAt(piece, "/", |id|);
      assert piece[|id|..|id| + 1] == "/";
      assert rest[|id|] == piece[|id|];
    }
  }

  /** A company id is found exactly when the URL contains
      `linkedin.com/company/`, and it is the company id of the text after the
      first such occurrence. */
  lemma ExtractCompanyIdSpec(url: string)
    ensures ExtractCompanyId(url).Some? <==> Contains(url, CompanyPrefix)
    ensures ExtractCompanyId(url).Some? ==>
      IsCompanyId(url[IndexOf(url, CompanyPrefix).value + |CompanyPrefix|..], ExtractCompanyId(url).value)
  {
    SecondPiece(url, CompanyPrefix);
    if Contains(url, CompanyPrefix) {
      ContainsPrefixOfPattern(url, CompanyPrefix, CompanyPath);
      CompanyIdOfText(url[IndexOf(url, CompanyPrefix).value + |CompanyPrefix|..]);
    }
  }

  // ---------------------------------------------------------------------
  // format_date
  // ---------------------------------------------------------------------

  /** `str(j)` for the scalar values a date holds; the text of a list or an
      object is given by `repr`. */
  function PyStr(j: Json, repr: Json -> string): string {
    match j
    case Null => "None"
    case Bool(b) => if b then "True" else "False"
    case Int(i) => IntToString(i)
    case Str(s) => s
    case _ => repr(j)
  }

  /** `format_date(date)`: `(month, year, day)` as text, `''` for a missing
      field, and three empty strings for an empty or non-object date. */
  function FormatDate(date: Json, repr: Json -> string): (string, string, string)
  {
    if !Truthy(date) || !date.Object? then ("", "", "")
    else
      var month := Lookup(date.fields, "month").GetOr(Str(""));
      var year := Lookup(date.fields, "year").GetOr(Str(""));
      var day := Lookup(date.fields, "day").GetOr(Str(""));
      (PyStr(month, repr), PyStr(year, repr), PyStr(day, repr))
  }

  /** `t` is what `str` gives for the date field `key`: `''` when it is
      missing, the text itself for a string, digits that `int()` reads back
      as the number for an integer, and `None`, `True` or `False` for those
      constants. */
  predicate IsFieldText(fields: Record, key: string, t: string) {
    match Lookup(fields, key)
    case None => t == ""
    case Some(v) =>
      match v
      case Str(x) => t == x
      case Int(i) => ParseInt(t) == Some(i)
      case Null => t == "None"
      case Bool(b) => t == (if b then "True" else "False")
      case _ => true
  }

  /** The text of one date field. */
  lemma DateFieldText(fields: Record, key: string, repr: Json -> string)
    ensures IsFieldText(fields, key, PyStr(Lookup(fields, key).GetOr(Str("")), repr))
  {
    var v := Lookup(fields, key);
    if v.Some? && v.value.Int? {
      ParseIntToString(v.value.i);
    }
  }

  /** A date that is empty or not an object gives three empty strings; a
      date object gives the text of its month, year and day fields. */
  lemma FormatDateSpec(date: Json, repr: Json -> string)
    ensures !Truthy(date) || !date.Object? ==> FormatDate(date, repr) == ("", "", "")
    ensures Truthy(date) && date.Object? ==>
      var (m, y, d) := FormatDate(date, repr);
      && IsFieldText(date.fields, "month", m)
      && IsFieldText(date.fields, "year", y)
      && IsFieldText(date.fields, "day", d)
  {
    if Truthy(date) && date.Object? {
      DateFieldText(date.fields, "month", repr);
      DateFieldText(date.fields, "year", repr);
      DateFieldText(date.fields, "day", repr);
    }
  }
}
