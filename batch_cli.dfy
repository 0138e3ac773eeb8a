/**
 * The batch script index.py: read the usable accounts and the profile URLs
 * from two sheets, cut the URLs into batches of 100, run one batch per
 * account (start it, wait for it), collect the results and lay them out for
 * the results sheet.
 *
 * The sheets are their values; `ast.literal_eval`, the POST that starts a
 * batch and the status requests are parameters indexed by the batch number.
 */
module BatchCli {
  import opened Values
  import opened Text
  import opened Cookies
  import opened Sheets
  import opened Batches
  import opened Polling
  import ApiServer

  // ---------------------------------------------------------------------
  // read_accounts

  /** Positions of the columns `read_accounts` uses. */
  datatype IndexColumns = IndexColumns(cookies: nat, status: nat, proxy: nat)

  /** The header lookups of index.py:96-103. `ip_and_port` must be present
      although its position is overwritten by that of `Structured proxy`. */
  function FindIndexColumns(header: seq<string>): (r: Option<IndexColumns>)
    ensures r.Some? <==> "cookies" in header && "ip_and_port" in header
                         && "verification_status" in header && "Structured proxy" in header
    ensures r.Some? ==> r.value.cookies < |header| && header[r.value.cookies] == "cookies"
    ensures r.Some? ==> r.value.status < |header| && header[r.value.status] == "verification_status"
    ensures r.Some? ==> r.value.proxy < |header| && header[r.value.proxy] == "Structured proxy"
  {
    var c := ColumnOf(header, "cookies");
    var ip := ColumnOf(header, "ip_and_port");
    var s := ColumnOf(header, "verification_status");
    var p := ColumnOf(header, "Structured proxy");
    if c.Some? && ip.Some? && s.Some? && p.Some? then Some(IndexColumns(c.value, s.value, p.value))
    else None
  }

  /** An account as index.py keeps it. */
  datatype Credentials = Credentials(liAt: string, jsessionid: string, proxy: string)

  /** The tokens index.py reads from a cookie cell:
      `extract_ids(parse_cookie(cell))`, with `eval` for `ast.literal_eval`. */
  function CookieTokens(eval: string -> LiteralEval): (tokens: string -> (Option<string>, Option<string>))
    ensures forall cell :: tokens(cell) == ExtractIds(ParseCookie(cell, eval))
  {
    cell => ExtractIds(ParseCookie(cell, eval))
  }

  /** What one data row contributes to `accounts`, given how the cookie cell
      is read. */
  function CredentialsOf(row: seq<string>, ix: IndexColumns, tokens: string -> (Option<string>, Option<string>))
    : (r: Option<Credentials>)
  {
    if |row| <= ApiServer.MaxOf3(ix.cookies, ix.proxy, ix.status) then None
    else if NormalizeStatus(row[ix.status]) != "verified" then None
    else
      var session := Strip(row[ix.cookies]);
      var proxy := Strip(row[ix.proxy]);
      if session == "" then None
      else
        var t := tokens(session);
        if BothTokens(t) then Some(Credentials(t.1.value, t.0.value, proxy)) else None
  }

  /** A row gives an account exactly when it has the three columns, its
      status reads `verified` once normalised and its cookie cell is not
      blank and yields both tokens; no daily-use count is consulted. */
  lemma CredentialsSpec(row: seq<string>, ix: IndexColumns, tokens: string -> (Option<string>, Option<string>))
    ensures CredentialsOf(row, ix, tokens).Some? <==>
              && |row| > ApiServer.MaxOf3(ix.cookies, ix.proxy, ix.status)
              && NormalizeStatus(row[ix.status]) == "verified"
              && Strip(row[ix.cookies]) != ""
              && BothTokens(tokens(Strip(row[ix.cookies])))
    ensures CredentialsOf(row, ix, tokens).Some? ==>
              var t := tokens(Strip(row[ix.cookies]));
              CredentialsOf(row, ix, tokens).value == Credentials(t.1.value, t.0.value, Strip(row[ix.proxy]))
  {
  }

  /** Only the three cells decide what a row gives: two rows of the same
      length that agree on them give the same account. */
  lemma CredentialsIgnoreOtherCells(row: seq<string>, row': seq<string>, ix: IndexColumns,
                                    tokens: string -> (Option<string>, Option<string>))
    requires |row'| == |row|
    requires |row| > ApiServer.MaxOf3(ix.cookies, ix.proxy, ix.status)
    requires row'[ix.cookies] == row[ix.cookies] && row'[ix.status] == row[ix.status] && row'[ix.proxy] == row[ix.proxy]
    ensures CredentialsOf(row', ix, tokens) == CredentialsOf(row, ix, tokens)
  {
  }

  /** What each row contributes, the header row nothing. */
  function RowCredentials(rows: Grid, ix: IndexColumns, tokens: string -> (Option<string>, Option<string>))
    : (cs: seq<Option<Credentials>>)
    ensures |cs| == |rows|
    ensures rows != [] ==> cs[0] == None
    ensures forall j :: 1 <= j < |rows| ==> cs[j] == CredentialsOf(rows[j], ix, tokens)
  {
    seq(|rows|, j requires 0 <= j < |rows| => if j == 0 then None else CredentialsOf(rows[j], ix, tokens))
  }

  /** The accounts `read_accounts` returns for the sheet values. */
  function EligibleAccounts(rows: Grid, tokens: string -> (Option<string>, Option<string>)): seq<Credentials> {
    if |rows| < 2 then []
    else
      match FindIndexColumns(rows[0])
      case None => []
      case Some(ix) => Somes(RowCredentials(rows, ix, tokens))
  }

  /** `read_accounts`, given the values of the sheet. */
  method ReadAccounts(rows: Grid, eval: string -> LiteralEval) returns (accounts: seq<Credentials>)
    ensures accounts == EligibleAccounts(rows, CookieTokens(eval))
  {
    var tokens := CookieTokens(eval);
    if |rows| < 2 {
      return [];
    }
    var ix := FindIndexColumns(rows[0]);
    if ix.None? {
      return [];
    }
    ghost var cs := RowCredentials(rows, ix.value, tokens);
    accounts := [];
    SomesStep(cs, 0);
    for i := 1 to |rows|
      invariant accounts == Somes(cs[..i])
    {
      SomesStep(cs, i);
      var found := CredentialsOf(rows[i], ix.value, tokens);
      if found.Some? {
        accounts := accounts + [found.value];
      }
    }
    assert cs[..|rows|] == cs;
  }

  /** Every account returned is the one a data row gives. */
  lemma AccountFromRow(rows: Grid, tokens: string -> (Option<string>, Option<string>), n: nat)
    requires n < |EligibleAccounts(rows, tokens)|
    ensures |rows| >= 2 && FindIndexColumns(rows[0]).Some?
    ensures var ix := FindIndexColumns(rows[0]).value;
            var j := SourceIndex(RowCredentials(rows, ix, tokens), n);
            1 <= j < |rows| && CredentialsOf(rows[j], ix, tokens) == Some(EligibleAccounts(rows, tokens)[n])
  {
    var ix := FindIndexColumns(rows[0]).value;
    var j := SourceIndex(RowCredentials(rows, ix, tokens), n);
    assert j != 0;
  }

  /** Every data row that gives an account has it returned. */
  lemma EveryEligibleRowReturned(rows: Grid, tokens: string -> (Option<string>, Option<string>), j: nat)
    requires 1 <= j < |rows| && FindIndexColumns(rows[0]).Some?
    requires CredentialsOf(rows[j], FindIndexColumns(rows[0]).value, tokens).Some?
    ensures CredentialsOf(rows[j], FindIndexColumns(rows[0]).value, tokens).value in EligibleAccounts(rows, tokens)
  {
    SomeListed(RowCredentials(rows, FindIndexColumns(rows[0]).value, tokens), j);
  }

  /** The accounts come in sheet order. */
  lemma AccountsInSheetOrder(rows: Grid, tokens: string -> (Option<string>, Option<string>), a: nat, b: nat)
    requires a < b < |EligibleAccounts(rows, tokens)|
    ensures |rows| >= 2 && FindIndexColumns(rows[0]).Some?
    ensures var cs := RowCredentials(rows, FindIndexColumns(rows[0]).value, tokens);
            SourceIndex(cs, a) < SourceIndex(cs, b)
  {
    SourceIndexOrder(RowCredentials(rows, FindIndexColumns(rows[0]).value, tokens), a, b);
  }

  /** A sheet without an `ip_and_port` column yields no account, even
      though that column is never read. */
  lemma IpAndPortRequired(rows: Grid, tokens: string -> (Option<string>, Option<string>))
    requires rows != [] && "ip_and_port" !in rows[0]
    ensures EligibleAccounts(rows, tokens) == []
  {
  }

  // ---------------------------------------------------------------------
  // read_profile_urls

  /** The stripped URL of a data row, when the row reaches the URL column
      and the cell is not blank. */
  function UrlCell(row: seq<string>, u: nat): (r: Option<string>)
    ensures r.Some? <==> |row| > u && Strip(row[u]) != ""
    ensures r.Some? ==> r.value == Strip(row[u])
  {
    if |row| > u && Strip(row[u]) != "" then Some(Strip(row[u])) else None
  }

  /** The URL each data row contributes. */
  function UrlCells(rows: Grid, u: nat): (cs: seq<Option<string>>)
    requires rows != []
    ensures |cs| == |rows| - 1
    ensures forall j :: 0 <= j < |cs| ==> cs[j] == UrlCell(rows[j + 1], u)
  {
    seq(|rows| - 1, j requires 0 <= j < |rows| - 1 => UrlCell(rows[j + 1], u))
  }

  /** `read_profile_urls`, given the values of the sheet. */
  function ProfileUrls(rows: Grid): (urls: seq<string>)
    ensures |urls| <= if rows == [] then 0 else |rows| - 1
  {
    if |rows| < 2 then []
    else
      match ColumnOf(rows[0], "Corporate Linkedin Url")
      case None => []
      case Some(u) => Somes(UrlCells(rows, u))
  }

  /** Every URL returned is the stripped, non-blank URL cell of a data row. */
  lemma UrlFromRow(rows: Grid, n: nat)
    requires n < |ProfileUrls(rows)|
    ensures |rows| >= 2 && ColumnOf(rows[0], "Corporate Linkedin Url").Some?
    ensures var u := ColumnOf(rows[0], "Corporate Linkedin Url").value;
            var j := SourceIndex(UrlCells(rows, u), n) + 1;
            && 1 <= j < |rows| && |rows[j]| > u
            && ProfileUrls(rows)[n] == Strip(rows[j][u])
            && ProfileUrls(rows)[n] != ""
  {
    var u := ColumnOf(rows[0], "Corporate Linkedin Url").value;
    var j := SourceIndex(UrlCells(rows, u), n);
    assert UrlCells(rows, u)[j] == UrlCell(rows[j + 1], u);
  }

  /** The URLs returned have no surrounding whitespace. */
  lemma UrlsStripped(rows: Grid, n: nat)
    requires n < |ProfileUrls(rows)|
    ensures Strip(ProfileUrls(rows)[n]) == ProfileUrls(rows)[n]
  {
    UrlFromRow(rows, n);
    var u := ColumnOf(rows[0], "Corporate Linkedin Url").value;
    var j := SourceIndex(UrlCells(rows, u), n) + 1;
    StripIdempotent(rows[j][u]);
  }

  /** Every data row with a non-blank URL cell has its URL returned. */
  lemma EveryUrlReturned(rows: Grid, j: nat)
    requires 1 <= j < |rows| && ColumnOf(rows[0], "Corporate Linkedin Url").Some?
    requires var u := ColumnOf(rows[0], "Corporate Linkedin Url").value; |rows[j]| > u && Strip(rows[j][u]) != ""
    ensures Strip(rows[j][ColumnOf(rows[0], "Corporate Linkedin Url").value]) in ProfileUrls(rows)
  {
    var u := ColumnOf(rows[0], "Corporate Linkedin Url").value;
    SomeListed(UrlCells(rows, u), j - 1);
  }

  // ---------------------------------------------------------------------
  // write_results

  /** The values of one result in header order, `""` for a missing key. */
  function RowValues(rec: Record, headers: seq<string>): (vs: seq<Json>)
    ensures |vs| == |headers|
    ensures forall k :: 0 <= k < |headers| && headers[k] !in Keys(rec) ==> vs[k] == Str("")
    ensures forall k :: 0 <= k < |headers| && headers[k] in Keys(rec) ==> Some(vs[k]) == Lookup(rec, headers[k])
  {
    seq(|headers|, k requires 0 <= k < |headers| => Lookup(rec, headers[k]).GetOr(Str("")))
  }

  predicate AllObjects(results: seq<Json>) {
    forall i :: 0 <= i < |results| ==> results[i].Object?
  }

  /** The values `write_results` sends: a header row with the keys of the
      first result, then one row per result. None when there is nothing to
      write, or when a result is not a dict and the error is swallowed. */
  function ValueMatrix(results: seq<Json>): (m: Option<seq<seq<Json>>>)
    ensures m.Some? <==> results != [] && AllObjects(results)
    ensures m.Some? ==> |m.value| == |results| + 1
    ensures m.Some? ==> var headers := Keys(results[0].fields);
              && |m.value[0]| == |headers|
              && (forall k :: 0 <= k < |headers| ==> m.value[0][k] == Str(headers[k]))
              && forall i :: 0 <= i < |results| ==> m.value[i + 1] == RowValues(results[i].fields, headers)
  {
    if results == [] || !AllObjects(results) then None
    else
      var headers := Keys(results[0].fields);
      Some([seq(|headers|, k requires 0 <= k < |headers| => Str(headers[k]))]
           + seq(|results|, i requires 0 <= i < |results| => RowValues(results[i].fields, headers)))
  }

  /** In a dict, looking up the key at position `k` finds the value there. */
  lemma LookupAt(rec: Record, k: nat)
    requires UniqueKeys(rec) && k < |rec|
    ensures Lookup(rec, rec[k].0) == Some(rec[k].1)
  {
    var r := Lookup(rec, rec[k].0);
    assert Keys(rec)[k] == rec[k].0;
    var i :| 0 <= i < |rec| && rec[i] == (rec[k].0, r.value);
    assert i == k;
  }

  /** A result with the same keys as the first, in the same order, is
      written as its values in that order. */
  lemma SameKeysRow(rec: Record, headers: seq<string>)
    requires UniqueKeys(rec) && Keys(rec) == headers
    ensures RowValues(rec, headers) == seq(|rec|, k requires 0 <= k < |rec| => rec[k].1)
  {
    forall k | 0 <= k < |rec| ensures RowValues(rec, headers)[k] == rec[k].1 {
      assert headers[k] == rec[k].0 && headers[k] in Keys(rec);
      LookupAt(rec, k);
    }
  }

  /** A key that the first result lacks is not written for any result. */
  lemma KeysOfFirstOnly(results: seq<Json>, key: string, i: nat)
    requires ValueMatrix(results).Some? && i < |results|
    requires key !in Keys(results[0].fields)
    ensures forall k :: 0 <= k < |ValueMatrix(results).value[i + 1]| ==> ValueMatrix(results).value[0][k] != Str(key)
  {
  }

  // ---------------------------------------------------------------------
  // start_scraping and the main block

  /** URLs per batch (index.py:269). */
  const BatchSize: nat := 100

  /** The body `start_scraping` posts: every `ajax:` is cut out of the
      session id. */
  function IndexPayload(a: Credentials, urls: seq<string>): (p: ApiServer.Payload)
    ensures p.jsessionid == Join(Split(a.jsessionid, "ajax:"), "")
    ensures p.liAt == a.liAt && p.profileUrls == urls && p.proxy == a.proxy
  {
    ReplaceIsSplitJoin(a.jsessionid, "ajax:", "");
    ApiServer.Payload(ReplaceAll(a.jsessionid, "ajax:", ""), a.liAt, urls, a.proxy)
  }

  /** `start_scraping` for batch `i`: the `batch_id` of the answer, None
      when the request fails or the answer has no `batch_id`. */
  function StartBatch(i: nat, a: Credentials, urls: seq<string>,
                      post: nat -> ApiServer.Payload -> ApiServer.PostOutcome): (id: Option<Json>)
    ensures post(i)(IndexPayload(a, urls)).PostFailed? ==> id.None?
    ensures post(i)(IndexPayload(a, urls)).PostOk? ==> id == Lookup(post(i)(IndexPayload(a, urls)).fields, "batch_id")
  {
    match post(i)(IndexPayload(a, urls))
    case PostFailed => None
    case PostOk(fields) => Lookup(fields, "batch_id")
  }

  /** What `all_results.extend(result)` appends: a list's items, a dict's
      keys, a string's characters; None where Python raises `TypeError`
      because the value is not iterable. */
  function Extension(result: Json): (r: Option<seq<Json>>)
    ensures r.None? <==> result.Null? || result.Bool? || result.Int?
    ensures result.List? ==> r == Some(result.items)
    ensures result.Str? ==> r.Some? && |r.value| == |result.s|
    ensures result.Object? ==> r.Some? && |r.value| == |result.fields|
  {
    match result
    case List(items) => Some(items)
    case Object(fields) => Some(seq(|fields|, k requires 0 <= k < |fields| => Str(fields[k].0)))
    case Str(s) => Some(seq(|s|, k requires 0 <= k < |s| => Str([s[k]])))
    case _ => None
  }

  /** What batch `i` adds to `all_results`: nothing when it does not start,
      has a falsy id or brings back a falsy result; None when the result
      cannot be iterated and the script stops. */
  function BatchContribution(i: nat, a: Credentials, urls: seq<string>,
                             post: nat -> ApiServer.Payload -> ApiServer.PostOutcome,
                             respond: nat -> nat -> PollResponse): (r: Option<seq<Json>>)
    ensures StartBatch(i, a, urls, post).None? ==> r == Some([])
    ensures StartBatch(i, a, urls, post).Some? && !Truthy(StartBatch(i, a, urls, post).value) ==> r == Some([])
    ensures !Truthy(IndexResult(PollOutcome(respond(i)))) ==> r == Some([])
    ensures StartBatch(i, a, urls, post).Some? && Truthy(StartBatch(i, a, urls, post).value) ==>
              r == if Truthy(IndexResult(PollOutcome(respond(i)))) then Extension(IndexResult(PollOutcome(respond(i))))
                   else Some([])
  {
    var id := StartBatch(i, a, urls, post);
    if id.None? || !Truthy(id.value) then Some([])
    else
      var result := IndexResult(PollOutcome(respond(i)));
      if Truthy(result) then Extension(result) else Some([])
  }

  /** The contributions of the batches processed: pair `i` is account `i`
      with batch `i`, for as many pairs as the shorter list allows. */
  function Contributions(accounts: seq<Credentials>, batches: seq<seq<string>>,
                         post: nat -> ApiServer.Payload -> ApiServer.PostOutcome,
                         respond: nat -> nat -> PollResponse): (cs: seq<Option<seq<Json>>>)
    ensures |cs| == Min(|accounts|, |batches|)
    ensures forall i :: 0 <= i < |cs| ==> cs[i] == BatchContribution(i, accounts[i], batches[i], post, respond)
  {
    seq(Min(|accounts|, |batches|), i requires 0 <= i < Min(|accounts|, |batches|) =>
      BatchContribution(i, accounts[i], batches[i], post, respond))
  }

  /** `all_results` after the contributions `cs`, None once one raised. */
  function Collect(cs: seq<Option<seq<Json>>>): Option<seq<Json>>
    decreases |cs|
  {
    if cs == [] then Some([])
    else
      match Collect(cs[..|cs| - 1])
      case None => None
      case Some(rs) =>
        match cs[|cs| - 1]
        case None => None
        case Some(more) => Some(rs + more)
  }

  /** How the script ends: it stops before any batch when there is no
      account or no URL, stops at a result it cannot iterate, or finishes
      with the collected results and the values written to the results
      sheet (None when nothing is written). */
  datatype RunEnd =
    | NoAccounts
    | NoUrls
    | Raised
    | Finished(results: seq<Json>, written: Option<seq<seq<Json>>>)

  /** The end of the main block for the accounts and URLs read. */
  function RunSpec(accounts: seq<Credentials>, urls: seq<string>,
                   post: nat -> ApiServer.Payload -> ApiServer.PostOutcome,
                   respond: nat -> nat -> PollResponse): RunEnd
  {
    if accounts == [] then NoAccounts
    else if urls == [] then NoUrls
    else
      match Collect(Contributions(accounts, Chunks(urls, BatchSize), post, respond))
      case None => Raised
      case Some(rs) => Finished(rs, if rs == [] then None else ValueMatrix(rs))
  }

  /** A contribution that raises ends the fold for good. */
  lemma {:induction false} CollectStuck(cs: seq<Option<seq<Json>>>, i: nat)
    requires i <= |cs| && Collect(cs[..i]).None?
    ensures Collect(cs).None?
    decreases |cs| - i
  {
    if i < |cs| {
      assert cs[..i + 1][..i] == cs[..i];
      CollectStuck(cs, i + 1);
    } else {
      assert cs[..i] == cs;
    }
  }

  /** One more contribution extends the results, or raises. */
  lemma CollectStep(cs: seq<Option<seq<Json>>>, i: nat)
    requires i < |cs|
    ensures cs[i].None? ==> Collect(cs[..i + 1]).None?
    ensures Collect(cs[..i]).Some? && cs[i].Some? ==>
              Collect(cs[..i + 1]) == Some(Collect(cs[..i]).value + cs[i].value)
  {
    assert cs[..i + 1][..i] == cs[..i];
  }

  /** The loop of the main block, from the accounts and URLs read. */
  method RunBatches(accounts: seq<Credentials>, urls: seq<string>,
                    post: nat -> ApiServer.Payload -> ApiServer.PostOutcome,
                    respond: nat -> nat -> PollResponse) returns (end: RunEnd)
    ensures end == RunSpec(accounts, urls, post, respond)
  {
    if accounts == [] {
      return NoAccounts;
    }
    if urls == [] {
      return NoUrls;
    }
    var batches := Chunks(urls, BatchSize);
    var allResults: seq<Json> := [];
    var numToProcess := Min(|accounts|, |batches|);
    ghost var cs := Contributions(accounts, batches, post, respond);
    for i := 0 to numToProcess
      invariant Collect(cs[..i]) == Some(allResults)
    {
      CollectStep(cs, i);
      var account := accounts[i];
      var batchUrls := batches[i];
      var batchId := StartBatch(i, account, batchUrls, post);
      var more: Option<seq<Json>> := Some([]);
      if batchId.Some? && Truthy(batchId.value) {
        var result, polls, sleeps := IndexWaitForCompletion(respond(i));
        if Truthy(result) {
          more := Extension(result);
        }
      }
      assert more == cs[i];
      if more.None? {
        CollectStuck(cs, i + 1);
        return Raised;
      }
      allResults := allResults + more.value;
    }
    assert cs[..numToProcess] == cs;
    if allResults == [] {
      return Finished([], None);
    }
    return Finished(allResults, ValueMatrix(allResults));
  }

  /** The script: read both sheets, then run the batches. */
  method RunScript(accountRows: Grid, urlRows: Grid, eval: string -> LiteralEval,
              post: nat -> ApiServer.Payload -> ApiServer.PostOutcome,
              respond: nat -> nat -> PollResponse) returns (end: RunEnd)
    ensures end == RunSpec(EligibleAccounts(accountRows, CookieTokens(eval)), ProfileUrls(urlRows), post, respond)
  {
    var accounts := ReadAccounts(accountRows, eval);
    var urls := ProfileUrls(urlRows);
    end := RunBatches(accounts, urls, post, respond);
  }

  // ---------------------------------------------------------------------
  // Properties of the main block

  /** When nothing raises, the results are the contributions of the batches
      one after the other, in batch order. */
  lemma {:induction false} CollectIsConcat(cs: seq<Option<seq<Json>>>)
    ensures Collect(cs).None? <==> exists i :: 0 <= i < |cs| && cs[i].None?
    ensures Collect(cs).Some? ==>
              Collect(cs).value == Concat(seq(|cs|, i requires 0 <= i < |cs| && cs[i].Some? => cs[i].value))
    decreases |cs|
  {
    if cs != [] {
      var init := cs[..|cs| - 1];
      CollectIsConcat(init);
      if Collect(cs).Some? {
        var vs := seq(|cs|, i requires 0 <= i < |cs| && cs[i].Some? => cs[i].value);
        assert vs[..|vs| - 1] == seq(|init|, i requires 0 <= i < |init| && init[i].Some? => init[i].value);
      }
      if exists i :: 0 <= i < |init| && init[i].None? {
        var i :| 0 <= i < |init| && init[i].None?;
        assert cs[i].None?;
      }
    }
  }

  /** Exactly `min(len(accounts), len(batches))` batches are processed, and
      batch `i` is run with account `i`. */
  lemma ProcessedPairs(accounts: seq<Credentials>, urls: seq<string>,
                       post: nat -> ApiServer.Payload -> ApiServer.PostOutcome,
                       respond: nat -> nat -> PollResponse)
    requires urls != []
    ensures var cs := Contributions(accounts, Chunks(urls, BatchSize), post, respond);
            && |cs| == Min(|accounts|, NumChunks(|urls|, BatchSize))
            && forall i :: 0 <= i < |cs| ==>
                 cs[i] == BatchContribution(i, accounts[i], Chunks(urls, BatchSize)[i], post, respond)
  {
    ChunkCount(urls, BatchSize);
  }

  /** A batch whose start fails, or whose poll ends in failure or a
      time-out, adds nothing. */
  lemma UnfinishedBatchAddsNothing(i: nat, a: Credentials, urls: seq<string>,
                                   post: nat -> ApiServer.Payload -> ApiServer.PostOutcome,
                                   respond: nat -> nat -> PollResponse)
    requires post(i)(IndexPayload(a, urls)).PostFailed? || !PollOutcome(respond(i)).Completed?
    ensures BatchContribution(i, a, urls, post, respond) == Some([])
  {
  }

  /** A completed batch whose result is a list adds its items. */
  lemma CompletedBatchAddsItems(i: nat, a: Credentials, urls: seq<string>,
                                post: nat -> ApiServer.Payload -> ApiServer.PostOutcome,
                                respond: nat -> nat -> PollResponse)
    requires StartBatch(i, a, urls, post).Some? && Truthy(StartBatch(i, a, urls, post).value)
    requires PollOutcome(respond(i)).Completed? && PollOutcome(respond(i)).result.List?
    ensures BatchContribution(i, a, urls, post, respond) == Some(PollOutcome(respond(i)).result.items)
  {
    var result := PollOutcome(respond(i)).result;
    assert IndexResult(PollOutcome(respond(i))) == result;
    assert Extension(result) == Some(result.items);
  }
}
