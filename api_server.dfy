/**
 * The account handling of the FastAPI server (api.py): choosing the first
 * usable account of the accounts sheet, counting one use of it, starting a
 * scrape with its tokens, and the per-account status report.
 *
 * The sheet is a `Worksheet` object holding the grid of cell texts;
 * `ast.literal_eval` and the HTTP calls are parameters.
 */
module ApiServer {
  import opened Values
  import opened Text
  import opened Numerals
  import opened Cookies
  import opened Sheets

  /** `CONFIG["daily_limit"]` */
  const DailyLimit: int := 250

  /** Positions of the columns the account reader needs. */
  datatype AccountColumns = AccountColumns(cookies: nat, proxy: nat, status: nat, daily: nat)

  function MaxOf4(a: nat, b: nat, c: nat, d: nat): (m: nat)
    ensures a <= m && b <= m && c <= m && d <= m
    ensures m == a || m == b || m == c || m == d
  {
    var ab := if a < b then b else a;
    var cd := if c < d then d else c;
    if ab < cd then cd else ab
  }

  /** The header lookups of api.py:131-138: None when a column is missing. */
  function FindAccountColumns(header: seq<string>): (r: Option<AccountColumns>)
    ensures r.Some? <==> "cookies" in header && "Structured proxy" in header
                         && "verification_status" in header && "daily_use" in header
    ensures r.Some? ==> r.value.daily < |header| && header[r.value.daily] == "daily_use"
    ensures r.Some? ==> r.value.status < |header| && header[r.value.status] == "verification_status"
    ensures r.Some? ==> r.value.cookies < |header| && header[r.value.cookies] == "cookies"
    ensures r.Some? ==> r.value.proxy < |header| && header[r.value.proxy] == "Structured proxy"
    ensures r.Some? ==> ColumnOf(header, "daily_use") == Some(r.value.daily)
  {
    var c := ColumnOf(header, "cookies");
    var p := ColumnOf(header, "Structured proxy");
    var s := ColumnOf(header, "verification_status");
    var d := ColumnOf(header, "daily_use");
    if c.Some? && p.Some? && s.Some? && d.Some? then
      Some(AccountColumns(c.value, p.value, s.value, d.value))
    else None
  }

  /** An account as `read_available_account` returns it; `rowIndex` is the
      1-based sheet row. */
  datatype Account = Account(liAt: string, jsessionid: string, proxy: string, rowIndex: nat, dailyUse: int)

  /** The daily-use cell: blank means 0, and so does text `int()` rejects. */
  function DailyUse(cell: string): (d: int)
    ensures Strip(cell) == "" ==> d == 0
    ensures Strip(cell) != "" && ParseInt(Strip(cell)).Some? ==> d == ParseInt(Strip(cell)).value
    ensures Strip(cell) != "" && ParseInt(Strip(cell)).None? ==> d == 0
  {
    var s := Strip(cell);
    if s == "" then 0 else ParseInt(s).GetOr(0)
  }

  /** `str(n)` read back as a daily-use cell is `n`. */
  lemma DailyUseOfString(n: int)
    ensures DailyUse(IntToString(n)) == n
  {
    var s := IntToString(n);
    assert forall k :: 0 <= k < |s| ==> IsDigit(s[k]) || s[k] == '-';
    DigitsStripped(s);
    ParseIntToString(n);
  }

  /** How the two converted cells are read: the daily-use count and the two
      tokens of the cookie cell. The selection and the report are stated for
      any reading; `PythonReading` is the one the server performs. */
  datatype Reading = Reading(dailyUse: string -> int, tokens: string -> (Option<string>, Option<string>))

  /** The server's reading of the daily-use cell. */
  const ReadDailyUse: string -> int := cell => DailyUse(cell)

  /** The server's reading: `DailyUse`, and `extract_ids(parse_cookie(cell))`
      with `eval` standing for `ast.literal_eval`. */
  function PythonReading(eval: string -> LiteralEval): (rd: Reading)
    ensures rd.dailyUse == ReadDailyUse
    ensures forall cell :: rd.tokens(cell) == ExtractIds(ParseCookie(cell, eval))
  {
    Reading(ReadDailyUse, cell => ExtractIds(ParseCookie(cell, eval)))
  }

  /** What one data row of the sheet, at 1-based row `i`, contributes: the
      account it describes, or None when the loop skips it. */
  function RowAccount(row: seq<string>, ix: AccountColumns, i: nat, rd: Reading): (r: Option<Account>)
    ensures r.Some? ==> r.value.rowIndex == i
  {
    if |row| <= MaxOf4(ix.cookies, ix.proxy, ix.status, ix.daily) then None
    else if NormalizeStatus(row[ix.status]) != "verified" then None
    else
      var session := Strip(row[ix.cookies]);
      var proxy := Strip(row[ix.proxy]);
      var dailyUse := rd.dailyUse(row[ix.daily]);
      if dailyUse >= DailyLimit then None
      else if session == "" then None
      else
        var t := rd.tokens(session);
        if BothTokens(t) then Some(Account(t.1.value, t.0.value, proxy, i, dailyUse))
        else None
  }

  /** A data row gives an account exactly when it has all four columns, its
      status reads `verified` once normalised, its daily use is under the
      limit, and its cookie cell is not blank and yields both tokens; the
      account carries that row's number, tokens, stripped proxy and count. */
  lemma RowAccountSpec(row: seq<string>, ix: AccountColumns, i: nat, rd: Reading)
    ensures RowAccount(row, ix, i, rd).Some? <==>
              && |row| > MaxOf4(ix.cookies, ix.proxy, ix.status, ix.daily)
              && NormalizeStatus(row[ix.status]) == "verified"
              && rd.dailyUse(row[ix.daily]) < DailyLimit
              && Strip(row[ix.cookies]) != ""
              && BothTokens(rd.tokens(Strip(row[ix.cookies])))
    ensures RowAccount(row, ix, i, rd).Some? ==>
              var t := rd.tokens(Strip(row[ix.cookies]));
              RowAccount(row, ix, i, rd).value
                == Account(t.1.value, t.0.value, Strip(row[ix.proxy]), i, rd.dailyUse(row[ix.daily]))
  {
  }

  /** What each row contributes, the header row nothing. */
  function Candidates(rows: Grid, ix: AccountColumns, rd: Reading): (cs: seq<Option<Account>>)
    ensures |cs| == |rows|
    ensures rows != [] ==> cs[0] == None
    ensures forall j :: 1 <= j < |rows| ==> cs[j] == RowAccount(rows[j], ix, j + 1, rd)
  {
    seq(|rows|, j requires 0 <= j < |rows| => if j == 0 then None else RowAccount(rows[j], ix, j + 1, rd))
  }

  /** The index of the first `Some` at `k` or later. */
  function FirstSomeIndex<T>(xs: seq<Option<T>>, k: nat): (r: Option<nat>)
    ensures r.Some? ==> k <= r.value < |xs| && xs[r.value].Some?
                        && forall i :: k <= i < r.value ==> xs[i].None?
    ensures r.None? <==> forall i :: k <= i < |xs| ==> xs[i].None?
    decreases |xs| - k
  {
    if k >= |xs| then None
    else if xs[k].Some? then Some(k)
    else FirstSomeIndex(xs, k + 1)
  }

  /** The account `read_available_account` chooses from the sheet values. */
  function SelectAccount(rows: Grid, rd: Reading): Option<Account> {
    if |rows| < 2 then None
    else
      match FindAccountColumns(rows[0])
      case None => None
      case Some(ix) =>
        var cs := Candidates(rows, ix, rd);
        match FirstSomeIndex(cs, 1)
        case Some(j) => cs[j]
        case None => None
  }

  /** `read_available_account`, given the values of the sheet. */
  method ReadAvailableAccount(rows: Grid, eval: string -> LiteralEval) returns (account: Option<Account>)
    ensures account == SelectAccount(rows, PythonReading(eval))
  {
    var rd := PythonReading(eval);
    if |rows| < 2 {
      return None;
    }
    var ix := FindAccountColumns(rows[0]);
    if ix.None? {
      return None;
    }
    ghost var cs := Candidates(rows, ix.value, rd);
    var i := 1;
    while i < |rows|
      invariant 1 <= i <= |rows|
      invariant FirstSomeIndex(cs, 1) == FirstSomeIndex(cs, i)
    {
      var found := RowAccount(rows[i], ix.value, i + 1, rd);
      assert cs[i] == found;
      if found.Some? {
        return found;
      }
      i := i + 1;
    }
    return None;
  }

  /** The account chosen is the one the first qualifying data row describes
      (so, by the contract of `RowAccount`, a verified row under the daily
      limit with both tokens), and no data row above it qualifies. */
  lemma SelectedAccountQualifies(rows: Grid, rd: Reading)
    requires SelectAccount(rows, rd).Some?
    ensures var a := SelectAccount(rows, rd).value;
            var ix := FindAccountColumns(rows[0]).value;
            && 2 <= a.rowIndex <= |rows|
            && RowAccount(rows[a.rowIndex - 1], ix, a.rowIndex, rd) == Some(a)
            && forall j :: 1 <= j < a.rowIndex - 1 ==> RowAccount(rows[j], ix, j + 1, rd).None?
  {
    var ix := FindAccountColumns(rows[0]).value;
    var cs := Candidates(rows, ix, rd);
    var k := FirstSomeIndex(cs, 1).value;
    var a := cs[k].value;
    assert SelectAccount(rows, rd) == Some(a);
    assert cs[k] == RowAccount(rows[k], ix, k + 1, rd);
    assert a.rowIndex == k + 1;
    forall j | 1 <= j < k ensures RowAccount(rows[j], ix, j + 1, rd).None? {
      assert cs[j] == RowAccount(rows[j], ix, j + 1, rd);
    }
  }

  /** The chosen account's row is the first index holding a candidate. */
  lemma SelectedIndex(rows: Grid, rd: Reading)
    requires SelectAccount(rows, rd).Some?
    ensures FirstSomeIndex(Candidates(rows, FindAccountColumns(rows[0]).value, rd), 1)
            == Some(SelectAccount(rows, rd).value.rowIndex - 1)
  {
    var ix := FindAccountColumns(rows[0]).value;
    var cs := Candidates(rows, ix, rd);
    var k := FirstSomeIndex(cs, 1).value;
    assert cs[k].value.rowIndex == k + 1;
  }

  /** No account is chosen from fewer than two rows, from a header that
      lacks a required column, or when no data row qualifies. */
  lemma NoAccountSelected(rows: Grid, rd: Reading)
    ensures SelectAccount(rows, rd).None? <==>
              || |rows| < 2
              || FindAccountColumns(rows[0]).None?
              || forall j :: 1 <= j < |rows| ==> RowAccount(rows[j], FindAccountColumns(rows[0]).value, j + 1, rd).None?
  {
    if |rows| >= 2 && FindAccountColumns(rows[0]).Some? {
      var ix := FindAccountColumns(rows[0]).value;
      var cs := Candidates(rows, ix, rd);
      assert forall j :: 1 <= j < |rows| ==> cs[j] == RowAccount(rows[j], ix, j + 1, rd);
    }
  }

  // ---------------------------------------------------------------------
  // Counting one use of an account

  /** The grid after `update_account_usage` succeeds: the daily-use cell of
      the account's row holds the old count plus one. None when the update
      raises and is swallowed (no `daily_use` header, row 0). */
  function UsageUpdate(g: Grid, a: Account): (r: Option<Grid>)
    ensures r.Some? ==> g != [] && ColumnOf(g[0], "daily_use").Some? && a.rowIndex >= 1
    ensures r.Some? ==> forall rr, cc ::
              CellAt(r.value, rr, cc) == if rr == a.rowIndex && cc == ColumnOf(g[0], "daily_use").value + 1
                                         then IntToString(a.dailyUse + 1) else CellAt(g, rr, cc)
  {
    if g == [] || a.rowIndex < 1 then None
    else
      match ColumnOf(g[0], "daily_use")
      case None => None
      case Some(c) => Some(SetCell(g, a.rowIndex, c + 1, IntToString(a.dailyUse + 1)))
  }

  /** The accounts sheet. */
  class Worksheet {
    var rows: Grid

    constructor (values: Grid)
      ensures rows == values
    {
      rows := values;
    }

    /** `update_account_usage`: writes the new count into one cell.
        `writeSucceeds` says whether the Sheets API call goes through; every
        failure is logged and swallowed. */
    method UpdateAccountUsage(a: Account, writeSucceeds: bool)
      modifies this
      ensures UsageUpdate(old(rows), a).Some? && writeSucceeds ==> rows == UsageUpdate(old(rows), a).value
      ensures UsageUpdate(old(rows), a).None? || !writeSucceeds ==> rows == old(rows)
    {
      var update := UsageUpdate(rows, a);
      if update.Some? && writeSucceeds {
        rows := update.value;
      }
    }
  }

  /** The body posted to `/scrape-linkedin`. */
  datatype Payload = Payload(jsessionid: string, liAt: string, profileUrls: seq<string>, proxy: string)

  /** How the POST ends: a `RequestException` (an error status, no
      connection, a body that is not JSON), or a JSON object body. */
  datatype PostOutcome = PostFailed | PostOk(fields: Record)

  /** The payload `start_scraping` builds: every `ajax:` is removed from the
      session id. */
  function ScrapePayload(a: Account, urls: seq<string>): (p: Payload)
    ensures p.jsessionid == ReplaceAll(a.jsessionid, "ajax:", "")
    ensures p.liAt == a.liAt && p.profileUrls == urls && p.proxy == a.proxy
  {
    Payload(ReplaceAll(a.jsessionid, "ajax:", ""), a.liAt, urls, a.proxy)
  }

  /** `start_scraping`: post the payload; on success count one use of the
      account (whether or not the answer names a batch) and return the
      answer's `batch_id`; on failure return None and leave the sheet. */
  method StartScraping(sheet: Worksheet, a: Account, urls: seq<string>, post: Payload -> PostOutcome, writeSucceeds: bool)
    returns (batchId: Option<Json>, payload: Payload)
    modifies sheet
    ensures payload == ScrapePayload(a, urls)
    ensures post(payload).PostFailed? ==> batchId == None && sheet.rows == old(sheet.rows)
    ensures post(payload).PostOk? ==> batchId == Lookup(post(payload).fields, "batch_id")
    ensures post(payload).PostOk? && writeSucceeds && UsageUpdate(old(sheet.rows), a).Some? ==>
              sheet.rows == UsageUpdate(old(sheet.rows), a).value
    ensures post(payload).PostOk? && (!writeSucceeds || UsageUpdate(old(sheet.rows), a).None?) ==>
              sheet.rows == old(sheet.rows)
  {
    payload := ScrapePayload(a, urls);
    var response := post(payload);
    if response.PostFailed? {
      return None, payload;
    }
    batchId := Lookup(response.fields, "batch_id");
    sheet.UpdateAccountUsage(a, writeSucceeds);
  }

  /** A session id of the usual form `ajax:<digits>` is sent as the digits. */
  lemma SessionIdPrefixRemoved(digits: string)
    requires forall k :: 0 <= k < |digits| ==> IsDigit(digits[k])
    ensures ScrapePayload(Account("", "ajax:" + digits, "", 0, 0), []).jsessionid == digits
  {
    ReplaceLeading(digits, "ajax:");
    assert !Contains(digits, "ajax:") by {
      forall j ensures !OccursAt(digits, "ajax:", j) {
        if 0 <= j && j + 5 <= |digits| {
          assert digits[j..j + 5][0] == digits[j];
        }
      }
    }
    ReplaceAbsent(digits, "ajax:", "");
  }

  // ---------------------------------------------------------------------
  // The status report of `/accounts/status`

  /** One line of the report. */
  datatype StatusEntry = StatusEntry(row: nat, status: string, dailyUse: int, available: bool, proxy: string)

  /** The report: no data rows, a missing column (HTTP 500), or the lines
      with the number of available accounts. */
  datatype StatusReport =
    | NoAccounts
    | MissingColumn
    | Report(entries: seq<StatusEntry>, availableCount: nat)

  datatype StatusColumns = StatusColumns(status: nat, daily: nat, proxy: nat)

  function FindStatusColumns(header: seq<string>): (r: Option<StatusColumns>)
    ensures r.Some? <==> "verification_status" in header && "daily_use" in header && "Structured proxy" in header
  {
    var s := ColumnOf(header, "verification_status");
    var d := ColumnOf(header, "daily_use");
    var p := ColumnOf(header, "Structured proxy");
    if s.Some? && d.Some? && p.Some? then Some(StatusColumns(s.value, d.value, p.value)) else None
  }

  /** A proxy longer than 20 characters is shown as its first 20 and "...". */
  function ShortProxy(proxy: string): (r: string)
    ensures |proxy| <= 20 ==> r == proxy
    ensures |proxy| > 20 ==> |r| == 23 && r[..20] == proxy[..20] && r[20..] == "..."
  {
    if |proxy| > 20 then proxy[..20] + "..." else proxy
  }

  function MaxOf3(a: nat, b: nat, c: nat): (m: nat)
    ensures a <= m && b <= m && c <= m && (m == a || m == b || m == c)
  {
    if a < b then (if b < c then c else b) else (if a < c then c else a)
  }

  /** The line for a data row long enough for the three columns. */
  function EntryOf(row: seq<string>, ix: StatusColumns, i: nat, daily: string -> int): (e: StatusEntry)
    requires |row| > MaxOf3(ix.status, ix.daily, ix.proxy)
    ensures e.row == i
  {
    var status := NormalizeStatus(row[ix.status]);
    var dailyUse := daily(row[ix.daily]);
    StatusEntry(i, status, dailyUse, status == "verified" && dailyUse < DailyLimit, ShortProxy(Strip(row[ix.proxy])))
  }

  /** A line reports the normalised status and the daily use of its row,
      says the row is available iff it is verified and under the daily
      limit, and shows the stripped proxy, shortened. */
  lemma EntryOfSpec(row: seq<string>, ix: StatusColumns, i: nat, daily: string -> int)
    requires |row| > MaxOf3(ix.status, ix.daily, ix.proxy)
    ensures EntryOf(row, ix, i, daily).status == NormalizeStatus(row[ix.status])
    ensures EntryOf(row, ix, i, daily).dailyUse == daily(row[ix.daily])
    ensures EntryOf(row, ix, i, daily).available <==>
              NormalizeStatus(row[ix.status]) == "verified" && daily(row[ix.daily]) < DailyLimit
    ensures EntryOf(row, ix, i, daily).proxy == ShortProxy(Strip(row[ix.proxy]))
  {
  }

  /** What each row contributes to the report: the header row and the rows
      too short for the three columns nothing, every other row its line. */
  function Lines(rows: Grid, ix: StatusColumns, daily: string -> int): (ls: seq<Option<StatusEntry>>)
    ensures |ls| == |rows|
    ensures rows != [] ==> ls[0] == None
    ensures forall j :: 1 <= j < |rows| ==>
              ls[j] == if |rows[j]| > MaxOf3(ix.status, ix.daily, ix.proxy) then Some(EntryOf(rows[j], ix, j + 1, daily)) else None
  {
    seq(|rows|, j requires 0 <= j < |rows| =>
      if j == 0 || |rows[j]| <= MaxOf3(ix.status, ix.daily, ix.proxy) then None else Some(EntryOf(rows[j], ix, j + 1, daily)))
  }

  function CountAvailable(es: seq<StatusEntry>): nat
    decreases |es|
  {
    if es == [] then 0 else CountAvailable(es[..|es| - 1]) + (if es[|es| - 1].available then 1 else 0)
  }

  /** The report for the sheet values. */
  function StatusOf(rows: Grid, daily: string -> int): StatusReport {
    if |rows| < 2 then NoAccounts
    else
      match FindStatusColumns(rows[0])
      case None => MissingColumn
      case Some(ix) =>
        var entries := Somes(Lines(rows, ix, daily));
        Report(entries, CountAvailable(entries))
  }

  /** `get_accounts_status`, given the values of the sheet and the reading
      of the daily-use cells (the server's is `ReadDailyUse`). */
  method AccountsStatus(rows: Grid, daily: string -> int) returns (report: StatusReport)
    ensures report == StatusOf(rows, daily)
  {
    if |rows| < 2 {
      return NoAccounts;
    }
    var ix := FindStatusColumns(rows[0]);
    if ix.None? {
      return MissingColumn;
    }
    var entries := StatusLines(rows, ix.value, daily);
    var available := CountAvailableLines(entries);
    return Report(entries, available);
  }

  /** The loop over the data rows: one line per row long enough for the
      three columns. */
  method StatusLines(rows: Grid, ix: StatusColumns, daily: string -> int) returns (entries: seq<StatusEntry>)
    requires rows != []
    ensures entries == Somes(Lines(rows, ix, daily))
  {
    ghost var ls := Lines(rows, ix, daily);
    entries := [];
    SomesStep(ls, 0);
    for i := 1 to |rows|
      invariant entries == Somes(ls[..i])
    {
      SomesStep(ls, i);
      var row := rows[i];
      if |row| > MaxOf3(ix.status, ix.daily, ix.proxy) {
        entries := entries + [EntryOf(row, ix, i + 1, daily)];
      }
    }
    assert ls[..|rows|] == ls;
  }

  /** `sum(1 for a in accounts if a["available"])` */
  method CountAvailableLines(entries: seq<StatusEntry>) returns (available: nat)
    ensures available == CountAvailable(entries)
  {
    available := 0;
    for j := 0 to |entries|
      invariant available == CountAvailable(entries[..j])
    {
      assert entries[..j + 1][..j] == entries[..j];
      if entries[j].available {
        available := available + 1;
      }
    }
    assert entries[..|entries|] == entries;
  }

  /** Every line of the report is the line of a data row long enough for
      the three columns. */
  lemma EntryDescribesRow(rows: Grid, ix: StatusColumns, daily: string -> int, n: nat)
    requires n < |Somes(Lines(rows, ix, daily))|
    ensures 2 <= Somes(Lines(rows, ix, daily))[n].row <= |rows|
    ensures |rows[Somes(Lines(rows, ix, daily))[n].row - 1]| > MaxOf3(ix.status, ix.daily, ix.proxy)
    ensures var e := Somes(Lines(rows, ix, daily))[n]; e == EntryOf(rows[e.row - 1], ix, e.row, daily)
  {
    var ls := Lines(rows, ix, daily);
    var j := SourceIndex(ls, n);
    assert j != 0;
    assert |rows[j]| > MaxOf3(ix.status, ix.daily, ix.proxy);
    assert Somes(ls)[n] == EntryOf(rows[j], ix, j + 1, daily);
  }

  /** The lines follow the sheet order, one per row at most. */
  lemma EntriesInRowOrder(rows: Grid, ix: StatusColumns, daily: string -> int, a: nat, b: nat)
    requires a < b < |Somes(Lines(rows, ix, daily))|
    ensures Somes(Lines(rows, ix, daily))[a].row < Somes(Lines(rows, ix, daily))[b].row
  {
    var ls := Lines(rows, ix, daily);
    SourceIndexOrder(ls, a, b);
    var ja, jb := SourceIndex(ls, a), SourceIndex(ls, b);
    assert ja != 0 && jb != 0;
  }

  /** Every data row long enough for the three columns has its line. */
  lemma EveryRowListed(rows: Grid, ix: StatusColumns, daily: string -> int, j: nat)
    requires 1 <= j < |rows|
    requires |rows[j]| > MaxOf3(ix.status, ix.daily, ix.proxy)
    ensures EntryOf(rows[j], ix, j + 1, daily) in Somes(Lines(rows, ix, daily))
  {
    SomeListed(Lines(rows, ix, daily), j);
  }

  /** The available count is the number of available lines, at most the
      number of lines. */
  lemma {:induction false} CountAvailableBound(es: seq<StatusEntry>)
    ensures CountAvailable(es) <= |es|
    ensures CountAvailable(es) == 0 <==> forall e :: e in es ==> !e.available
    decreases |es|
  {
    if es != [] {
      CountAvailableBound(es[..|es| - 1]);
      assert forall e :: e in es ==> e in es[..|es| - 1] || e == es[|es| - 1];
    }
  }

  /** The account `read_available_account` chooses is reported available
      by `/accounts/status`, when both read the cells the same way. */
  lemma SelectedIsReportedAvailable(rows: Grid, rd: Reading)
    requires SelectAccount(rows, rd).Some?
    ensures StatusOf(rows, rd.dailyUse).Report?
    ensures exists e :: e in StatusOf(rows, rd.dailyUse).entries && e.row == SelectAccount(rows, rd).value.rowIndex && e.available
  {
    var a := SelectAccount(rows, rd).value;
    var ax := FindAccountColumns(rows[0]).value;
    SelectedAccountQualifies(rows, rd);
    var sx := FindStatusColumns(rows[0]).value;
    assert sx.status == ax.status && sx.daily == ax.daily && sx.proxy == ax.proxy;
    var j := a.rowIndex - 1;
    EveryRowListed(rows, sx, rd.dailyUse, j);
    var e := EntryOf(rows[j], sx, j + 1, rd.dailyUse);
    assert e in StatusOf(rows, rd.dailyUse).entries && e.row == a.rowIndex && e.available;
  }

  // ---------------------------------------------------------------------
  // Choosing again after a use has been counted

  /** A row whose daily-use cell is rewritten with `str(n + 1)`, every
      other cell kept, describes the same account with the count `n + 1`,
      or no account once that reaches the limit. */
  lemma RowAfterUse(row: seq<string>, row': seq<string>, ix: AccountColumns, i: nat, rd: Reading, a: Account)
    requires RowAccount(row, ix, i, rd) == Some(a)
    requires |row'| == |row|
    requires forall m :: 0 <= m < |row| && m != ix.daily ==> row'[m] == row[m]
    requires row'[ix.daily] == IntToString(a.dailyUse + 1)
    requires rd.dailyUse(IntToString(a.dailyUse + 1)) == a.dailyUse + 1
    requires ix.daily != ix.status && ix.daily != ix.cookies && ix.daily != ix.proxy
    ensures a.dailyUse + 1 < DailyLimit ==> RowAccount(row', ix, i, rd) == Some(a.(dailyUse := a.dailyUse + 1))
    ensures a.dailyUse + 1 >= DailyLimit ==> RowAccount(row', ix, i, rd).None?
  {
    assert row'[ix.status] == row[ix.status];
    assert row'[ix.cookies] == row[ix.cookies];
    assert row'[ix.proxy] == row[ix.proxy];
    var t := rd.tokens(Strip(row[ix.cookies]));
    assert a == Account(t.1.value, t.0.value, Strip(row[ix.proxy]), i, rd.dailyUse(row[ix.daily]));
  }

  /** When the first `Some` of `xs` is at `j` and `ys` agrees with `xs`
      before `j`, the first `Some` of `ys` is at `j` if `ys[j]` is one, and
      otherwise later or nowhere. */
  lemma FirstSomeAfterChange<T>(xs: seq<Option<T>>, ys: seq<Option<T>>, k: nat, j: nat)
    requires |xs| == |ys| && k <= j < |xs|
    requires FirstSomeIndex(xs, k) == Some(j)
    requires forall i :: k <= i < j ==> ys[i] == xs[i]
    ensures ys[j].Some? ==> FirstSomeIndex(ys, k) == Some(j)
    ensures ys[j].None? ==> FirstSomeIndex(ys, k).None? || FirstSomeIndex(ys, k).value > j
  {
  }

  /** Changing one data row `j` of the sheet, when `j` held the choice,
      leaves the choice at `j` if the new row still qualifies, and moves it
      below `j` (or nowhere) otherwise. */
  lemma SelectAfterRowChange(rows: Grid, rows': Grid, ix: AccountColumns, j: nat, rd: Reading)
    requires |rows'| == |rows| >= 2 && rows'[0] == rows[0]
    requires FindAccountColumns(rows[0]) == Some(ix)
    requires 1 <= j < |rows|
    requires FirstSomeIndex(Candidates(rows, ix, rd), 1) == Some(j)
    requires forall i :: 0 <= i < |rows| && i != j ==> rows'[i] == rows[i]
    ensures RowAccount(rows'[j], ix, j + 1, rd).Some? ==> SelectAccount(rows', rd) == RowAccount(rows'[j], ix, j + 1, rd)
    ensures RowAccount(rows'[j], ix, j + 1, rd).None? ==>
              SelectAccount(rows', rd).None? || SelectAccount(rows', rd).value.rowIndex > j + 1
  {
    var cs, cs' := Candidates(rows, ix, rd), Candidates(rows', ix, rd);
    forall i | 1 <= i < j ensures cs'[i] == cs[i] {
      assert rows'[i] == rows[i];
    }
    assert cs'[j] == RowAccount(rows'[j], ix, j + 1, rd);
    FirstSomeAfterChange(cs, cs', 1, j);
    var r := FirstSomeIndex(cs', 1);
    if r.Some? && r.value > j {
      assert cs'[r.value] == RowAccount(rows'[r.value], ix, r.value + 1, rd);
    }
  }

  /** After the chosen account's use is written back, the next choice is the
      same row with the count one higher, unless that reaches the limit; then
      the row drops out and a later row (or none) is chosen. */
  lemma ChoiceAfterUse(rows: Grid, rd: Reading)
    requires forall n :: rd.dailyUse(IntToString(n)) == n
    requires SelectAccount(rows, rd).Some?
    ensures UsageUpdate(rows, SelectAccount(rows, rd).value).Some?
    ensures var a := SelectAccount(rows, rd).value;
            var rows' := UsageUpdate(rows, a).value;
            && (a.dailyUse + 1 < DailyLimit ==> SelectAccount(rows', rd) == Some(a.(dailyUse := a.dailyUse + 1)))
            && (a.dailyUse + 1 >= DailyLimit ==>
                  SelectAccount(rows', rd).None? || SelectAccount(rows', rd).value.rowIndex > a.rowIndex)
  {
    var a := SelectAccount(rows, rd).value;
    var ix := FindAccountColumns(rows[0]).value;
    SelectedAccountQualifies(rows, rd);
    SelectedIndex(rows, rd);
    var j := a.rowIndex - 1;
    var v := IntToString(a.dailyUse + 1);
    UsageUpdateIsSetCell(rows, ix, a);
    var rows' := SetCell(rows, a.rowIndex, ix.daily + 1, v);
    SetCellInside(rows, a.rowIndex, ix.daily + 1, v);
    DailyColumnDistinct(rows[0], ix);
    RowAfterUse(rows[j], rows'[j], ix, j + 1, rd, a);
    SelectAfterRowChange(rows, rows', ix, j, rd);
  }

  /** Counting a use writes the new count into the daily-use column. */
  lemma UsageUpdateIsSetCell(rows: Grid, ix: AccountColumns, a: Account)
    requires 1 <= a.rowIndex && rows != []
    requires FindAccountColumns(rows[0]) == Some(ix)
    ensures UsageUpdate(rows, a) == Some(SetCell(rows, a.rowIndex, ix.daily + 1, IntToString(a.dailyUse + 1)))
  {
  }

  /** The daily-use column is none of the other three. */
  lemma DailyColumnDistinct(header: seq<string>, ix: AccountColumns)
    requires FindAccountColumns(header) == Some(ix)
    ensures ix.daily != ix.status && ix.daily != ix.cookies && ix.daily != ix.proxy
  {
    assert header[ix.daily] == "daily_use";
    assert "daily_use"[0] != "verification_status"[0] && "daily_use"[0] != "cookies"[0];
    assert "daily_use"[0] != "Structured proxy"[0];
  }

  /** The server's reading gives back every count it writes. */
  lemma PythonReadsBackCounts(eval: string -> LiteralEval)
    ensures forall n :: PythonReading(eval).dailyUse(IntToString(n)) == n
  {
    forall n ensures PythonReading(eval).dailyUse(IntToString(n)) == n {
      DailyUseOfString(n);
    }
  }
}
