/**
 * The Flask service: validation of a scrape request, the in-memory registry
 * of batch jobs keyed by batch id, the background worker that folds a
 * batch's profiles into one outcome, and the status route that reports a
 * batch. The LinkedIn client is abstract: whether building it raises, and
 * what fetching and flattening one profile gives, are parameters.
 */
module Server {
  import opened Values
  import opened Text

  /** A batch as the registry holds it. */
  datatype Job = InProgress | Completed(result: seq<Record>) | Failed(error: string)

  /** An HTTP response: status code and JSON object body. */
  datatype Response = Response(code: int, body: Record)

  /** `jsonify({"error": msg}), code` */
  function ErrorResponse(code: int, msg: string): (r: Response)
    ensures r.code == code && Lookup(r.body, "error") == Some(Str(msg))
  {
    Response(code, [("error", Str(msg))])
  }

  /** `data.get(k)` on a request body: the value under `k`, or None (Null)
      when the key is absent. */
  function Field(fields: Record, k: string): Json
    decreases |fields|
  {
    if fields == [] then Null
    else if fields[0].0 == k then fields[0].1
    else Field(fields[1..], k)
  }

  /** `Field` is the dictionary lookup with None as the default. */
  lemma {:induction false} FieldIsLookup(fields: Record, k: string)
    ensures Field(fields, k) == Lookup(fields, k).GetOr(Null)
    decreases |fields|
  {
    if fields != [] && fields[0].0 != k {
      FieldIsLookup(fields[1..], k);
    }
  }

  /** `type(j).__name__` */
  function TypeName(j: Json): string {
    match j
    case Null => "NoneType"
    case Bool(_) => "bool"
    case Int(_) => "int"
    case Str(_) => "str"
    case List(_) => "list"
    case Object(_) => "dict"
  }

  /** What an accepted request hands to the background worker. */
  datatype ScrapeRequest = ScrapeRequest(
    userAgent: Json, jsessionid: Json, liAt: Json, profileUrls: seq<Json>, proxy: Json)

  /** Why `scrape_linkedin` turns a request away. */
  datatype Rejection =
    | NoJsonData
    | NotAnObject(data: Json)   // `data.get` raises on any other truthy value
    | MissingField
    | UrlsNotAList
    | ProxyNotAString
    | ProxyBadFormat

  /** The answer the route gives for each rejection: a 400 with its own
      message, or a 500 with the text of the `AttributeError`. */
  function Reply(reason: Rejection): (r: Response)
    ensures r.code == (if reason.NotAnObject? then 500 else 400)
    ensures Lookup(r.body, "error").Some?
  {
    match reason
    case NoJsonData => ErrorResponse(400, "No JSON data provided")
    case NotAnObject(data) =>
      ErrorResponse(500, "'" + TypeName(data) + "' object has no attribute 'get'")
    case MissingField => ErrorResponse(400, "Missing JSESSIONID, li_at, or profile_urls")
    case UrlsNotAList => ErrorResponse(400, "profile_urls must be a list")
    case ProxyNotAString => ErrorResponse(400, "proxy must be a string")
    case ProxyBadFormat => ErrorResponse(400, "proxy must be in format 'host:port:username:password'")
  }

  datatype Validation = Accepted(request: ScrapeRequest) | Rejected(reason: Rejection)

  /** The checks `scrape_linkedin` makes, in order, before it registers a
      batch. */
  function Validate(data: Json): (v: Validation)
    ensures v.Rejected? ==> (v.reason.NotAnObject? <==> Truthy(data) && !data.Object?)
    ensures !Truthy(data) ==> v == Rejected(NoJsonData)
    ensures v.Accepted? ==>
      && data.Object?
      && v.request.jsessionid == Field(data.fields, "JSESSIONID")
      && v.request.liAt == Field(data.fields, "li_at")
      && v.request.userAgent == Field(data.fields, "user_agent")
      && List(v.request.profileUrls) == Field(data.fields, "profile_urls")
      && v.request.proxy == Field(data.fields, "proxy")
  {
    if !Truthy(data) then Rejected(NoJsonData)
    else if !data.Object? then Rejected(NotAnObject(data))
    else
      CheckFields(Field(data.fields, "JSESSIONID"), Field(data.fields, "li_at"),
                  Field(data.fields, "user_agent"), Field(data.fields, "profile_urls"),
                  Field(data.fields, "proxy"))
  }

  /** The checks on the fields of an object body, in the route's order. */
  function CheckFields(jsessionid: Json, liAt: Json, userAgent: Json, urls: Json, proxy: Json)
    : (v: Validation)
    ensures v.Rejected? ==> !v.reason.NotAnObject? && !v.reason.NoJsonData?
    ensures v.Accepted? ==>
      urls.List? && v.request == ScrapeRequest(userAgent, jsessionid, liAt, urls.items, proxy)
  {
    if !Truthy(jsessionid) || !Truthy(liAt) || !Truthy(urls) then Rejected(MissingField)
    else if !urls.List? then Rejected(UrlsNotAList)
    else if Truthy(proxy) && !proxy.Str? then Rejected(ProxyNotAString)
    else if Truthy(proxy) && |Split(proxy.s, ":")| != 4 then Rejected(ProxyBadFormat)
    else Accepted(ScrapeRequest(userAgent, jsessionid, liAt, urls.items, proxy))
  }

  /** A proxy splits into four parts at `:` exactly when it has three colons. */
  lemma ProxyParts(s: string)
    ensures |Split(s, ":")| == 4 <==> CountChar(s, ':') == 3
  {
    SplitCharCount(s, ':');
  }

  /** Field values the service accepts: both tokens set, a non-empty list
      of profiles and, when a proxy is given, a string with exactly three
      colons (`host:port:username:password`). */
  predicate FieldsWellFormed(jsessionid: Json, liAt: Json, urls: Json, proxy: Json) {
    && Truthy(jsessionid) && Truthy(liAt) && urls.List? && urls.items != []
    && (Truthy(proxy) ==> proxy.Str? && CountChar(proxy.s, ':') == 3)
  }

  /** The field checks pass exactly when the fields are well formed, and
      each malformed field is turned away with its own reason, checked in the
      route's order: missing values, then the type of the profiles, then the
      type and the shape of the proxy. */
  lemma CheckFieldsReasons(jsessionid: Json, liAt: Json, userAgent: Json, urls: Json, proxy: Json)
    ensures CheckFields(jsessionid, liAt, userAgent, urls, proxy).Accepted? <==>
      FieldsWellFormed(jsessionid, liAt, urls, proxy)
    ensures !Truthy(jsessionid) || !Truthy(liAt) || !Truthy(urls) ==>
      CheckFields(jsessionid, liAt, userAgent, urls, proxy) == Rejected(MissingField)
    ensures Truthy(jsessionid) && Truthy(liAt) && Truthy(urls) && !urls.List? ==>
      CheckFields(jsessionid, liAt, userAgent, urls, proxy) == Rejected(UrlsNotAList)
    ensures Truthy(jsessionid) && Truthy(liAt) && urls.List? && urls.items != [] &&
            Truthy(proxy) && !proxy.Str? ==>
      CheckFields(jsessionid, liAt, userAgent, urls, proxy) == Rejected(ProxyNotAString)
    ensures Truthy(jsessionid) && Truthy(liAt) && urls.List? && urls.items != [] &&
            proxy.Str? && proxy.s != "" && CountChar(proxy.s, ':') != 3 ==>
      CheckFields(jsessionid, liAt, userAgent, urls, proxy) == Rejected(ProxyBadFormat)
  {
    if proxy.Str? {
      ProxyParts(proxy.s);
    }
  }

  /** A request body the service accepts: an object whose fields are well
      formed. */
  predicate WellFormed(data: Json) {
    && data.Object?
    && FieldsWellFormed(Field(data.fields, "JSESSIONID"), Field(data.fields, "li_at"),
                        Field(data.fields, "profile_urls"), Field(data.fields, "proxy"))
  }

  /** A request is accepted exactly when it is well formed. */
  lemma ValidateAccepts(data: Json)
    ensures Validate(data).Accepted? <==> WellFormed(data)
  {
    if data.Object? && data.fields == [] {
      EmptyObjectField("JSESSIONID");
    } else if data.Object? {
      var js, liAt, ua := Field(data.fields, "JSESSIONID"), Field(data.fields, "li_at"),
                          Field(data.fields, "user_agent");
      var urls, proxy := Field(data.fields, "profile_urls"), Field(data.fields, "proxy");
      CheckFieldsReasons(js, liAt, ua, urls, proxy);
    }
  }

  lemma EmptyObjectField(k: string)
    ensures Field([], k) == Null
  {
  }

  const StartedMessage := "Profile scraping started. Check status with batch_id."
  const NoProfilesError := "No profiles were successfully processed"

  /** The 202 answer that hands out the new batch id. */
  function AcceptedResponse(batchId: string): (r: Response)
    ensures r.code == 202
    ensures Lookup(r.body, "batch_id") == Some(Str(batchId))
    ensures Lookup(r.body, "status") == Some(Str("in_progress"))
  {
    Response(202, [("batch_id", Str(batchId)), ("status", Str("in_progress")),
                   ("message", Str(StartedMessage))])
  }

  /** The per-profile outcomes of a batch: the flattened profile, or None
      where fetching or flattening raised. */
  function Fetched(urls: seq<Json>, fetch: Json -> Option<Record>): (fs: seq<Option<Record>>)
    ensures |fs| == |urls|
    ensures forall i :: 0 <= i < |urls| ==> fs[i] == fetch(urls[i])
  {
    seq(|urls|, i requires 0 <= i < |urls| => fetch(urls[i]))
  }

  /** What the worker leaves in the registry for a batch: the client's own
      error when building it raised, else the profiles that succeeded, or a
      failure when none did. */
  function BatchOutcome(urls: seq<Json>, setupError: Option<string>,
                        fetch: Json -> Option<Record>): Job
  {
    if setupError.Some? then Failed(setupError.value)
    else
      var profiles := Somes(Fetched(urls, fetch));
      if profiles != [] then Completed(profiles) else Failed(NoProfilesError)
  }

  /** A batch completes exactly when the client was built and at least one
      profile succeeded. */
  lemma CompletedIffSomeProfileSucceeded(urls: seq<Json>, setupError: Option<string>,
                                          fetch: Json -> Option<Record>)
    ensures BatchOutcome(urls, setupError, fetch).Completed? <==>
      setupError.None? && exists i :: 0 <= i < |urls| && fetch(urls[i]).Some?
  {
    SomesEmpty(Fetched(urls, fetch));
  }

  /** The failure text: the client's own error, or the fixed message when
      every profile failed. */
  lemma FailureMessage(urls: seq<Json>, setupError: Option<string>,
                       fetch: Json -> Option<Record>)
    ensures setupError.Some? ==> BatchOutcome(urls, setupError, fetch) == Failed(setupError.value)
    ensures setupError.None? && (forall i :: 0 <= i < |urls| ==> fetch(urls[i]).None?) ==>
      BatchOutcome(urls, setupError, fetch) == Failed(NoProfilesError)
  {
    SomesEmpty(Fetched(urls, fetch));
  }

  /** A completed batch holds exactly the successful profiles, in the order
      of `profile_urls`: each result comes from a profile that succeeded,
      later results from later profiles, and no success is dropped. */
  lemma CompletedResultsInOrder(urls: seq<Json>, fetch: Json -> Option<Record>)
    requires BatchOutcome(urls, None, fetch).Completed?
    ensures var fs := Fetched(urls, fetch); var rs := BatchOutcome(urls, None, fetch).result;
      && (forall n :: 0 <= n < |rs| ==>
            SourceIndex(fs, n) < |urls| && fetch(urls[SourceIndex(fs, n)]) == Some(rs[n]))
      && (forall a, b :: 0 <= a < b < |rs| ==> SourceIndex(fs, a) < SourceIndex(fs, b))
      && (forall i :: 0 <= i < |urls| && fetch(urls[i]).Some? ==> fetch(urls[i]).value in rs)
  {
    var fs := Fetched(urls, fetch);
    forall a, b | 0 <= a < b < |Somes(fs)| ensures SourceIndex(fs, a) < SourceIndex(fs, b) {
      SourceIndexOrder(fs, a, b);
    }
    forall i | 0 <= i < |urls| && fetch(urls[i]).Some? ensures fetch(urls[i]).value in Somes(fs) {
      SomeListed(fs, i);
    }
  }

  /** The `result` of a completed batch as the status route sends it. */
  function ResultJson(rs: seq<Record>): (j: Json)
    ensures j.List? && |j.items| == |rs|
    ensures forall n :: 0 <= n < |rs| ==> j.items[n] == Object(rs[n])
  {
    List(seq(|rs|, n requires 0 <= n < |rs| => Object(rs[n])))
  }

  /** The third of three differently named fields is found under its name. */
  lemma LookupThird(a: (string, Json), b: (string, Json), c: (string, Json))
    requires a.0 != c.0 && b.0 != c.0
    ensures Lookup([a, b, c], c.0) == Some(c.1)
  {
    assert [a, b, c][1..] == [b, c];
    assert [b, c][1..] == [c];
    assert Lookup([c], c.0) == Some(c.1);
    assert Lookup([b, c], c.0) == Lookup([c], c.0);
  }

  function StatusName(job: Job): string {
    match job
    case InProgress => "in_progress"
    case Completed(_) => "completed"
    case Failed(_) => "failed"
  }

  /** The registry of batch jobs (`batch_jobs`). */
  class Registry {
    var jobs: map<string, Job>

    constructor ()
      ensures jobs == map[]
    {
      jobs := map[];
    }

    /** GET /scrape-status/<batch_id>: 404 for an unknown id, 200 for a batch
        in progress or completed (with its result), 400 for a failed batch
        (with its error). */
    function CheckStatus(batchId: string): (r: Response)
      reads this
      ensures r.code == 404 <==> batchId !in jobs
      ensures r.code == 200 <==> batchId in jobs && !jobs[batchId].Failed?
      ensures r.code == 400 <==> batchId in jobs && jobs[batchId].Failed?
      ensures batchId !in jobs ==> Lookup(r.body, "error") == Some(Str("Invalid batch_id"))
      ensures batchId in jobs ==> Lookup(r.body, "batch_id") == Some(Str(batchId))
      ensures batchId in jobs ==> Lookup(r.body, "status") == Some(Str(StatusName(jobs[batchId])))
      ensures batchId in jobs && jobs[batchId].Completed? ==>
        Lookup(r.body, "result") == Some(ResultJson(jobs[batchId].result))
      ensures batchId in jobs && jobs[batchId].Failed? ==>
        Lookup(r.body, "error") == Some(Str(jobs[batchId].error))
    {
      if batchId !in jobs then ErrorResponse(404, "Invalid batch_id")
      else
        var id := ("batch_id", Str(batchId));
        var status := ("status", Str(StatusName(jobs[batchId])));
        match jobs[batchId]
        case InProgress =>
          Response(200, [id, status, ("message", Str("Profile scraping is still in progress."))])
        case Completed(rs) =>
          LookupThird(id, status, ("result", ResultJson(rs)));
          Response(200, [id, status, ("result", ResultJson(rs))])
        case Failed(e) =>
          LookupThird(id, status, ("error", Str(e)));
          Response(400, [id, status, ("error", Str(e))])
    }

    /** POST /scrape-linkedin (and /scrape-linkedin_simple): a rejected
        request changes nothing; an accepted one registers `batchId` (the
        fresh uuid4) as in progress, answers 202 with it and hands the
        request to the worker. */
    method ScrapeLinkedin(data: Json, batchId: string)
      returns (response: Response, started: Option<ScrapeRequest>)
      modifies this
      ensures Validate(data).Rejected? ==>
        response == Reply(Validate(data).reason) && started == None && jobs == old(jobs)
      ensures Validate(data).Accepted? ==>
        && started == Some(Validate(data).request)
        && response == AcceptedResponse(batchId)
        && jobs == old(jobs)[batchId := InProgress]
        && CheckStatus(batchId).code == 200
        && Lookup(CheckStatus(batchId).body, "status") == Some(Str("in_progress"))
    {
      var v := Validate(data);
      if v.Rejected? {
        return Reply(v.reason), None;
      }
      jobs := jobs[batchId := InProgress];
      response := AcceptedResponse(batchId);
      started := Some(v.request);
    }

    /** `process_profiles`: builds the client (which may raise
        `setupError`), then fetches each profile in turn, skipping those
        that raise and sleeping before each; finally records the batch's
        outcome under its own id and nowhere else. `process_profiles_simple`
        is the same with a different `fetch`. */
    method ProcessProfiles(batchId: string, urls: seq<Json>, setupError: Option<string>,
                           fetch: Json -> Option<Record>)
      returns (sleeps: nat)
      modifies this
      ensures jobs == old(jobs)[batchId := BatchOutcome(urls, setupError, fetch)]
      ensures sleeps == if setupError.Some? then 0 else |urls|
    {
      if setupError.Some? {
        jobs := jobs[batchId := Failed(setupError.value)];
        return 0;
      }
      ghost var fetched := Fetched(urls, fetch);
      var allProfiles: seq<Record> := [];
      sleeps := 0;
      for i := 0 to |urls|
        invariant allProfiles == Somes(fetched[..i])
        invariant sleeps == i
        invariant jobs == old(jobs)
      {
        sleeps := sleeps + 1;
        var profile := fetch(urls[i]);
        SomesStep(fetched, i);
        if profile.Some? {
          allProfiles := allProfiles + [profile.value];
        }
      }
      assert fetched[..|urls|] == fetched;
      assert allProfiles == Somes(Fetched(urls, fetch));
      if allProfiles != [] {
        jobs := jobs[batchId := Completed(allProfiles)];
      } else {
        jobs := jobs[batchId := Failed(NoProfilesError)];
      }
    }
  }

  /** The life of one batch: once accepted it reports 200 in progress; once
      processed it reports 200 with the results if a profile succeeded and
      400 otherwise, whatever happened to other batches in between. */
  method BatchLifecycle(data: Json, batchId: string, setupError: Option<string>,
                        fetch: Json -> Option<Record>)
    returns (accepted: Response, final: Response)
    requires Validate(data).Accepted?
    ensures accepted.code == 202
    ensures final.code == 200 <==>
      setupError.None? &&
      (exists i :: 0 <= i < |Validate(data).request.profileUrls| &&
                   fetch(Validate(data).request.profileUrls[i]).Some?)
    ensures final.code == 400 || final.code == 200
  {
    var registry := new Registry();
    var started;
    accepted, started := registry.ScrapeLinkedin(data, batchId);
    var urls := started.value.profileUrls;
    var _ := registry.ProcessProfiles(batchId, urls, setupError, fetch);
    final := registry.CheckStatus(batchId);
    CompletedIffSomeProfileSucceeded(urls, setupError, fetch);
  }
}
