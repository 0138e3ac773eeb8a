/**
 * The completion poller (`wait_for_completion`, api.py:246-283 and
 * index.py:208-245): up to ten status requests for one batch, stopping at
 * the first terminal answer.
 *
 * The network is a parameter: `respond(a)` is what the status request of
 * attempt `a` (0-based) produces.
 */
module Polling {
  import opened Values
  import opened Text
  import opened Numerals

  /** The outcome of one status request: a successful response whose JSON
      body is an object, or a `RequestException`, carrying the HTTP status
      code when the exception has a response (an error status) and none for
      a connection failure, a timeout or a body that is not JSON. */
  datatype PollResponse =
    | Body(fields: Record)
    | TransportError(code: Option<int>)

  /** How polling ended. */
  datatype Outcome =
    | Completed(result: Json)
    | Failed(error: Json)
    | TimedOut

  const MaxRetries: nat := 10

  predicate IsClientError(code: Option<int>) {
    code.Some? && 400 <= code.value < 500
  }

  /** Whether a response ends polling: a `completed` or `failed` status, or
      a client error. */
  predicate Decides(p: PollResponse) {
    match p
    case Body(fields) =>
      Lookup(fields, "status") == Some(Str("completed")) || Lookup(fields, "status") == Some(Str("failed"))
    case TransportError(code) => IsClientError(code)
  }

  /** The decision taken on one response: a terminal outcome, or None to keep
      polling. */
  function Step(p: PollResponse): (r: Option<Outcome>)
    ensures r != Some(TimedOut)
    ensures r.Some? <==> Decides(p)
    ensures r.Some? && r.value.Completed? ==> p.Body? && Lookup(p.fields, "status") == Some(Str("completed"))
    ensures p.Body? && Lookup(p.fields, "status") == Some(Str("completed")) ==>
              r == Some(Completed(Lookup(p.fields, "result").GetOr(List([]))))
    ensures p.Body? && Lookup(p.fields, "status") == Some(Str("failed")) ==>
              r == Some(Failed(Lookup(p.fields, "error").GetOr(Str("Unknown error"))))
    ensures p.TransportError? && IsClientError(p.code) ==>
              r == Some(Failed(Str("Client error: " + IntToString(p.code.value))))
  {
    match p
    case Body(fields) =>
      var status := Lookup(fields, "status");
      if status == Some(Str("completed")) then
        Some(Completed(Lookup(fields, "result").GetOr(List([]))))
      else if status == Some(Str("failed")) then
        Some(Failed(Lookup(fields, "error").GetOr(Str("Unknown error"))))
      else None
    case TransportError(code) =>
      if IsClientError(code) then Some(Failed(Str("Client error: " + IntToString(code.value))))
      else None
  }

  predicate Terminal(respond: nat -> PollResponse, a: nat) {
    Decides(respond(a))
  }

  /** The first of the attempts `0 .. n-1` whose response is terminal. */
  function FirstTerminal(respond: nat -> PollResponse, n: nat): (r: Option<nat>)
    ensures r.Some? ==> r.value < n && Terminal(respond, r.value)
                        && forall b :: 0 <= b < r.value ==> !Terminal(respond, b)
    ensures r.None? ==> forall b :: 0 <= b < n ==> !Terminal(respond, b)
    decreases n
  {
    if n == 0 then None
    else
      match FirstTerminal(respond, n - 1)
      case Some(a) => Some(a)
      case None => if Terminal(respond, n - 1) then Some(n - 1) else None
  }

  /** The outcome of polling. */
  function PollOutcome(respond: nat -> PollResponse): Outcome {
    match FirstTerminal(respond, MaxRetries)
    case Some(a) => Step(respond(a)).value
    case None => TimedOut
  }

  /** The number of status requests made. */
  function PollCount(respond: nat -> PollResponse): nat {
    match FirstTerminal(respond, MaxRetries)
    case Some(a) => a + 1
    case None => MaxRetries
  }

  /** The dict `{"status": .., "result": .., "error": ..}`. */
  function Triple(status: Json, result: Json, error: Json): (d: Record)
    ensures Keys(d) == ["status", "result", "error"]
    ensures Lookup(d, "status") == Some(status) && Lookup(d, "result") == Some(result)
            && Lookup(d, "error") == Some(error)
  {
    [("status", status), ("result", result), ("error", error)]
  }

  /** The dict api.py returns for an outcome. */
  function Report(o: Outcome): (d: Record)
    ensures Keys(d) == ["status", "result", "error"]
    ensures o.Completed? ==>
              Lookup(d, "status") == Some(Str("completed")) && Lookup(d, "result") == Some(o.result)
              && Lookup(d, "error") == Some(Null)
    ensures o.Failed? ==>
              Lookup(d, "status") == Some(Str("failed")) && Lookup(d, "result") == Some(Null)
              && Lookup(d, "error") == Some(o.error)
    ensures o.TimedOut? ==>
              Lookup(d, "status") == Some(Str("timeout")) && Lookup(d, "result") == Some(Null)
              && Lookup(d, "error") == Some(Str("Batch processing timeout"))
  {
    match o
    case Completed(r) => Triple(Str("completed"), r, Null)
    case Failed(e) => Triple(Str("failed"), Null, e)
    case TimedOut => Triple(Str("timeout"), Null, Str("Batch processing timeout"))
  }

  /** api.py's poller: it waits after each non-terminal attempt except the
      last. */
  method ApiWaitForCompletion(respond: nat -> PollResponse) returns (outcome: Outcome, polls: nat, sleeps: nat)
    ensures outcome == PollOutcome(respond)
    ensures polls == PollCount(respond)
    ensures sleeps == polls - 1
  {
    polls, sleeps := 0, 0;
    for attempt := 0 to MaxRetries
      invariant polls == attempt
      invariant sleeps == if attempt < MaxRetries then attempt else MaxRetries - 1
      invariant FirstTerminal(respond, attempt) == None
    {
      var response := respond(attempt);
      polls := polls + 1;
      var step := Step(response);
      if step.Some? {
        assert FirstTerminal(respond, attempt + 1) == Some(attempt);
        return step.value, polls, sleeps;
      }
      if attempt < MaxRetries - 1 {
        sleeps := sleeps + 1;
      }
    }
    outcome := TimedOut;
  }

  /** What index.py's poller returns: the result of a completed batch, and
      an empty list in every other case. */
  function IndexResult(o: Outcome): (r: Json)
    ensures !o.Completed? ==> r == List([])
  {
    if o.Completed? then o.result else List([])
  }

  /** index.py's poller: it waits after every non-terminal attempt,
      including the last one. */
  method IndexWaitForCompletion(respond: nat -> PollResponse) returns (result: Json, polls: nat, sleeps: nat)
    ensures result == IndexResult(PollOutcome(respond))
    ensures polls == PollCount(respond)
    ensures sleeps == if PollOutcome(respond) == TimedOut then polls else polls - 1
  {
    polls, sleeps := 0, 0;
    for attempt := 0 to MaxRetries
      invariant polls == attempt && sleeps == attempt
      invariant FirstTerminal(respond, attempt) == None
    {
      var response := respond(attempt);
      polls := polls + 1;
      var step := Step(response);
      if step.Some? {
        assert FirstTerminal(respond, attempt + 1) == Some(attempt);
        var o := step.value;
        if o.Completed? {
          return o.result, polls, sleeps;
        } else {
          return List([]), polls, sleeps;
        }
      }
      sleeps := sleeps + 1;
    }
    result := List([]);
  }

  // ---------------------------------------------------------------------
  // Properties of the poller

  /** Between one and ten requests are made. */
  lemma PollCountBounds(respond: nat -> PollResponse)
    ensures 1 <= PollCount(respond) <= MaxRetries
  {
  }

  /** Polling times out exactly when none of the ten responses is terminal. */
  lemma TimedOutIff(respond: nat -> PollResponse)
    ensures PollOutcome(respond) == TimedOut <==> forall a :: 0 <= a < MaxRetries ==> !Terminal(respond, a)
  {
    match FirstTerminal(respond, MaxRetries)
    case Some(a) =>
      assert Terminal(respond, a);
    case None =>
  }

  /** The outcome is the one decided by the last response read. */
  lemma OutcomeIsLastStep(respond: nat -> PollResponse)
    requires PollOutcome(respond) != TimedOut
    ensures Step(respond(PollCount(respond) - 1)) == Some(PollOutcome(respond))
  {
  }

  /** A 4xx answer ends polling at once with a client-error message. */
  lemma ClientErrorStops(respond: nat -> PollResponse, a: nat, code: int)
    requires a < MaxRetries
    requires forall b :: 0 <= b < a ==> !Terminal(respond, b)
    requires respond(a) == TransportError(Some(code)) && 400 <= code < 500
    ensures PollOutcome(respond) == Failed(Str("Client error: " + IntToString(code)))
    ensures PollCount(respond) == a + 1
  {
    FirstTerminalIs(respond, a, MaxRetries);
  }

  /** A `completed` answer ends polling at once with its result, the empty
      list when it carries none. */
  lemma CompletedStops(respond: nat -> PollResponse, a: nat, fields: Record)
    requires a < MaxRetries
    requires forall b :: 0 <= b < a ==> !Terminal(respond, b)
    requires respond(a) == Body(fields) && Lookup(fields, "status") == Some(Str("completed"))
    ensures PollOutcome(respond) == Completed(Lookup(fields, "result").GetOr(List([])))
    ensures PollCount(respond) == a + 1
  {
    FirstTerminalIs(respond, a, MaxRetries);
  }

  /** A `failed` answer ends polling at once with its error, `Unknown error`
      when it carries none. */
  lemma FailedStops(respond: nat -> PollResponse, a: nat, fields: Record)
    requires a < MaxRetries
    requires forall b :: 0 <= b < a ==> !Terminal(respond, b)
    requires respond(a) == Body(fields) && Lookup(fields, "status") == Some(Str("failed"))
    ensures PollOutcome(respond) == Failed(Lookup(fields, "error").GetOr(Str("Unknown error")))
    ensures PollCount(respond) == a + 1
  {
    FirstTerminalIs(respond, a, MaxRetries);
  }

  /** A server error or a lost connection is retried. */
  lemma ServerErrorRetried(code: Option<int>)
    requires code.None? || code.value >= 500 || code.value < 400
    ensures Step(TransportError(code)) == None
  {
  }

  /** When the first terminal attempt is `a`, every longer prefix of attempts
      finds it first too. */
  lemma {:induction false} FirstTerminalIs(respond: nat -> PollResponse, a: nat, n: nat)
    requires a < n
    requires Terminal(respond, a)
    requires forall b :: 0 <= b < a ==> !Terminal(respond, b)
    ensures FirstTerminal(respond, n) == Some(a)
    decreases n
  {
    if n - 1 > a {
      FirstTerminalIs(respond, a, n - 1);
    } else {
      assert FirstTerminal(respond, a) == None;
    }
  }

  /** A batch that stays in progress times out after ten requests. */
  lemma AlwaysInProgress(respond: nat -> PollResponse)
    requires forall a :: respond(a) == Body([("status", Str("in_progress"))])
    ensures PollOutcome(respond) == TimedOut && PollCount(respond) == MaxRetries
  {
    forall a: nat | a < MaxRetries ensures !Terminal(respond, a) {
      assert Lookup([("status", Str("in_progress"))], "status") == Some(Str("in_progress"));
    }
  }

  /** A completed answer without a result field yields the empty list. */
  lemma CompletedWithoutResult(respond: nat -> PollResponse)
    requires respond(0) == Body([("status", Str("completed"))])
    ensures PollOutcome(respond) == Completed(List([])) && PollCount(respond) == 1
  {
    var f := [("status", Str("completed"))];
    assert Lookup(f, "status") == Some(Str("completed"));
    assert Lookup(f, "result") == None;
    FirstTerminalIs(respond, 0, MaxRetries);
  }
}
