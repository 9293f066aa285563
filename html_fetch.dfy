/**
 * `_fetch_html`: up to three GETs of the category page. A 403 on an attempt that is not the
 * last re-primes the session (one GET of the site's home page, whose own failure is
 * swallowed) and retries; a 403 on the last attempt is reported as blocking. Any other
 * HTTP error status is reported at once. A transport failure is retried until the last
 * attempt. The server's answers are a script: entry `k` is what attempt `k` receives.
 */
module HtmlFetch {
  import opened Wrappers
  import opened HtmlModel

  const MaxRetries: nat := 3

  /** What one GET of the page ends in: a response (its parsed body stands for `resp.text`),
      or an exception of the transport (`requests.RequestException`). */
  datatype Response = Status(code: int, body: Document) | TransportError

  datatype FetchError =
    | Blocked             // 403 on the last attempt
    | HttpError(code: int) // any other status that `raise_for_status` rejects
    | Unreachable         // a transport failure on the last attempt
    | Exhausted           // the loop ran out of attempts (the final `raise`)

  /** The statuses `raise_for_status` rejects. */
  predicate IsHttpError(code: int) {
    400 <= code < 600
  }

  /** The run's outcome with the number of GETs of the page and of re-primes of the session. */
  datatype Fetched = Fetched(result: Result<Document, FetchError>, gets: nat, primes: nat)

  /** The loop of `_fetch_html` from attempt `attempt` on, `primes` re-primes done so far. */
  function RunFrom(script: seq<Response>, attempt: nat, primes: nat): Fetched
    requires attempt <= MaxRetries <= |script|
    decreases MaxRetries - attempt
  {
    if attempt == MaxRetries then Fetched(Failure(Exhausted), attempt, primes)
    else
      var last := attempt == MaxRetries - 1;
      match script[attempt]
      case TransportError =>
        if last then Fetched(Failure(Unreachable), attempt + 1, primes)
        else RunFrom(script, attempt + 1, primes)
      case Status(code, body) =>
        if code == 403 then
          if last then Fetched(Failure(Blocked), attempt + 1, primes)
          else RunFrom(script, attempt + 1, primes + 1)
        else if IsHttpError(code) then Fetched(Failure(HttpError(code)), attempt + 1, primes)
        else Fetched(Success(body), attempt + 1, primes)
  }

  /** What `_fetch_html` does against `script`. */
  function FetchHtmlSpec(script: seq<Response>): Fetched
    requires |script| >= MaxRetries
  {
    RunFrom(script, 0, 0)
  }

  method FetchHtml(script: seq<Response>) returns (r: Result<Document, FetchError>, gets: nat, primes: nat)
    requires |script| >= MaxRetries
    ensures Fetched(r, gets, primes) == FetchHtmlSpec(script)
  {
    gets, primes := 0, 0;
    var attempt: nat := 0;
    while attempt < MaxRetries
      invariant attempt <= MaxRetries
      invariant gets == attempt
      invariant RunFrom(script, attempt, primes) == FetchHtmlSpec(script)
    {
      var last := attempt == MaxRetries - 1;
      gets := gets + 1;
      match script[attempt] {
        case TransportError =>
          if last {
            return Failure(Unreachable), gets, primes;
          }
        case Status(code, body) =>
          if code == 403 {
            if last {
              return Failure(Blocked), gets, primes;
            }
            primes := primes + 1;
          } else if IsHttpError(code) {
            return Failure(HttpError(code)), gets, primes;
          } else {
            return Success(body), gets, primes;
          }
      }
      attempt := attempt + 1;
    }
    r := Failure(Exhausted);
  }

  // ---------------------------------------------------------------------------
  // What the retry loop guarantees
  // ---------------------------------------------------------------------------

  /** The answers after which `_fetch_html` tries again, if attempts remain. */
  predicate Retryable(resp: Response) {
    resp.TransportError? || resp.code == 403
  }

  /** How one answer ends the run when it is the deciding one. */
  function Verdict(resp: Response): Result<Document, FetchError> {
    match resp
    case TransportError => Failure(Unreachable)
    case Status(code, body) =>
      if code == 403 then Failure(Blocked)
      else if IsHttpError(code) then Failure(HttpError(code))
      else Success(body)
  }

  /** The number of 403 answers in `s`. */
  function Blocks(s: seq<Response>): nat {
    if s == [] then 0 else (if s[0].Status? && s[0].code == 403 then 1 else 0) + Blocks(s[1..])
  }

  lemma {:induction false} RunFromClosedForm(script: seq<Response>, attempt: nat, primes: nat)
    requires attempt < MaxRetries <= |script|
    ensures var f := RunFrom(script, attempt, primes);
            var k := f.gets - 1;
            attempt <= k < MaxRetries
            && (forall j :: attempt <= j < k ==> Retryable(script[j]))
            && (k < MaxRetries - 1 ==> !Retryable(script[k]))
            && f.primes == primes + Blocks(script[attempt..k])
            && f.result == Verdict(script[k])
    decreases MaxRetries - attempt
  {
    var here := script[attempt];
    if attempt < MaxRetries - 1 && Retryable(here) {
      var bump := if here.Status? then 1 else 0;
      RunFromClosedForm(script, attempt + 1, primes + bump);
      var k := RunFrom(script, attempt, primes).gets - 1;
      assert script[attempt..k][1..] == script[attempt + 1..k];
    } else {
      assert script[attempt..attempt] == [];
    }
  }

  /** The run in closed form: the deciding attempt is the first of the first two whose answer
      is not retryable, else the third; it makes that many GETs plus one, re-primes once per
      403 before it, and ends as that answer's verdict. */
  lemma FetchHtmlClosedForm(script: seq<Response>)
    requires |script| >= MaxRetries
    ensures var f := FetchHtmlSpec(script);
            var k := f.gets - 1;
            1 <= f.gets <= MaxRetries
            && (forall j :: 0 <= j < k ==> Retryable(script[j]))
            && (k < MaxRetries - 1 ==> !Retryable(script[k]))
            && f.primes == Blocks(script[..k])
            && f.result == Verdict(script[k])
  {
    RunFromClosedForm(script, 0, 0);
    var k := FetchHtmlSpec(script).gets - 1;
    assert script[0..k] == script[..k];
  }

  /** The final `raise` after the loop is never reached: every run ends inside the loop. */
  lemma FetchHtmlNeverExhausts(script: seq<Response>)
    requires |script| >= MaxRetries
    ensures FetchHtmlSpec(script).result != Failure(Exhausted)
    ensures FetchHtmlSpec(script).primes < FetchHtmlSpec(script).gets
  {
    FetchHtmlClosedForm(script);
    var k := FetchHtmlSpec(script).gets - 1;
    BlocksBound(script[..k]);
  }

  lemma {:induction false} BlocksBound(s: seq<Response>)
    ensures Blocks(s) <= |s|
  {
    if s != [] {
      BlocksBound(s[1..]);
    }
  }

  /** An answer that ends the run with `page`: a status that is neither 403 nor an error. */
  predicate Delivers(resp: Response, page: Document) {
    resp.Status? && resp.body == page && resp.code != 403 && !IsHttpError(resp.code)
  }

  /** The page body comes back exactly when some attempt gets a non-error status after only
      retryable answers before it, and it is that attempt's body. */
  lemma FetchHtmlSucceeds(script: seq<Response>, page: Document)
    requires |script| >= MaxRetries
    ensures FetchHtmlSpec(script).result == Success(page)
            <==> exists k :: 0 <= k < MaxRetries && Delivers(script[k], page)
                             && forall j :: 0 <= j < k ==> Retryable(script[j])
  {
    FetchHtmlClosedForm(script);
    var d := FetchHtmlSpec(script).gets - 1;
    if FetchHtmlSpec(script).result == Success(page) {
      assert Delivers(script[d], page);
    }
    if exists k :: 0 <= k < MaxRetries && Delivers(script[k], page)
                   && forall j :: 0 <= j < k ==> Retryable(script[j]) {
      var k :| 0 <= k < MaxRetries && Delivers(script[k], page)
               && forall j :: 0 <= j < k ==> Retryable(script[j]);
      assert !Retryable(script[k]);
      assert d == k;
    }
  }

  /** An HTTP error other than 403 is never retried and never re-primes. */
  lemma FetchHtmlHttpErrorIsFinal(script: seq<Response>)
    requires |script| >= MaxRetries
    requires script[0].Status? && IsHttpError(script[0].code) && script[0].code != 403
    ensures FetchHtmlSpec(script) == Fetched(Failure(HttpError(script[0].code)), 1, 0)
  {
  }

  /** Blocking on every attempt makes three GETs and two re-primes, then gives up. */
  lemma FetchHtmlBlockedThrice(script: seq<Response>)
    requires |script| >= MaxRetries
    requires forall j :: 0 <= j < MaxRetries ==> script[j].Status? && script[j].code == 403
    ensures FetchHtmlSpec(script) == Fetched(Failure(Blocked), 3, 2)
  {
    assert script[0].code == 403 && script[1].code == 403 && script[2].code == 403;
  }
}
