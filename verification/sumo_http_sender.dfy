/** The retrying HTTP sender: a readiness flag (the client handle) and a
    blocking loop that posts one batch body until the endpoint accepts or
    refuses it for good, or until the worker thread is interrupted.

    The network and the clock are not modelled directly.  Each attempt's
    fate is supplied as an `Attempt`: what executing the post produced, and how the
    retry sleep that follows a failed attempt ended.  `KeepTrying` runs the
    loop over a finite trace of attempts; when the trace runs out while the
    loop would still go on, the run ends as `StillRetrying`. */
module SumoHttpSender {
  import opened JavaTypes

  const DEFAULT_RETRY_INTERVAL: Long := 10000
  const DEFAULT_CONNECTION_TIMEOUT: Int := 1000
  const DEFAULT_SOCKET_TIMEOUT: Int := 60000

  /** The only header the sender sets on a post; it carries the source name. */
  const SUMO_NAME_HEADER: string := "X-Sumo-Name"

  const STATUS_OK: Int := 200
  const STATUS_TOO_MANY_REQUESTS: Int := 429
  const STATUS_SERVICE_UNAVAILABLE: Int := 503

  /** The HTTP client handle made by `Init`, with the timeouts it was built with. */
  datatype Client = Client(connectionTimeout: Int, socketTimeout: Int)

  /** A configured url.  `wellFormed` records whether the URI parser accepts
      `text`; a url it rejects makes building the post throw
      IllegalArgumentException.  The URI grammar itself is not modelled. */
  datatype Endpoint = Endpoint(text: string, wellFormed: bool)

  /** The sender's fields.  The setters of the source are plain field writes,
      written here as datatype updates such as `s.(url := Ref(u))`. */
  datatype Sender = Sender(
    retryInterval: Long,
    url: Nullable<Endpoint>,
    connectionTimeout: Int,
    socketTimeout: Int,
    httpClient: Nullable<Client>)

  /** A header line of a post. */
  datatype Header = Header(name: string, value: string)

  /** One HTTP POST as built and handed to `execute`; the entity is the body as JSON. */
  datatype Post = Post(url: string, headers: seq<Header>, body: string)

  /** What executing one post produced: `execute` failed with an I/O error;
      a status line came back and the response was released; or a status line
      came back but releasing the response entity failed with an I/O error.
      Releasing is reached only for statuses other than 503 and 429. */
  datatype Response = TransportError | Status(code: Int) | ReleaseFailed(code: Int)

  /** How the retry sleep after a failed attempt ended. */
  datatype Wake =
    | Elapsed            // slept the full interval, interrupt flag clear
    | ElapsedFlagged     // slept the full interval, but the interrupt flag was set before the loop test
    | Interrupted        // the sleep threw InterruptedException

  /** The environment's side of one attempt. */
  datatype Attempt = Attempt(response: Response, wake: Wake)

  /** Why one attempt threw. */
  datatype Failure =
    | UnknownEndpoint           // no url: thrown before any request is built
    | MalformedUrl              // the URI parser rejected the url while the post was built
    | NoClient                  // url set but no client: `execute` on a null handle
    | IOError                   // `execute` itself failed
    | Unavailable(code: Int)    // 503 or 429: thrown so that the loop retries
    | ReleaseError(code: Int)   // the status came back, but releasing the response failed

  /** The end of one `trySend` call: it returned (the loop calls that success,
      whatever the status was) or it raised.  `sent` is the post handed to
      `execute`, if the attempt got that far. */
  datatype Try = Returned(post: Post, status: Int) | Raised(failure: Failure, sent: Nullable<Post>)
  {
    /** The post this attempt handed to `execute`, if any. */
    function Posted(): Nullable<Post>
    {
      match this
      case Returned(p, _) => Ref(p)
      case Raised(_, sent) => sent
    }
  }

  /** Why the loop stopped. */
  datatype End =
    | Done(status: Int)    // trySend returned; the batch is finished with
    | SleepInterrupted     // the retry sleep was interrupted; the loop breaks
    | InterruptFlagged     // the loop test saw the interrupt flag
    | SleepRejected        // a negative interval made the sleep throw IllegalArgumentException, which escapes `send`
    | StillRetrying        // the trace ran out while the loop would go on

  /** One run of the retry loop: every attempt in order, how many retry sleeps
      were started, and why it stopped. */
  datatype Run = Run(tries: seq<Try>, sleeps: nat, end: End)

  /** A freshly constructed sender. */
  function NewSender(): (s: Sender)
    ensures !IsInitialized(s)
    ensures s.url.Null?
    ensures s.retryInterval == 10000 && s.connectionTimeout == 1000 && s.socketTimeout == 60000
  {
    Sender(DEFAULT_RETRY_INTERVAL, Null, DEFAULT_CONNECTION_TIMEOUT, DEFAULT_SOCKET_TIMEOUT, Null)
  }

  /** `isInitialized()`: the sender is ready exactly when it holds a client. */
  predicate IsInitialized(s: Sender)
  {
    s.httpClient.Ref?
  }

  /** `init()` readies a sender and `close()` unreadies it: closing succeeds
      exactly on a ready sender, closing right after `init()` gives back a
      sender that had no client, and `init()` after `close()` is `init()`. */
  lemma InitCloseRoundTrip(s: Sender)
    ensures IsInitialized(Init(s))
    ensures Close(s).Ok? <==> IsInitialized(s)
    ensures !IsInitialized(s) ==> Close(Init(s)) == Ok(s)
    ensures IsInitialized(s) ==> Init(Close(s).value) == Init(s)
    ensures !IsInitialized(Close(Init(s)).value)
  {
  }

  /** `init()`: builds a client with the currently configured timeouts,
      replacing any client already there. */
  function Init(s: Sender): (r: Sender)
    ensures IsInitialized(r)
    ensures r.httpClient.value.connectionTimeout == s.connectionTimeout
    ensures r.httpClient.value.socketTimeout == s.socketTimeout
    ensures r.retryInterval == s.retryInterval && r.url == s.url
    ensures r.connectionTimeout == s.connectionTimeout && r.socketTimeout == s.socketTimeout
  {
    s.(httpClient := Ref(Client(s.connectionTimeout, s.socketTimeout)))
  }

  /** `close()`: shuts the client down and drops it.  On a sender with no
      client the shutdown call itself dereferences null. */
  function Close(s: Sender): (r: Result<Sender>)
    ensures r.Ok? <==> IsInitialized(s)
    ensures r.Thrown? ==> r.exception == NullPointer
    ensures r.Ok? ==> !IsInitialized(r.value)
    ensures r.Ok? ==> r.value.retryInterval == s.retryInterval && r.value.url == s.url
    ensures r.Ok? ==> r.value.connectionTimeout == s.connectionTimeout && r.value.socketTimeout == s.socketTimeout
  {
    if s.httpClient.Null? then Thrown(NullPointer) else Ok(s.(httpClient := Null))
  }

  /** The post every attempt of one `send(body, name)` builds: the body as the
      entity and the name as its only header. */
  function PostFor(url: string, body: string, name: string): (p: Post)
    ensures p.url == url && p.body == body
    ensures |p.headers| == 1
    ensures forall h :: h in p.headers ==> h.name == SUMO_NAME_HEADER && h.value == name
  {
    Post(url, [Header(SUMO_NAME_HEADER, name)], body)
  }

  /** Whether an attempt can get as far as `execute`: a url the URI parser
      accepts, and a client. */
  predicate Usable(s: Sender)
  {
    s.url.Ref? && s.url.value.wellFormed && IsInitialized(s)
  }

  /** `trySend`: one attempt.  It checks the url, builds the post, executes it
      and classifies the status: 200 returns, 503 and 429 throw, and any other
      status is logged and returns as well, unless releasing the response fails. */
  function TrySend(s: Sender, body: string, name: string, response: Response): (t: Try)
    ensures t.Posted().Ref? ==> Usable(s) && t.Posted().value == PostFor(s.url.value.text, body, name)
    ensures t.Returned? ==> t.Posted().Ref? && response == Status(t.status)
  {
    if s.url.Null? then
      Raised(UnknownEndpoint, Null)
    else if !s.url.value.wellFormed then
      Raised(MalformedUrl, Null)
    else if s.httpClient.Null? then
      Raised(NoClient, Null)
    else
      var post := PostFor(s.url.value.text, body, name);
      match response
      case TransportError => Raised(IOError, Ref(post))
      case Status(code) =>
        if code != STATUS_OK && (code == STATUS_SERVICE_UNAVAILABLE || code == STATUS_TOO_MANY_REQUESTS) then
          Raised(Unavailable(code), Ref(post))
        else
          Returned(post, code)
      case ReleaseFailed(code) =>
        if code != STATUS_OK && (code == STATUS_SERVICE_UNAVAILABLE || code == STATUS_TOO_MANY_REQUESTS) then
          Raised(Unavailable(code), Ref(post))
        else
          Raised(ReleaseError(code), Ref(post))
  }

  /** `keepTrying` (reached through `send(body, name)`): attempt, and after a
      failed attempt sleep `retryInterval` and go round again, until an attempt
      returns, the sleep is interrupted or the interrupt flag is seen. */
  function KeepTrying(s: Sender, body: string, name: string, trace: seq<Attempt>): (run: Run)
    ensures |run.tries| <= |trace|
    ensures run.sleeps <= |run.tries|
    ensures run.end.StillRetrying? ==> |run.tries| == |trace| && run.sleeps == |trace|
    ensures run.end.Done? ==> run.sleeps == |run.tries| - 1
    decreases |trace|
  {
    if |trace| == 0 then
      Run([], 0, StillRetrying)
    else
      var t := TrySend(s, body, name, trace[0].response);
      match t
      case Returned(_, status) => Run([t], 0, Done(status))
      case Raised(_, _) =>
        if s.retryInterval < 0 then
          Run([t], 0, SleepRejected)
        else
          match trace[0].wake
          case Interrupted => Run([t], 1, SleepInterrupted)
          case ElapsedFlagged => Run([t], 1, InterruptFlagged)
          case Elapsed =>
            var rest := KeepTrying(s, body, name, trace[1..]);
            Run([t] + rest.tries, 1 + rest.sleeps, rest.end)
  }

  /** `send(body, name)` as declared: it is the retry loop. */
  function Send(s: Sender, body: string, name: string, trace: seq<Attempt>): (run: Run)
    ensures |run.tries| <= |trace|
    ensures forall i :: 0 <= i < |run.tries| ==> run.tries[i] == TrySend(s, body, name, trace[i].response)
  {
    KeepTryingAttempts(s, body, name, trace);
    KeepTrying(s, body, name, trace)
  }

  // ---------------------------------------------------------------------
  // A reference description of the loop, attempt by attempt.

  /** The retryable outcomes: a transport failure, a failed release of the
      response, 503 or 429. */
  predicate Retryable(response: Response)
  {
    response.TransportError? || response.ReleaseFailed? || response == Status(503) || response == Status(429)
  }

  /** Whether the loop stops after this attempt. */
  predicate Stops(s: Sender, body: string, name: string, a: Attempt)
  {
    TrySend(s, body, name, a.response).Returned? || s.retryInterval < 0 || a.wake != Elapsed
  }

  /** Why the loop stops after this attempt, when it does. */
  function StopReason(s: Sender, t: Try, wake: Wake): End
  {
    if t.Returned? then Done(t.status)
    else if s.retryInterval < 0 then SleepRejected
    else if wake == Interrupted then SleepInterrupted
    else if wake == ElapsedFlagged then InterruptFlagged
    else StillRetrying
  }

  /** Whether a retry sleep is started after this attempt. */
  function SleepAfter(s: Sender, t: Try): nat
  {
    if t.Raised? && s.retryInterval >= 0 then 1 else 0
  }

  /** With a url and a client, an attempt raises exactly when the response
      is retryable; otherwise it returns with the status received. */
  lemma TrySendClassification(s: Sender, body: string, name: string, response: Response)
    requires Usable(s)
    ensures TrySend(s, body, name, response).Raised? <==> Retryable(response)
    ensures !Retryable(response) ==> TrySend(s, body, name, response) == Returned(PostFor(s.url.value.text, body, name), response.code)
    ensures TrySend(s, body, name, response).Posted() == Ref(PostFor(s.url.value.text, body, name))
  {
  }

  /** Every run makes its attempts from the trace, in order. */
  lemma {:induction false} KeepTryingAttempts(s: Sender, body: string, name: string, trace: seq<Attempt>)
    ensures var run := KeepTrying(s, body, name, trace);
      && |run.tries| <= |trace|
      && (forall i :: 0 <= i < |run.tries| ==> run.tries[i] == TrySend(s, body, name, trace[i].response))
    decreases |trace|
  {
    if |trace| > 0 {
      KeepTryingAttempts(s, body, name, trace[1..]);
    }
  }

  /** If attempt `k` is the first one after which the loop stops, the run
      makes exactly attempts 0..k, sleeps once between each pair of them,
      and ends for the reason attempt `k` gives. */
  lemma {:induction false} KeepTryingStopsAt(s: Sender, body: string, name: string, trace: seq<Attempt>, k: nat)
    requires k < |trace|
    requires forall i :: 0 <= i < k ==> !Stops(s, body, name, trace[i])
    requires Stops(s, body, name, trace[k])
    ensures var run := KeepTrying(s, body, name, trace);
      var last := TrySend(s, body, name, trace[k].response);
      && |run.tries| == k + 1
      && (forall i :: 0 <= i <= k ==> run.tries[i] == TrySend(s, body, name, trace[i].response))
      && run.end == StopReason(s, last, trace[k].wake)
      && run.end != StillRetrying
      && run.sleeps == k + SleepAfter(s, last)
    decreases k
  {
    KeepTryingAttempts(s, body, name, trace);
    if k > 0 {
      assert !Stops(s, body, name, trace[0]);
      forall i | 0 <= i < k - 1
        ensures !Stops(s, body, name, trace[1..][i])
      {
        assert trace[1..][i] == trace[i + 1];
      }
      KeepTryingStopsAt(s, body, name, trace[1..], k - 1);
    }
  }

  /** If no attempt of the trace stops the loop, every attempt is made, each
      is followed by a retry sleep, and the loop is still retrying. */
  lemma {:induction false} KeepTryingNeverStops(s: Sender, body: string, name: string, trace: seq<Attempt>)
    requires forall i :: 0 <= i < |trace| ==> !Stops(s, body, name, trace[i])
    ensures var run := KeepTrying(s, body, name, trace);
      && |run.tries| == |trace|
      && run.sleeps == |trace|
      && run.end == StillRetrying
      && (forall i :: 0 <= i < |trace| ==> run.tries[i].Raised?)
    decreases |trace|
  {
    KeepTryingAttempts(s, body, name, trace);
    if |trace| > 0 {
      assert !Stops(s, body, name, trace[0]);
      forall i | 0 <= i < |trace| - 1
        ensures !Stops(s, body, name, trace[1..][i])
      {
        assert trace[1..][i] == trace[i + 1];
      }
      KeepTryingNeverStops(s, body, name, trace[1..]);
    }
  }

  /** The loop never alters the payload: every post handed to `execute`
      carries the configured url, the same `X-Sumo-Name` value and the same body. */
  lemma {:induction false} KeepTryingSamePayload(s: Sender, body: string, name: string, trace: seq<Attempt>)
    ensures var run := KeepTrying(s, body, name, trace);
      forall i :: 0 <= i < |run.tries| && run.tries[i].Posted().Ref? ==>
        Usable(s) && run.tries[i].Posted().value == PostFor(s.url.value.text, body, name)
  {
    KeepTryingAttempts(s, body, name, trace);
  }

  /** A 200 on the first attempt ends the loop after that one attempt, with success. */
  lemma FirstAttemptOk(s: Sender, body: string, name: string, trace: seq<Attempt>)
    requires Usable(s)
    requires |trace| > 0 && trace[0].response == Status(200)
    ensures KeepTrying(s, body, name, trace) == Run([Returned(PostFor(s.url.value.text, body, name), 200)], 0, Done(200))
  {
  }

  /** A retryable first attempt followed by a full sleep is retried: the run is
      that attempt, one sleep, and then the run on the rest of the trace. */
  lemma RetryableRetried(s: Sender, body: string, name: string, trace: seq<Attempt>)
    requires Usable(s) && s.retryInterval >= 0
    requires |trace| > 0 && Retryable(trace[0].response) && trace[0].wake == Elapsed
    ensures var run := KeepTrying(s, body, name, trace);
      var rest := KeepTrying(s, body, name, trace[1..]);
      && run.tries[0].Raised?
      && run.tries[0].sent == Ref(PostFor(s.url.value.text, body, name))
      && run.tries[1..] == rest.tries
      && run.sleeps == 1 + rest.sleeps
      && run.end == rest.end
  {
    TrySendClassification(s, body, name, trace[0].response);
  }

  /** Any status other than 200, 503 and 429 ends the loop after that attempt:
      the batch counts as done and is never posted again. */
  lemma TerminalStatusDrops(s: Sender, body: string, name: string, trace: seq<Attempt>)
    requires Usable(s)
    requires |trace| > 0 && trace[0].response.Status?
    requires trace[0].response.code !in {200, 503, 429}
    ensures var code := trace[0].response.code;
      KeepTrying(s, body, name, trace) == Run([Returned(PostFor(s.url.value.text, body, name), code)], 0, Done(code))
  {
  }

  /** Without a url every attempt fails with "Unknown endpoint" before any
      request is made, and the loop never ends with success. */
  lemma {:induction false} NoUrlNeverDelivers(s: Sender, body: string, name: string, trace: seq<Attempt>)
    requires s.url.Null?
    ensures var run := KeepTrying(s, body, name, trace);
      && (forall i :: 0 <= i < |run.tries| ==> run.tries[i] == Raised(UnknownEndpoint, Null))
      && !run.end.Done?
    decreases |trace|
  {
    if |trace| > 0 {
      NoUrlNeverDelivers(s, body, name, trace[1..]);
    }
  }

  /** With a url but no client (the sender was never initialised, or was
      closed), every attempt fails before any request is made and is retried
      like a transport failure; the loop never ends with success. */
  lemma {:induction false} NoClientNeverDelivers(s: Sender, body: string, name: string, trace: seq<Attempt>)
    requires s.url.Ref? && !IsInitialized(s)
    ensures var run := KeepTrying(s, body, name, trace);
      var failure := if s.url.value.wellFormed then NoClient else MalformedUrl;
      && (forall i :: 0 <= i < |run.tries| ==> run.tries[i] == Raised(failure, Null))
      && !run.end.Done?
    decreases |trace|
  {
    if |trace| > 0 {
      NoClientNeverDelivers(s, body, name, trace[1..]);
    }
  }

  /** A url the URI parser rejects fails every attempt while the post is being
      built, before any request is made; the failure is retried like a
      transport failure, and the loop never ends with success. */
  lemma {:induction false} MalformedUrlNeverDelivers(s: Sender, body: string, name: string, trace: seq<Attempt>)
    requires s.url.Ref? && !s.url.value.wellFormed
    ensures var run := KeepTrying(s, body, name, trace);
      && (forall i :: 0 <= i < |run.tries| ==> run.tries[i] == Raised(MalformedUrl, Null))
      && !run.end.Done?
    decreases |trace|
  {
    if |trace| > 0 {
      MalformedUrlNeverDelivers(s, body, name, trace[1..]);
    }
  }

  /** An interrupted retry sleep ends the loop at once: if the first `k`
      attempts failed and were followed by full sleeps, and attempt `k` fails
      and its sleep is interrupted, exactly `k + 1` attempts are made. */
  lemma InterruptedSleepBreaks(s: Sender, body: string, name: string, trace: seq<Attempt>, k: nat)
    requires s.retryInterval >= 0
    requires k < |trace|
    requires forall i :: 0 <= i < k ==> TrySend(s, body, name, trace[i].response).Raised? && trace[i].wake == Elapsed
    requires TrySend(s, body, name, trace[k].response).Raised?
    requires trace[k].wake != Elapsed
    ensures var run := KeepTrying(s, body, name, trace);
      && |run.tries| == k + 1
      && run.sleeps == k + 1
      && run.end == (if trace[k].wake == Interrupted then SleepInterrupted else InterruptFlagged)
  {
    KeepTryingStopsAt(s, body, name, trace, k);
  }

  /** The loop ends with `Done` only on an attempt that returned, and that
      attempt is the last one: no post follows a 200 or a terminal status. */
  lemma {:induction false} DoneOnlyOnLastAttempt(s: Sender, body: string, name: string, trace: seq<Attempt>)
    ensures var run := KeepTrying(s, body, name, trace);
      && (forall i :: 0 <= i < |run.tries| - 1 ==> run.tries[i].Raised?)
      && (run.end.Done? <==> |run.tries| > 0 && run.tries[|run.tries| - 1].Returned?)
      && (run.end.Done? ==> run.end.status == run.tries[|run.tries| - 1].status)
    decreases |trace|
  {
    if |trace| > 0 {
      DoneOnlyOnLastAttempt(s, body, name, trace[1..]);
    }
  }

  /** Throttled, then accepted: 503 on the first attempt and 200 on the second
      deliver the same payload once, after exactly one retry sleep. */
  lemma ThrottledThenAccepted(s: Sender, body: string, name: string, wake: Wake)
    requires Usable(s) && s.retryInterval >= 0
    ensures var post := PostFor(s.url.value.text, body, name);
      KeepTrying(s, body, name, [Attempt(Status(503), Elapsed), Attempt(Status(200), wake)])
        == Run([Raised(Unavailable(503), Ref(post)), Returned(post, 200)], 1, Done(200))
  {
    var trace := [Attempt(Status(503), Elapsed), Attempt(Status(200), wake)];
    assert trace[1..] == [Attempt(Status(200), wake)];
  }

  /** A 200 whose response then fails to be released is retried: the body the
      endpoint already accepted is posted a second time, identically. */
  lemma ReleaseFailureRepostsAcceptedBody(s: Sender, body: string, name: string, wake: Wake)
    requires Usable(s) && s.retryInterval >= 0
    ensures var post := PostFor(s.url.value.text, body, name);
      KeepTrying(s, body, name, [Attempt(ReleaseFailed(200), Elapsed), Attempt(Status(200), wake)])
        == Run([Raised(ReleaseError(200), Ref(post)), Returned(post, 200)], 1, Done(200))
  {
    var trace := [Attempt(ReleaseFailed(200), Elapsed), Attempt(Status(200), wake)];
    assert trace[1..] == [Attempt(Status(200), wake)];
  }
}
