# Sumo Logic logback appender: retrying sender and flushing task

This project is a Dafny model of the delivery end of the Sumo Logic logback
appender. Log lines are buffered, drained in batches, joined into one request
body, and posted to a Sumo Logic HTTP collector.

- `SumoHttpSender` (`sumo_http_sender.dfy`) models the sender.
  - Its readiness flag is the HTTP client handle, which `init()` creates and `close()` drops.
  - Its blocking retry loop `keepTrying`/`trySend` runs while an attempt fails.
  - Status 200 ends the loop, once the response has been released.
  - 503, 429 and transport failures are retried after `retryInterval`, with no cap on attempts.
    A failure to release the response after any other status is retried in the same way.
  - Any other status is logged, and the batch counts as done.
  - An interrupted retry sleep ends the loop, and so does the interrupt flag being seen.
- `SumoBufferFlushingTask` (`sumo_buffer_flushing_task.dfy`) models three parts of the flushing task:
  - its two tuning fields and their getters and setters;
  - `aggregate`, which joins a drained batch in order;
  - `sendOut`, which hands the body to the sender only when the sender is initialised.
- `JavaTypes` (`java_types.dfy`) holds Java `long`/`int` ranges, nullable references and thrown exceptions.

The network, the clock and thread interruption are not modelled directly.
Instead, one `Attempt` value says what happened on each attempt:

- the `Response`: a transport error; an HTTP status code; or an HTTP status
  code whose response entity then failed to be released (`ReleaseFailed`);
- the `Wake`: how the retry sleep after a failed attempt ended. The sleep can
  elapse, elapse with the interrupt flag raised, or be interrupted.

`KeepTrying` is a pure function over a finite trace of attempts. If the trace
runs out while the loop would go on, the run ends as `StillRetrying`.

Edge cases of the code that the model keeps:

- With no url, every attempt fails before any request is built. The failure is
  retried like a transport error, so the loop can stop only through
  interruption or through a negative retry interval. It never ends with success.
- A url that the URI parser rejects makes building the post throw
  `IllegalArgumentException`. `trySend` does not catch it, but `keepTrying`'s
  catch-all does, so it is retried like the missing url and nothing is posted
  (`MalformedUrl`). Whether a url parses is the `wellFormed` flag of `Endpoint`.
- Releasing the response (`EntityUtils.consume`) can fail with an I/O error
  after a status other than 503 or 429 has come back, 200 included. The error
  is rethrown, so the loop sleeps and posts the same body again, although the
  endpoint may already have accepted it (`ReleaseFailed`, `ReleaseError`).
- With a url but no client, `execute` is called on a null handle. The sender
  never had a client, or it was closed. The `NullPointerException` is caught
  by `keepTrying`'s catch-all and retried in the same way (`NoClient`). A
  send before `init()` is therefore retried like a transport failure, not
  reported as a configuration error.
- A negative `retryInterval` makes `Thread.sleep` throw
  `IllegalArgumentException`. The loop does not catch it, so it escapes `send`
  (`SleepRejected`).
- `close()` on a sender without a client throws `NullPointerException`.
- `sendOut` on a task whose sender field is null throws
  `NullPointerException` (`NoSender`).
- The source has an inconsistency. `sendOut` calls `sender.send(body)` with
  one argument, but the sender declares `send(String body, String name)`. The
  model uses the declared two-parameter form: `SendOut` takes the `name` that
  the call would need, and passes it on.

## Model

| member | source | states |
|---|---|---|
| SumoHttpSender.NewSender | src/main/java/com/sumologic/logback/http/SumoHttpSender.java:51-56 | a new sender has no client, so it is not initialised; it has no url, a 10000 ms retry interval, a 1000 ms connection timeout and a 60000 ms socket timeout |
| SumoHttpSender.Init | src/main/java/com/sumologic/logback/http/SumoHttpSender.java:75-84 | after `init()` the sender is initialised; its client carries the configured connection and socket timeouts; url and retry interval are unchanged |
| SumoHttpSender.Close | src/main/java/com/sumologic/logback/http/SumoHttpSender.java:75-89 | `close()` succeeds exactly when a client exists and leaves the sender not initialised with its configuration unchanged; without a client it throws NullPointerException |
| SumoHttpSender.InitCloseRoundTrip | src/main/java/com/sumologic/logback/http/SumoHttpSender.java:75-89 | `isInitialized` is the client handle being non-null: `init()` makes it true, `close()` makes it false and succeeds exactly on a ready sender; `init()` then `close()` gives back a sender without a client; `init()` after `close()` is the same as `init()` |
| SumoHttpSender.PostFor | src/main/java/com/sumologic/logback/http/SumoHttpSender.java:117-119 | the post goes to the configured url, with the body as its entity and `X-Sumo-Name` set to the name as its only header |
| SumoHttpSender.TrySend | src/main/java/com/sumologic/logback/http/SumoHttpSender.java:111-141 | a post is handed to `execute` only when the url is set and parses and a client exists, and it is the post of this body with this `X-Sumo-Name`; an attempt returns only with the status it received and released |
| SumoHttpSender.KeepTrying | src/main/java/com/sumologic/logback/http/SumoHttpSender.java:95-109 | the loop makes at most one attempt per trace entry and at most one sleep per attempt; a loop still retrying has used the whole trace and slept after every attempt; a loop that ends `Done` slept once between each pair of attempts |
| SumoHttpSender.TrySendClassification | src/main/java/com/sumologic/logback/http/SumoHttpSender.java:120-139 | with a parsing url and a client, an attempt throws exactly on a transport failure, a failed release, 503 or 429; any other status returns normally, 200 or not |
| SumoHttpSender.Send | src/main/java/com/sumologic/logback/http/SumoHttpSender.java:91-93 | `send` makes at most one attempt per trace entry, and attempt `i` is `trySend` on entry `i` |
| SumoHttpSender.KeepTryingAttempts | src/main/java/com/sumologic/logback/http/SumoHttpSender.java:95-109 | the loop's attempts are taken from the trace in order, with none skipped or invented |
| SumoHttpSender.KeepTryingStopsAt | src/main/java/com/sumologic/logback/http/SumoHttpSender.java:95-109 | if attempt `k` is the first that stops the loop, exactly `k+1` attempts are made with one retry sleep between each pair; the loop ends for attempt `k`'s reason |
| SumoHttpSender.KeepTryingNeverStops | src/main/java/com/sumologic/logback/http/SumoHttpSender.java:97-108 | while every attempt fails and every sleep elapses, the loop keeps going with no attempt cap; each failed attempt is followed by a sleep |
| SumoHttpSender.KeepTryingSamePayload | src/main/java/com/sumologic/logback/http/SumoHttpSender.java:95-119 | every post of one `send` carries the same url, the same `X-Sumo-Name` value and the same body |
| SumoHttpSender.FirstAttemptOk | src/main/java/com/sumologic/logback/http/SumoHttpSender.java:95-131 | a 200 on the first attempt ends the loop after exactly one attempt, with no sleep and with success |
| SumoHttpSender.RetryableRetried | src/main/java/com/sumologic/logback/http/SumoHttpSender.java:101-139 | after a transport failure, 503 or 429, the loop sleeps once and runs again on the rest of the trace with the same post |
| SumoHttpSender.TerminalStatusDrops | src/main/java/com/sumologic/logback/http/SumoHttpSender.java:99-131 | any status other than 200, 503 and 429 ends the loop after that single attempt, and the batch is not posted again |
| SumoHttpSender.NoUrlNeverDelivers | src/main/java/com/sumologic/logback/http/SumoHttpSender.java:102-115 | without a url, every attempt fails with "Unknown endpoint" before any request is made, and the loop never ends with success |
| SumoHttpSender.NoClientNeverDelivers | src/main/java/com/sumologic/logback/http/SumoHttpSender.java:101-120 | with a url but no client, every attempt fails before a request is sent and is retried (or fails on the url first, if it does not parse); the loop never ends with success |
| SumoHttpSender.MalformedUrlNeverDelivers | src/main/java/com/sumologic/logback/http/SumoHttpSender.java:101-117 | a url the URI parser rejects fails every attempt before any request is made; the failure is retried, and the loop never ends with success |
| SumoHttpSender.InterruptedSleepBreaks | src/main/java/com/sumologic/logback/http/SumoHttpSender.java:102-108 | an interrupted retry sleep, or an interrupt flag seen by the loop test, stops the loop at once; no attempt follows |
| SumoHttpSender.DoneOnlyOnLastAttempt | src/main/java/com/sumologic/logback/http/SumoHttpSender.java:96-108 | the loop ends as done exactly when its last attempt returned, with that status; every earlier attempt threw |
| SumoHttpSender.ThrottledThenAccepted | src/main/java/com/sumologic/logback/http/SumoHttpSender.java:95-131 | a 503 followed by a 200 gives two posts of the identical payload with one retry sleep between them, then success |
| SumoHttpSender.ReleaseFailureRepostsAcceptedBody | src/main/java/com/sumologic/logback/http/SumoHttpSender.java:99-139 | a 200 whose response fails to be released is retried: the accepted body is posted a second time, identically, after one sleep |
| SumoBufferFlushingTask.NewTask | src/main/java/com/sumologic/logback/http/SumoBufferFlushingTask.java:40-46 | a new task has no sender, and both tuning fields read 0 |
| SumoBufferFlushingTask.SettersAndGetters | src/main/java/com/sumologic/logback/http/SumoBufferFlushingTask.java:49-69 | each getter returns the last value given to its setter; `setSender` stores the sender it is given; a setter changes nothing else; the two setters commute |
| SumoBufferFlushingTask.Aggregate | src/main/java/com/sumologic/logback/http/SumoBufferFlushingTask.java:72-79 | the builder loop yields the in-order concatenation of the batch, whose length is the sum of the message lengths |
| SumoBufferFlushingTask.ConcatAppend | src/main/java/com/sumologic/logback/http/SumoBufferFlushingTask.java:75-77 | the aggregate of two concatenated batches is the aggregate of the first followed by the aggregate of the second |
| SumoBufferFlushingTask.ConcatLength | src/main/java/com/sumologic/logback/http/SumoBufferFlushingTask.java:75-77 | the body's length is the sum of the message lengths: nothing is dropped or added |
| SumoBufferFlushingTask.ConcatSmall | src/main/java/com/sumologic/logback/http/SumoBufferFlushingTask.java:74-78 | an empty batch aggregates to the empty string, and a single message aggregates to itself |
| SumoBufferFlushingTask.ConcatPlacement | src/main/java/com/sumologic/logback/http/SumoBufferFlushingTask.java:75-77 | message `i` appears unchanged right after the combined length of messages `0..i-1`, so no message is reordered |
| SumoBufferFlushingTask.SendOut | src/main/java/com/sumologic/logback/http/SumoBufferFlushingTask.java:81-89 | a body goes to the sender, in one `send` call, exactly when a sender exists and is initialised; otherwise it is dropped, or the null sender throws |
| SumoBufferFlushingTask.SendOutDelivers | src/main/java/com/sumologic/logback/http/SumoBufferFlushingTask.java:82-85 | when forwarded, every post of that one `send` carries the given body and name to the sender's url |
| SumoBufferFlushingTask.SendOutBatch | src/main/java/com/sumologic/logback/http/SumoBufferFlushingTask.java:73-89 | an aggregated batch that is sent out is posted as the in-order concatenation of its messages, at its full length |

## Left out

- Real HTTP execution is left out. This covers the client's construction and timeouts, `EntityUtils.consume` and `post.abort()`. They are library I/O; an attempt's result is the abstract `Response`.
- SumoHttpSender.TrySend: the URI grammar is not modelled. Whether `URI.create` accepts a url is taken as given, as the `wellFormed` flag of the `Endpoint`.
- Strings follow Dafny's representation, which is a sequence of Unicode scalar values. Java strings are UTF-16 code units. Lone surrogates cannot be represented, and a character outside the Basic Multilingual Plane counts 1 in `TotalLength` where `length()` counts 2. The UTF-8 encoding of the body into the request entity is not modelled.
- Java `String` values that are null are left out: `body`, `name` and every message of a batch are assumed non-null. In the source, a null `body` makes `new StringEntity` throw `IllegalArgumentException`. `keepTrying`'s catch-all retries that forever, and nothing is handed to `execute`, as with a malformed url. A null `name` gives an `X-Sumo-Name` header with a null value. A null message is appended by `aggregate` as the four characters `null`. In the files modelled, `sendOut` is the only caller of `send`. It forwards the body that the base flushing task gives it, presumably the result of `aggregate`.
- Real sleep timing and thread interruption are left out. `Wake` represents them. The retry interval appears only as the number of sleeps started; durations are not modelled.
- Changes to the shared sender object from another thread are left out: `setUrl`, `close()` or `init()`. The task holds the sender by reference, and the appender calls `sender.close()` before stopping the flusher. Such a change takes effect on the next attempt of a running `send`. For example, a `close()` makes the remaining attempts fail with `NoClient`, and it makes the next `sendOut` log and drop its body. The model keeps the sender fixed for one `send`. `Task` holds a `Sender` value, so a change to the sender must be written as a new `SetSender`.
- The sender's setters for retry interval, url and timeouts are plain field writes. They are datatype updates of `Sender`, with no member of their own.
- Logging calls are left out. They have no effect on behaviour.
- SumoBufferFlushingTask.Aggregate: does not model the initial builder capacity `messages.size() * 10`. It is a sizing hint, but the product is computed in `int`. When `messages.size() * 10` overflows, it can come out negative, for example for 214,748,365 to 429,496,729 messages. `new StringBuilder` then throws NegativeArraySizeException out of `aggregate`. For other overflowing sizes it wraps back to a non-negative capacity, and nothing is thrown. The model always returns the concatenation.
- The drained queue and the scheduler that calls `aggregate`/`sendOut` are left out. These are the eviction queue and the base flushing task, and they are not part of this model. `SendOutBatch` states only how the two steps compose.
- The appender classes `BufferedSumoLogicAppender` and `SumoLogicAppender` are left out. They are logging-framework lifecycle wiring around unseen collaborators.
- The JSON layout class is left out. It is a thin override of a library class.
- Headers other than `X-Sumo-Name` are not modelled, because the sender never sets them. These include the category, host and client headers that the appender tests expect.
