/** The Sumo-specific half of the flushing task: its two tuning fields, the
    aggregation of a drained batch into one request body, and the gate that
    hands a body to the sender only when the sender is ready. */
module SumoBufferFlushingTask {
  import opened JavaTypes
  import opened SumoHttpSender

  /** The task's own fields; the queue it drains belongs to the base class
      and is not part of this model. */
  datatype Task = Task(sender: Nullable<Sender>, maxFlushInterval: Long, messagesPerRequest: Long)

  /** What `sendOut` did with one body. */
  datatype SendOutcome =
    | Forwarded(run: Run)     // the sender was ready: one `send` call, with its retry run
    | NotInitialized          // logged "HTTPSender is not initialized"; the body is dropped
    | NoSender                // the sender field is null: `isInitialized()` throws NullPointerException

  /** A task just constructed: no sender, both numeric fields at Java's default 0. */
  function NewTask(): (t: Task)
    ensures t.sender.Null?
    ensures GetMaxFlushInterval(t) == 0 && GetMessagesPerRequest(t) == 0
  {
    Task(Null, 0, 0)
  }

  function SetSender(t: Task, sender: Sender): Task
  {
    t.(sender := Ref(sender))
  }

  function SetMessagesPerRequest(t: Task, value: Long): Task
  {
    t.(messagesPerRequest := value)
  }

  function SetMaxFlushInterval(t: Task, value: Long): Task
  {
    t.(maxFlushInterval := value)
  }

  function GetMaxFlushInterval(t: Task): Long
  {
    t.maxFlushInterval
  }

  function GetMessagesPerRequest(t: Task): Long
  {
    t.messagesPerRequest
  }

  /** Each getter returns the last value given to its setter; a setter leaves
      the other field and the sender alone, and a second write overrides the first. */
  lemma SettersAndGetters(t: Task, a: Long, b: Long, sender: Sender)
    ensures GetMaxFlushInterval(SetMaxFlushInterval(t, a)) == a
    ensures GetMessagesPerRequest(SetMaxFlushInterval(t, a)) == GetMessagesPerRequest(t)
    ensures SetMaxFlushInterval(t, a).sender == t.sender
    ensures GetMessagesPerRequest(SetMessagesPerRequest(t, a)) == a
    ensures GetMaxFlushInterval(SetMessagesPerRequest(t, a)) == GetMaxFlushInterval(t)
    ensures SetMessagesPerRequest(t, a).sender == t.sender
    ensures SetMaxFlushInterval(SetMaxFlushInterval(t, a), b) == SetMaxFlushInterval(t, b)
    ensures SetMessagesPerRequest(SetMessagesPerRequest(t, a), b) == SetMessagesPerRequest(t, b)
    ensures SetMaxFlushInterval(SetMessagesPerRequest(t, a), b) == SetMessagesPerRequest(SetMaxFlushInterval(t, b), a)
    ensures SetSender(t, sender).sender == Ref(sender)
    ensures GetMaxFlushInterval(SetSender(t, sender)) == GetMaxFlushInterval(t)
    ensures GetMessagesPerRequest(SetSender(t, sender)) == GetMessagesPerRequest(t)
  {
  }

  // ---------------------------------------------------------------------
  // Aggregation.

  /** The in-order concatenation of a batch: the reference for `Aggregate`. */
  function Concat(messages: seq<string>): string
  {
    if |messages| == 0 then "" else messages[0] + Concat(messages[1..])
  }

  /** The total length of the messages of a batch. */
  function TotalLength(messages: seq<string>): nat
  {
    if |messages| == 0 then 0 else |messages[0]| + TotalLength(messages[1..])
  }

  /** `aggregate`: appends every message of the batch, in order, to one builder. */
  method Aggregate(messages: seq<string>) returns (body: string)
    ensures body == Concat(messages)
    ensures |body| == TotalLength(messages)
  {
    body := "";
    var i := 0;
    while i < |messages|
      invariant 0 <= i <= |messages|
      invariant body == Concat(messages[..i])
    {
      ConcatAppend(messages[..i], [messages[i]]);
      assert messages[..i + 1] == messages[..i] + [messages[i]];
      body := body + messages[i];
      i := i + 1;
    }
    assert messages[..i] == messages;
    ConcatLength(messages);
  }

  /** Aggregating a split batch is aggregating each part and joining them. */
  lemma {:induction false} ConcatAppend(a: seq<string>, b: seq<string>)
    ensures Concat(a + b) == Concat(a) + Concat(b)
    decreases |a|
  {
    if |a| == 0 {
      assert a + b == b;
    } else {
      assert (a + b)[1..] == a[1..] + b;
      ConcatAppend(a[1..], b);
    }
  }

  /** The body is exactly as long as all messages together: nothing dropped, nothing added. */
  lemma {:induction false} ConcatLength(messages: seq<string>)
    ensures |Concat(messages)| == TotalLength(messages)
    decreases |messages|
  {
    if |messages| > 0 {
      ConcatLength(messages[1..]);
    }
  }

  /** The empty batch aggregates to the empty body, and a one-message batch to that message. */
  lemma ConcatSmall(m: string)
    ensures Concat([]) == ""
    ensures Concat([m]) == m
  {
    assert [m][1..] == [];
  }

  /** Message `i` sits in the body right after messages `0..i-1`, unchanged:
      aggregation neither reorders nor alters any message. */
  lemma ConcatPlacement(messages: seq<string>, i: nat)
    requires i < |messages|
    ensures var offset := TotalLength(messages[..i]);
      offset + |messages[i]| <= |Concat(messages)|
      && Concat(messages)[offset .. offset + |messages[i]|] == messages[i]
  {
    var before, after := messages[..i], messages[i + 1..];
    assert messages == before + [messages[i]] + after;
    ConcatAppend(before + [messages[i]], after);
    ConcatAppend(before, [messages[i]]);
    ConcatSmall(messages[i]);
    ConcatLength(before);
    var body := Concat(messages);
    assert body == Concat(before) + messages[i] + Concat(after);
  }

  // ---------------------------------------------------------------------
  // The send gate.

  /** `sendOut(body)`: hands the body to the sender when the sender is ready,
      and otherwise logs and drops it.  `name` is the `X-Sumo-Name` value that
      the declared `send(body, name)` takes; the trace is the fate of each
      attempt of that one call. */
  function SendOut(t: Task, body: string, name: string, trace: seq<Attempt>): (r: SendOutcome)
    ensures r.Forwarded? <==> t.sender.Ref? && IsInitialized(t.sender.value)
    ensures r.NoSender? <==> t.sender.Null?
    ensures r.Forwarded? ==> r.run == Send(t.sender.value, body, name, trace)
  {
    match t.sender
    case Null => NoSender
    case Ref(sender) =>
      if IsInitialized(sender) then Forwarded(Send(sender, body, name, trace)) else NotInitialized
  }

  /** A forwarded body is sent by exactly one `send` call, whose every post
      carries that body and the given name to the sender's url; a body that is
      not forwarded produces no post at all. */
  lemma SendOutDelivers(t: Task, body: string, name: string, trace: seq<Attempt>)
    ensures var r := SendOut(t, body, name, trace);
      r.Forwarded? ==>
        forall i :: 0 <= i < |r.run.tries| && r.run.tries[i].Posted().Ref? ==>
          r.run.tries[i].Posted().value == PostFor(t.sender.value.url.value.text, body, name)
  {
    if t.sender.Ref? && IsInitialized(t.sender.value) {
      KeepTryingSamePayload(t.sender.value, body, name, trace);
    }
  }

  /** Aggregating a batch and sending it out posts the in-order concatenation
      of the batch, and nothing else. */
  lemma SendOutBatch(t: Task, messages: seq<string>, name: string, trace: seq<Attempt>)
    ensures var r := SendOut(t, Concat(messages), name, trace);
      r.Forwarded? ==>
        forall i :: 0 <= i < |r.run.tries| && r.run.tries[i].Posted().Ref? ==>
          r.run.tries[i].Posted().value.body == Concat(messages)
          && |r.run.tries[i].Posted().value.body| == TotalLength(messages)
  {
    SendOutDelivers(t, Concat(messages), name, trace);
    ConcatLength(messages);
  }
}
