/**
 * The Kafka consumer loop of common-kafka/src/consumer.rs.
 *
 * The handler behind `MessageHandler::handle` is an oracle: `outcome(a)` says whether the
 * `a`-th call (counting from 0) for the current message succeeds, and for the whole stream
 * `handle(i, a)` gives the outcome of attempt `a` on message `i`. Sleeps are recorded as
 * millisecond values instead of being waited for, and commits as the stream positions of
 * the messages committed.
 */
module Consumer {
  import opened Types

  const INITIAL_BACKOFF_MS: nat := 100
  const MAX_RETRIES_EXCEEDED: string := "Max retries exceeded"

  /** One call `handler.handle(key, payload)`. */
  datatype Call = Call(key: Bytes, payload: Bytes)

  /** One item of `consumer.stream()`: a receive error or a message whose key and payload may be absent. */
  datatype Delivery =
    | RecvError
    | Received(key: Option<Bytes>, payload: Option<Bytes>)

  function Pow2(k: nat): nat {
    if k == 0 then 1 else 2 * Pow2(k - 1)
  }

  /** The sleep after the (k+1)-th failed attempt: 100 ms doubled k times. */
  function BackoffMs(k: nat): nat {
    INITIAL_BACKOFF_MS * Pow2(k)
  }

  /** Some attempt within the retry budget succeeds. */
  predicate Succeeds(maxRetries: u32, outcome: nat -> bool) {
    exists a :: 0 <= a < maxRetries as nat && outcome(a)
  }

  /**
   * `process_with_retry`: call the handler until it succeeds or `max_retries` calls have
   * failed, sleeping `backoff` after every failure (the last one included) and doubling it.
   */
  method ProcessWithRetry(maxRetries: u32, key: Bytes, payload: Bytes, outcome: nat -> bool)
    returns (r: Result<(), KafkaError>, calls: seq<Call>, sleeps: seq<nat>)
    ensures |calls| <= maxRetries as nat
    ensures forall k :: 0 <= k < |calls| ==> calls[k] == Call(key, payload)
    ensures forall k :: 0 <= k < |calls| ==> (outcome(k) <==> r.Ok? && k == |calls| - 1)
    ensures r.Ok? ==> 0 < |calls|
    ensures r.Err? ==> |calls| == maxRetries as nat && r.error == MessageDelivery(MAX_RETRIES_EXCEEDED)
    ensures r.Ok? <==> Succeeds(maxRetries, outcome)
    ensures |sleeps| == if r.Ok? then |calls| - 1 else |calls|
    ensures forall k :: 0 <= k < |sleeps| ==> sleeps[k] == BackoffMs(k)
  {
    var retries: u32 := 0;
    var backoff: nat := INITIAL_BACKOFF_MS;
    calls, sleeps := [], [];
    while retries < maxRetries
      invariant retries <= maxRetries
      invariant |calls| == |sleeps| == retries as nat
      invariant backoff == BackoffMs(retries as nat)
      invariant forall k :: 0 <= k < |calls| ==> calls[k] == Call(key, payload) && !outcome(k)
      invariant forall k :: 0 <= k < |sleeps| ==> sleeps[k] == BackoffMs(k)
    {
      calls := calls + [Call(key, payload)];
      if outcome(retries as nat) {
        r := Ok(());
        assert Succeeds(maxRetries, outcome) by { assert outcome(retries as nat); }
        return;
      }
      retries := retries + 1;
      sleeps := sleeps + [backoff];
      backoff := backoff * 2;
    }
    r := Err(MessageDelivery(MAX_RETRIES_EXCEEDED));
  }

  /** Message `i` of the stream is a message and one of its attempts succeeds. */
  predicate Handled(stream: seq<Delivery>, i: nat, maxRetries: u32, handle: (nat, nat) -> bool)
    requires i < |stream|
  {
    stream[i].Received? && exists a :: 0 <= a < maxRetries as nat && handle(i, a)
  }

  predicate Increasing(s: seq<nat>) {
    forall a, b :: 0 <= a < b < |s| ==> s[a] < s[b]
  }

  lemma AppendIncreasing(s: seq<nat>, x: nat)
    requires Increasing(s)
    requires forall y :: y in s ==> y < x
    ensures Increasing(s + [x])
  {
    forall a, b | 0 <= a < b < |s| + 1
      ensures (s + [x])[a] < (s + [x])[b]
    {
      if b == |s| {
        assert s[a] in s;
      }
    }
  }

  /**
   * `start`: walk the stream; for each message run `process_with_retry` on its key and
   * payload (absent ones read as empty), commit it on success, and pause one second on a
   * failed message or a receive error. A failed commit ends the loop with `MessageDelivery`.
   *
   * `consumed` is how many stream items were taken; `commits` the positions committed (the
   * last one is the failing commit when `r` is an error); `pauses` the positions followed by
   * the one-second pause (`Duration::from_secs(1)`); `calls` the position of the message
   * each handler call was for, and `args` the key and payload that call was given.
   */
  method Start(maxRetries: u32, stream: seq<Delivery>, handle: (nat, nat) -> bool, commitError: nat -> Option<string>)
    returns (r: Result<(), KafkaError>, consumed: nat, commits: seq<nat>, pauses: seq<nat>, calls: seq<nat>, args: seq<Call>)
    ensures consumed <= |stream|
    ensures r.Ok? ==> consumed == |stream|
    ensures Increasing(commits) && Increasing(pauses)
    ensures forall i :: 0 <= i < consumed ==> (i in commits <==> Handled(stream, i, maxRetries, handle))
    ensures forall i :: 0 <= i < consumed ==> (i in pauses <==> !Handled(stream, i, maxRetries, handle))
    ensures forall i :: i in commits || i in pauses ==> i < consumed
    ensures r.Ok? ==> forall k :: 0 <= k < |commits| ==> commitError(commits[k]).None?
    ensures r.Err? ==>
      && 0 < |commits| && commits[|commits| - 1] == consumed - 1
      && commitError(consumed - 1).Some?
      && r.error == MessageDelivery(commitError(consumed - 1).value)
      && forall k :: 0 <= k < |commits| - 1 ==> commitError(commits[k]).None?
    ensures forall k :: 0 <= k < |calls| ==> calls[k] < consumed && stream[calls[k]].Received?
    ensures forall k, l :: 0 <= k < l < |calls| ==> calls[k] <= calls[l]
    ensures |args| == |calls|
    ensures forall k :: 0 <= k < |calls| ==>
      args[k] == Call(stream[calls[k]].key.GetOr([]), stream[calls[k]].payload.GetOr([]))
  {
    consumed, commits, pauses, calls, args := 0, [], [], [], [];
    while consumed < |stream|
      invariant consumed <= |stream|
      invariant Increasing(commits) && Increasing(pauses)
      invariant forall i :: 0 <= i < consumed ==> (i in commits <==> Handled(stream, i, maxRetries, handle))
      invariant forall i :: 0 <= i < consumed ==> (i in pauses <==> !Handled(stream, i, maxRetries, handle))
      invariant forall i :: i in commits || i in pauses ==> i < consumed
      invariant forall k :: 0 <= k < |commits| ==> commitError(commits[k]).None?
      invariant forall k :: 0 <= k < |calls| ==> calls[k] < consumed && stream[calls[k]].Received?
      invariant forall k, l :: 0 <= k < l < |calls| ==> calls[k] <= calls[l]
      invariant |args| == |calls|
      invariant forall k :: 0 <= k < |calls| ==>
        args[k] == Call(stream[calls[k]].key.GetOr([]), stream[calls[k]].payload.GetOr([]))
    {
      var i := consumed;
      match stream[i]
      case Received(key, payload) =>
        var result, tried, _ := ProcessWithRetry(maxRetries, key.GetOr([]), payload.GetOr([]), (a: nat) => handle(i, a));
        calls := calls + seq(|tried|, _ => i);
        args := args + tried;
        assert result.Ok? <==> Handled(stream, i, maxRetries, handle) by {
          if result.Ok? {
            var a :| 0 <= a < maxRetries as nat && ((a: nat) => handle(i, a))(a);
            assert handle(i, a);
          }
          if Handled(stream, i, maxRetries, handle) {
            var a :| 0 <= a < maxRetries as nat && handle(i, a);
            assert ((a: nat) => handle(i, a))(a);
          }
        }
        if result.Ok? {
          AppendIncreasing(commits, i);
          commits := commits + [i];
          consumed := consumed + 1;
          if commitError(i).Some? {
            r := Err(MessageDelivery(commitError(i).value));
            return;
          }
        } else {
          AppendIncreasing(pauses, i);
          pauses := pauses + [i];
          consumed := consumed + 1;
        }
      case RecvError =>
        AppendIncreasing(pauses, i);
        pauses := pauses + [i];
        consumed := consumed + 1;
    }
    r := Ok(());
  }
}
