/** Talking to a plugin process (src/coordinator/src/plugin_client.rs). */
module PluginClient {
  import opened Base
  import opened Messages

  // -------------------------------------------------- draining CreateFixture

  const PROGRESS_SUCCEEDED := 4
  const PROGRESS_ERROR := 5

  datatype FixtureResult = FixtureResult(outputs: Outputs, idleTimeoutSeconds: int64, instanceData: Bytes)

  /** One read off the progress stream. The status is an open enumeration: a
      number outside it reads as UNKNOWN. */
  datatype StreamItem = Progress(status: int32, result: Option<FixtureResult>) | Broken

  datatype CreateError = NoResult | PluginFailed | TransportFailed | StreamClosed

  predicate Terminal(item: StreamItem) {
    item.Broken? || item.status == PROGRESS_SUCCEEDED || item.status == PROGRESS_ERROR
  }

  /** How the call ends if this item is the one that ends it. */
  function Outcome(item: StreamItem): Result<FixtureResult, CreateError>
    requires Terminal(item)
  {
    match item
    case Broken => Err(TransportFailed)
    case Progress(status, result) =>
      if status == PROGRESS_ERROR then Err(PluginFailed)
      else if result.None? then Err(NoResult)
      else Ok(result.value)
  }

  /** The outcome of a whole stream: that of its first terminal item. */
  function Drain(stream: seq<StreamItem>): Result<FixtureResult, CreateError> {
    if stream == [] then Err(StreamClosed)
    else if Terminal(stream[0]) then Outcome(stream[0])
    else Drain(stream[1..])
  }

  method CreateFixture(stream: seq<StreamItem>) returns (r: Result<FixtureResult, CreateError>)
    ensures r == Drain(stream)
  {
    var i := 0;
    while i < |stream|
      invariant 0 <= i <= |stream|
      invariant Drain(stream) == Drain(stream[i..])
    {
      var item := stream[i];
      if item.Broken? {
        return Err(TransportFailed);
      }
      if item.status == PROGRESS_SUCCEEDED {
        match item.result {
          case Some(result) => return Ok(result);
          case None => return Err(NoResult);
        }
      } else if item.status == PROGRESS_ERROR {
        return Err(PluginFailed);
      }
      assert stream[i..][1..] == stream[i + 1..];
      i := i + 1;
    }
    return Err(StreamClosed);
  }

  /** Item i is SUCCEEDED (4) with this result, and no item before it is broken,
      SUCCEEDED (4) or ERROR (5). */
  ghost predicate SucceedsAt(stream: seq<StreamItem>, i: nat, result: FixtureResult) {
    && i < |stream| && stream[i] == Progress(4, Some(result))
    && forall j :: 0 <= j < i ==> stream[j].Progress? && stream[j].status != 4 && stream[j].status != 5
  }

  /** Provisioning succeeds exactly when the first terminal item is SUCCEEDED
      with a result, and then with that very result. */
  lemma {:induction false} DrainExact(stream: seq<StreamItem>, result: FixtureResult)
    ensures Drain(stream) == Ok(result) <==> exists i: nat :: SucceedsAt(stream, i, result)
  {
    if stream != [] {
      if Terminal(stream[0]) {
        if Drain(stream) == Ok(result) {
          assert SucceedsAt(stream, 0, result);
        }
      } else {
        var rest := stream[1..];
        DrainExact(rest, result);
        if i: nat :| SucceedsAt(rest, i, result) {
          assert forall j :: 0 < j < i + 1 ==> stream[j] == rest[j - 1];
          assert SucceedsAt(stream, i + 1, result);
        }
        if i: nat :| SucceedsAt(stream, i, result) {
          assert forall j :: 0 <= j < i - 1 ==> rest[j] == stream[j + 1];
          assert SucceedsAt(rest, i - 1, result);
        }
      }
    }
  }

  /** Whatever the plugin sends after its first terminal message is ignored. */
  lemma {:induction false} DrainIgnoresLater(stream: seq<StreamItem>, later: seq<StreamItem>)
    requires exists i :: 0 <= i < |stream| && (stream[i].Broken? || stream[i].status == 4 || stream[i].status == 5)
    ensures Drain(stream + later) == Drain(stream)
  {
    var i :| 0 <= i < |stream| && (stream[i].Broken? || stream[i].status == 4 || stream[i].status == 5);
    if !Terminal(stream[0]) {
      assert (stream + later)[1..] == stream[1..] + later;
      assert stream[1..][i - 1] == stream[i];
      DrainIgnoresLater(stream[1..], later);
    }
  }

  // ------------------------------------------------------- connecting to it

  datatype ConnectError = Exited | TimedOut | PollFailed

  /** What polling the child for an exit status yields. */
  datatype Poll = Running | Finished | PollError

  /** `dials(i)` and `polls(i)` are what the i-th attempt sees, and `clock(i)` is
      the time read after attempt i - 1, `clock(0)` the time at entry. Before each
      further attempt the code sleeps 50 ms. */
  method ConnectWithRetry(timeout: nat, dials: nat -> bool, polls: nat -> Poll, clock: nat -> nat)
    returns (r: Result<nat, ConnectError>, attempts: nat)
    requires clock(0) <= clock(1)
    requires forall i: nat :: i > 0 ==> clock(i) + 50 <= clock(i + 1)
    ensures 1 <= attempts <= (timeout + 49) / 50 + 1
    ensures r.Ok? <==> dials(attempts - 1)
    ensures r.Ok? ==> r.value == attempts - 1
    ensures forall i: nat :: i < attempts - 1 ==> !dials(i) && polls(i) == Running
    ensures forall i: nat :: 0 < i < attempts ==> clock(i) < clock(0) + timeout
    ensures r == Err(Exited) <==> !dials(attempts - 1) && polls(attempts - 1) == Finished
    ensures r == Err(PollFailed) <==> !dials(attempts - 1) && polls(attempts - 1) == PollError
    ensures r == Err(TimedOut) ==> clock(attempts) >= clock(0) + timeout
  {
    var deadline := clock(0) + timeout;
    attempts := 0;
    while true
      invariant attempts > 0 ==> clock(attempts) < deadline
      invariant clock(attempts) >= clock(0) + 50 * (attempts - 1)
      invariant forall i: nat :: i < attempts ==> !dials(i) && polls(i) == Running
      invariant forall i: nat :: 0 < i <= attempts ==> clock(i) < deadline
      decreases deadline + 50 - 50 * attempts
    {
      attempts := attempts + 1;
      assert attempts > 1 ==> clock(attempts - 1) + 50 <= clock(attempts);
      if dials(attempts - 1) {
        return Ok(attempts - 1), attempts;
      }
      match polls(attempts - 1) {
        case Finished => return Err(Exited), attempts;
        case PollError => return Err(PollFailed), attempts;
        case Running =>
      }
      if clock(attempts) >= deadline {
        return Err(TimedOut), attempts;
      }
    }
  }
}
