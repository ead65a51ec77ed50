/** The connection lifecycle of the data-access gateway (server/access/db.js,
    `connect`). The process-wide `db` slot is an `Option<Handle>`: `None` while
    it still holds `false`, `Some(h)` once a dial has succeeded. The driver's
    dial is an input to the transition, so `Connect` is a pure function from
    the slot, the `verbose` flag and the dial outcome to the new slot, the
    promise's outcome and the status lines logged. */
module DbConnection {
  import opened Wrappers

  /** An established driver connection (the object `MongoClient.connect`
      resolves with); opaque to the gateway. */
  datatype Handle = Handle(id: nat)

  /** The error a failed dial rejects with; passed on untouched. */
  datatype DriverError = DriverError(code: nat)

  /** What `MongoClient.connect(url)` would settle with if it were called. */
  datatype Dial = Dialled(handle: Handle) | DialFailed(error: DriverError)

  /** The status lines `log.task` receives, in the order they are emitted. */
  datatype Status = Connecting | Connected | ConnectFailed

  /** The outcome of one `connect` call. `dialled` says whether the driver
      was asked to dial at all. */
  datatype Step = Step(
    slot: Option<Handle>,
    result: Result<Handle, DriverError>,
    dialled: bool,
    log: seq<Status>)

  /** One call `connect(verbose)` against the slot `slot`; `dial` is consulted
      only when the slot is empty. */
  function Connect(slot: Option<Handle>, verbose: bool, dial: Dial): (s: Step)
    // an already stored handle is returned as is: no dial, no log, no change
    ensures slot.Some? ==>
      s.slot == slot && s.result == Success(slot.value) && !s.dialled && s.log == []
    // otherwise the driver is dialled exactly once
    ensures slot.None? ==> s.dialled
    // a successful dial stores exactly the dialled handle and resolves with it
    ensures slot.None? && dial.Dialled? ==>
      s.slot == Some(dial.handle) && s.result == Success(dial.handle)
    // a failed dial leaves the slot empty and rejects with the driver's error
    ensures slot.None? && dial.DialFailed? ==>
      s.slot == None && s.result == Failure(dial.error)
    // status lines appear only in verbose mode: "connecting", then the verdict
    ensures !verbose ==> s.log == []
    ensures verbose && slot.None? ==>
      s.log == [Connecting, if dial.Dialled? then Connected else ConnectFailed]
    // the slot, once filled, is never replaced or emptied
    ensures slot.Some? ==> s.slot == slot
    ensures s.result.Success? <==> s.slot.Some?
    ensures s.result.Success? ==> s.slot == Some(s.result.value)
  {
    if slot.Some? then
      Step(slot, Success(slot.value), false, [])
    else
      var before := if verbose then [Connecting] else [];
      match dial
      case Dialled(h) =>
        Step(Some(h), Success(h), true, before + (if verbose then [Connected] else []))
      case DialFailed(e) =>
        Step(None, Failure(e), true, before + (if verbose then [ConnectFailed] else []))
  }

  /** One `connect` call as the process issues it, with the outcome the driver
      would give if asked to dial. */
  datatype Call = Call(verbose: bool, dial: Dial)

  /** A sequence of `connect` calls, each completing before the next begins:
      the final slot and the outcome of every call, in order. */
  datatype Run = Run(slot: Option<Handle>, results: seq<Result<Handle, DriverError>>)

  function ConnectRun(slot: Option<Handle>, calls: seq<Call>): (r: Run)
    ensures |r.results| == |calls|
    // a stored handle is never replaced or dropped
    ensures slot.Some? ==> r.slot == slot
    // every call that resolved did so with the handle the slot ends up holding
    ensures forall i :: 0 <= i < |calls| && r.results[i].Success? ==> r.slot == Some(r.results[i].value)
    decreases |calls|
  {
    if |calls| == 0 then Run(slot, [])
    else
      var s := Connect(slot, calls[0].verbose, calls[0].dial);
      var rest := ConnectRun(s.slot, calls[1..]);
      var results := [s.result] + rest.results;
      assert forall i :: 1 <= i < |calls| ==> results[i] == rest.results[i - 1];
      Run(rest.slot, results)
  }

  /** Independent reference: the handle of the first dial that would succeed. */
  function FirstSuccess(calls: seq<Call>): Option<Handle>
    decreases |calls|
  {
    if |calls| == 0 then None
    else if calls[0].dial.Dialled? then Some(calls[0].dial.handle)
    else FirstSuccess(calls[1..])
  }

  /** Once a handle is stored, every later `connect` resolves with that very
      handle and the slot keeps it, whatever the later dials would have done. */
  lemma {:induction false} StoredHandleIsKept(h: Handle, calls: seq<Call>)
    ensures ConnectRun(Some(h), calls).slot == Some(h)
    ensures forall i :: 0 <= i < |calls| ==> ConnectRun(Some(h), calls).results[i] == Success(h)
    decreases |calls|
  {
    if |calls| > 0 {
      StoredHandleIsKept(h, calls[1..]);
      var r := ConnectRun(Some(h), calls);
      var rest := ConnectRun(Some(h), calls[1..]);
      assert r.results == [Success(h)] + rest.results;
    }
  }

  /** Starting unconnected, the slot ends up holding exactly the handle of the
      first successful dial (failed dials leave room for a retry), and no other
      handle is ever stored. */
  lemma {:induction false} FirstSuccessWins(calls: seq<Call>)
    ensures ConnectRun(None, calls).slot == FirstSuccess(calls)
    // a call fails exactly when its dial and every dial before it failed,
    // and then with its own dial's error
    ensures forall i :: 0 <= i < |calls| ==>
      (ConnectRun(None, calls).results[i].Failure? <==>
         forall j :: 0 <= j <= i ==> calls[j].dial.DialFailed?)
    ensures forall i :: 0 <= i < |calls| && ConnectRun(None, calls).results[i].Failure? ==>
      ConnectRun(None, calls).results[i] == Failure(calls[i].dial.error)
    decreases |calls|
  {
    if |calls| > 0 {
      var r := ConnectRun(None, calls);
      var s := Connect(None, calls[0].verbose, calls[0].dial);
      if calls[0].dial.Dialled? {
        var h := calls[0].dial.handle;
        StoredHandleIsKept(h, calls[1..]);
        var rest := ConnectRun(Some(h), calls[1..]);
        assert r.results == [Success(h)] + rest.results;
        forall i | 0 <= i < |calls|
          ensures r.results[i] == Success(h)
        {
          if i > 0 { assert r.results[i] == rest.results[i - 1]; }
        }
      } else {
        FirstSuccessWins(calls[1..]);
        var rest := ConnectRun(None, calls[1..]);
        assert r.results == [Failure(calls[0].dial.error)] + rest.results;
        forall i | 1 <= i < |calls|
          ensures r.results[i] == rest.results[i - 1]
          ensures r.results[i].Failure? <==> forall j :: 0 <= j <= i ==> calls[j].dial.DialFailed?
        {
          assert r.results[i] == rest.results[i - 1];
          assert (forall j :: 0 <= j <= i - 1 ==> calls[1..][j].dial.DialFailed?)
             <==> (forall j :: 1 <= j <= i ==> calls[j].dial.DialFailed?) by {
            forall j | 1 <= j <= i ensures calls[1..][j - 1] == calls[j] { }
          }
        }
      }
    }
  }

  /** A failed dial leaves the gateway retryable: a following call whose dial
      succeeds connects with that dial's handle. */
  lemma RetryAfterFailure(v1: bool, e: DriverError, v2: bool, h: Handle)
    ensures var first := Connect(None, v1, DialFailed(e));
            var second := Connect(first.slot, v2, Dialled(h));
            first.result == Failure(e) && second.result == Success(h) && second.slot == Some(h)
  {
  }
}
