/** SPCBarcodeScanner.go: the older program. The same pipeline without identifier
    cleaning and without a keyboard source, whose device sources give up at the
    first failure instead of searching again. */
module BarcodeScanner {
  import opened Bytes
  import opened Payloads
  import opened FailureStore
  import opened Deliveries
  import opened Devices

  /** `Config`, as read from config.json. */
  datatype Config = Config(apiEndpoint: Line, numberOfScanners: int)

  // ===========================================================================
  // Delivery: postPayload and logFailure
  // ===========================================================================

  /** What `postPayload(config, payload)` does, with the failure branch taken on a
      transport error too (see `PostPayloadAsWritten` for the code as written).
      Nothing is cleaned: the payload logged on failure is the one that was posted. */
  function Deliver(cfg: Config, p: Payload, o: Inputs): (d: Delivery)
    ensures d.request.Some? <==> o.marshal.MarshalOk?
    ensures d.request.Some? ==> d.request.value == Request(cfg.apiEndpoint, JsonContentType, Json(p))
    ensures d.logged.None? <==> o.marshal.MarshalOk? && Delivered(o.post)
    ensures d.logged.Some? ==> d.logged.value == p
    ensures d.entries == (if d.logged.Some? then Entries(p, o.store) else [])
  {
    if o.marshal.MarshalError? then
      Delivery(None, Some(p), Entries(p, o.store))
    else
      var request := Request(cfg.apiEndpoint, JsonContentType, Json(p));
      if o.post.TransportError? || o.post.status != StatusOK then
        Delivery(Some(request), Some(p), Entries(p, o.store))
      else
        Delivery(Some(request), None, [])
  }

  /** A delivered payload leaves the failure log alone; any other outcome hands the
      payload to `logFailure` once, which adds one line exactly when its own writing succeeds. */
  lemma DeliverRouting(cfg: Config, p: Payload, o: Inputs)
    ensures var d := Deliver(cfg, p, o);
            |d.entries| == (if (o.marshal.MarshalOk? && Delivered(o.post)) || o.store != Written then 0 else 1)
    ensures var d := Deliver(cfg, p, o);
            d.entries != [] ==> d.entries == [Json(p)]
  {
  }

  /** When a POST fails, the failure log records the very line that was sent as the body,
      and for a plain payload that line reads back as the payload. */
  lemma LoggedLineIsBody(cfg: Config, p: Payload, o: Inputs)
    requires o.marshal.MarshalOk? && !Delivered(o.post) && o.store == Written
    ensures var d := Deliver(cfg, p, o);
            d.request.Some? && d.entries == [d.request.value.body]
    ensures PlainPayload(p) ==> ParseJson(Deliver(cfg, p, o).entries[0]) == Some(p)
  {
    if PlainPayload(p) {
      ParseJsonOfJson(p);
    }
  }

  /** `postPayload` exactly as written: on a transport error the log statement reads
      `resp.StatusCode` of the nil response `http.Post` returns with the error, and the
      goroutine panics before `logFailure` is reached. */
  function PostPayloadAsWritten(cfg: Config, p: Payload, o: Inputs): (a: Attempt)
    ensures a.Panicked? <==> o.marshal.MarshalOk? && o.post.TransportError?
    ensures a.Completed? ==> a.delivery == Deliver(cfg, p, o)
  {
    if o.marshal.MarshalError? then
      Completed(Delivery(None, Some(p), Entries(p, o.store)))
    else
      var request := Request(cfg.apiEndpoint, JsonContentType, Json(p));
      if o.post.TransportError? then
        Panicked
      else if o.post.status != StatusOK then
        Completed(Delivery(Some(request), Some(p), Entries(p, o.store)))
      else
        Completed(Delivery(Some(request), None, []))
  }

  /** An input on which the code as written loses the failure entry that was intended. */
  lemma TransportErrorPanics(cfg: Config)
    ensures var p := Payload("ABC123", "scanner0");
            var o := Inputs(MarshalOk, TransportError, Written);
            PostPayloadAsWritten(cfg, p, o) == Panicked && Deliver(cfg, p, o).entries == [Json(p)]
  {
  }

  /** `logFailure(payload)`: append the payload's JSON line to failures.log; an error
      opening the file, marshalling or writing is logged and swallowed. */
  method LogFailure(file: FailureFile, payload: Payload, outcome: StoreOutcome)
    modifies file
    ensures file.lines == old(file.lines) + Entries(payload, outcome)
    ensures file.Contents() == old(file.Contents()) + (if outcome == Written then Json(payload) + Newline else [])
  {
    if outcome == OpenFailed {
      return;
    }
    var data := Json(payload);
    if outcome == MarshalFailed {
      return;
    }
    if outcome == WriteFailed {
      return;
    }
    file.Append(data);
  }

  /** `postPayload(config, payload)`: marshal, then either log the failure or POST the
      body and log a failure unless the response is 200. Returns the request sent, if any. */
  method PostPayload(cfg: Config, file: FailureFile, payload: Payload, o: Inputs) returns (request: Option<Request>)
    modifies file
    ensures request == Deliver(cfg, payload, o).request
    ensures file.lines == old(file.lines) + Deliver(cfg, payload, o).entries
  {
    var jsonData := Json(payload);
    if o.marshal.MarshalError? {
      LogFailure(file, payload, o.store);
      return None;
    }
    request := Some(Request(cfg.apiEndpoint, JsonContentType, jsonData));
    if o.post.TransportError? || o.post.status != StatusOK {
      LogFailure(file, payload, o.store);
      return;
    }
  }

  /** The failure-log lines of a sequence of deliveries, in order. */
  function DispatchEntries(cfg: Config, received: seq<(Payload, Inputs)>): seq<Line>
  {
    if received == [] then []
    else
      var last := received[|received| - 1];
      DispatchEntries(cfg, received[..|received| - 1]) + Deliver(cfg, last.0, last.1).entries
  }

  /** The requests a sequence of deliveries sends, one entry per delivery, in order. */
  function DispatchRequests(cfg: Config, received: seq<(Payload, Inputs)>): seq<Option<Request>>
  {
    if received == [] then []
    else
      var last := received[|received| - 1];
      DispatchRequests(cfg, received[..|received| - 1]) + [Deliver(cfg, last.0, last.1).request]
  }

  /** Delivery `i` of a sequence sends what `Deliver` says for payload `i`. */
  lemma {:induction false} DispatchRequestsAt(cfg: Config, received: seq<(Payload, Inputs)>)
    ensures |DispatchRequests(cfg, received)| == |received|
    ensures forall i :: 0 <= i < |received| ==>
              DispatchRequests(cfg, received)[i] == Deliver(cfg, received[i].0, received[i].1).request
  {
    if received != [] {
      var front := received[..|received| - 1];
      DispatchRequestsAt(cfg, front);
      assert forall i :: 0 <= i < |front| ==> front[i] == received[i];
    }
  }

  /** One more delivery adds its own lines after those of the deliveries before it. */
  lemma DispatchNext(cfg: Config, received: seq<(Payload, Inputs)>, i: nat)
    requires i < |received|
    ensures DispatchEntries(cfg, received[..i + 1]) ==
            DispatchEntries(cfg, received[..i]) + Deliver(cfg, received[i].0, received[i].1).entries
    ensures DispatchRequests(cfg, received[..i + 1]) ==
            DispatchRequests(cfg, received[..i]) + [Deliver(cfg, received[i].0, received[i].1).request]
  {
    assert received[..i + 1][..i] == received[..i];
  }

  /** Every received payload adds at most one line, and payloads that were delivered add none. */
  lemma {:induction false} DispatchEntriesBound(cfg: Config, received: seq<(Payload, Inputs)>)
    ensures |DispatchEntries(cfg, received)| <= |received|
    ensures (forall i :: 0 <= i < |received| ==>
               received[i].1.marshal == MarshalOk && Delivered(received[i].1.post)) ==>
            DispatchEntries(cfg, received) == []
  {
    if received != [] {
      var last := received[|received| - 1];
      DeliverRouting(cfg, last.0, last.1);
      DispatchEntriesBound(cfg, received[..|received| - 1]);
    }
  }

  /** The loop `for payload := range payloadCh { go postPayload(config, payload) }` of
      `runService`, run one delivery after the other: every payload received gets one call
      of this program's `postPayload`, which logs it uncleaned. */
  method Dispatch(cfg: Config, file: FailureFile, received: seq<(Payload, Inputs)>)
    returns (requests: seq<Option<Request>>)
    modifies file
    ensures requests == DispatchRequests(cfg, received)
    ensures file.lines == old(file.lines) + DispatchEntries(cfg, received)
  {
    requests := [];
    var i := 0;
    while i < |received|
      invariant 0 <= i <= |received|
      invariant requests == DispatchRequests(cfg, received[..i])
      invariant file.lines == old(file.lines) + DispatchEntries(cfg, received[..i])
    {
      var request := PostPayload(cfg, file, received[i].0, received[i].1);
      DispatchNext(cfg, received, i);
      requests := requests + [request];
      i := i + 1;
    }
    assert received[..i] == received;
  }

  // ===========================================================================
  // Device source: the one-shot scanDevice
  // ===========================================================================

  /** The position of the first read error in `results`, or `|results|` when there is none. */
  function FirstReadError(results: seq<ReadResult>): (k: nat)
    ensures k <= |results|
    ensures forall i :: 0 <= i < k ==> results[i].Report?
    ensures k < |results| ==> results[k].ReadErr?
  {
    if results == [] || results[0].ReadErr? then 0 else 1 + FirstReadError(results[1..])
  }

  /** A successful read `i` before the first error: the loop goes on past it, and the
      events of the first `i + 1` reads are those of the first `i`, then the payload of
      read `i` if it delivered any bytes. */
  lemma EmitsNextRead(id: nat, results: seq<ReadResult>, i: nat)
    requires i < |results| && i <= FirstReadError(results) && results[i].Report?
    ensures i + 1 <= FirstReadError(results)
    ensures var n := ReadLength(results[i].data);
            Emits(ReadPayloads(id, results[..i + 1])) ==
            Emits(ReadPayloads(id, results[..i])) +
            (if n > 0 then [Emit(Payload(results[i].data[..n], ScannerTag(id)))] else [])
  {
    assert results[..i + 1] == results[..i] + [results[i]];
    ReadPayloadsSnoc(id, results[..i], results[i]);
    EmitsAppend(ReadPayloads(id, results[..i]), ReadPayload(id, results[i]));
  }

  /** `scanDevice(deviceID, payloadCh)`, given the device count of its one enumeration,
      the result of its one `Open` and the results of its reads: it gives up at once,
      sending nothing, when the index is out of range or the open fails; otherwise it
      sends one payload per non-empty read until the first read error, on which it
      returns and its deferred `device.Close()` runs. */
  method ScanDevice(deviceID: nat, deviceCount: nat, openResult: OpenResult, results: seq<ReadResult>)
    returns (events: seq<Event>)
    ensures deviceID >= deviceCount || openResult == OpenErr ==> events == []
    ensures deviceID < deviceCount && openResult == OpenOk ==>
              var k := FirstReadError(results);
              events == Emits(ReadPayloads(deviceID, results[..k])) + (if k < |results| then [Close] else [])
  {
    if deviceID >= deviceCount {
      return [];
    }
    if openResult == OpenErr {
      return [];
    }
    var buf := new Byte[BufferSize];
    events := [];
    var i := 0;
    while i < |results|
      invariant 0 <= i <= |results|
      invariant buf.Length == BufferSize
      invariant i <= FirstReadError(results)
      invariant events == Emits(ReadPayloads(deviceID, results[..i]))
    {
      var n, ok := DeviceRead(buf, results[i]);
      if !ok {
        assert FirstReadError(results) == i;
        events := events + [Close];
        return;
      }
      EmitsNextRead(deviceID, results, i);
      if n > 0 {
        events := events + [Emit(Payload(buf[..n], ScannerTag(deviceID)))];
      }
      i := i + 1;
    }
    assert FirstReadError(results) == i && results[..i] == results;
  }

  /** `startScanning(config, payloadCh)`: device sources for the ids 0 up to
      `NumberOfScanners` - 1, in that order (none when it is 0 or less), and never a
      keyboard source. */
  method StartScanning(cfg: Config) returns (started: seq<Source>)
    ensures |started| == if cfg.numberOfScanners > 0 then cfg.numberOfScanners else 0
    ensures forall i :: 0 <= i < |started| ==> started[i] == DeviceSource(i)
    ensures KeyboardSource !in started
  {
    started := [];
    var i := 0;
    while i < cfg.numberOfScanners
      invariant i == 0 || 0 < i <= cfg.numberOfScanners
      invariant |started| == i
      invariant forall k :: 0 <= k < i ==> started[k] == DeviceSource(k)
    {
      started := started + [DeviceSource(i)];
      i := i + 1;
    }
  }
}
