/** SPCBarcodeService.go: the current program. Device sources that reconnect after
    every failure, an optional keyboard source, identifier cleaning, delivery by POST
    and the failure log. */
module BarcodeService {
  import opened Bytes
  import opened Payloads
  import opened FailureStore
  import opened Deliveries
  import opened Devices

  /** `Config`, as read from config.json. */
  datatype Config = Config(apiEndpoint: Line, numberOfScanners: int, rescanInterval: int, keyboard: bool)

  // ===========================================================================
  // Identifier cleaning
  // ===========================================================================

  const IdMarker: Line := "id="

  /** `payload.CleanItemId()`: when the identifier contains "id=", keep only what follows
      its first occurrence; otherwise leave the payload alone. The device type is never
      touched. (The method updates its receiver; here it returns the updated value.) */
  function CleanItemId(p: Payload): (q: Payload)
    ensures q.deviceType == p.deviceType
    ensures (forall j :: !OccursAt(p.itemId, IdMarker, j)) ==> q == p
    ensures forall i :: FirstAt(p.itemId, IdMarker, i) ==>
              q.itemId == p.itemId[i + |IdMarker|..] && |q.itemId| == |p.itemId| - i - |IdMarker|
  {
    var idIndex := IndexOf(p.itemId, IdMarker);
    if idIndex != -1 then
      FirstOccurrence(p.itemId, IdMarker, idIndex);
      p.(itemId := p.itemId[idIndex + |IdMarker|..])
    else p
  }

  /** Whenever "id=" occurs, cleaning strictly shortens the identifier to a suffix of it. */
  lemma CleaningShortens(p: Payload, i: int)
    requires OccursAt(p.itemId, IdMarker, i)
    ensures |CleanItemId(p).itemId| < |p.itemId|
    ensures CleanItemId(p).itemId == p.itemId[|p.itemId| - |CleanItemId(p).itemId|..]
  {
    FirstOccurrence(p.itemId, IdMarker, i);
  }

  /** The first unit-test case: the identifier after "id=" is kept. */
  lemma CleanItemIdKeepsSuffix()
    ensures CleanItemId(Payload("someprefixid=12345", "scanner")) == Payload("12345", "scanner")
  {
    var s: Line := "someprefixid=12345";
    forall j | 0 <= j < 10
      ensures !OccursAt(s, IdMarker, j)
    {
      assert s[j..j + 3][0] == s[j] && s[j..j + 3][1] == s[j + 1];
    }
    assert OccursAt(s, IdMarker, 10);
    assert s[13..] == "12345";
  }

  /** The second unit-test case: an identifier without "id=" is left as it is. */
  lemma CleanItemIdWithoutMarker()
    ensures CleanItemId(Payload("someprefix", "scanner")) == Payload("someprefix", "scanner")
  {
    var t: Line := "someprefix";
    forall j
      ensures !OccursAt(t, IdMarker, j)
    {
      if 0 <= j && j + 3 <= |t| {
        assert t[j..j + 3][0] == t[j];
      }
    }
  }

  /** Cleaning is not idempotent: "id=id=5" is cleaned to "id=5", and that again to "5". */
  lemma CleanItemIdNotIdempotent()
    ensures var once := CleanItemId(Payload("id=id=5", "scanner"));
            once.itemId == "id=5" && CleanItemId(once).itemId == "5"
  {
    var u: Line := "id=id=5";
    assert FirstAt(u, IdMarker, 0);
    var v: Line := "id=5";
    assert u[3..] == v;
    assert FirstAt(v, IdMarker, 0);
    assert v[3..] == "5";
  }

  // ===========================================================================
  // Delivery: postPayload and logFailure
  // ===========================================================================

  /** What `postPayload(config, payload)` does, with the failure branch taken on a
      transport error too (see `PostPayloadAsWritten` for the code as written).
      The request body is the payload as received; the payload logged on failure
      is the cleaned one. */
  function Deliver(cfg: Config, p: Payload, o: Inputs): (d: Delivery)
    ensures d.request.Some? <==> o.marshal.MarshalOk?
    ensures d.request.Some? ==> d.request.value == Request(cfg.apiEndpoint, JsonContentType, Json(p))
    ensures d.logged.None? <==> o.marshal.MarshalOk? && Delivered(o.post)
    ensures d.logged.Some? ==> d.logged.value == CleanItemId(p)
    ensures d.entries == (if d.logged.Some? then Entries(d.logged.value, o.store) else [])
  {
    var cleaned := CleanItemId(p);
    if o.marshal.MarshalError? then
      Delivery(None, Some(cleaned), Entries(cleaned, o.store))
    else
      var request := Request(cfg.apiEndpoint, JsonContentType, Json(p));
      if o.post.TransportError? || o.post.status != StatusOK then
        Delivery(Some(request), Some(cleaned), Entries(cleaned, o.store))
      else
        Delivery(Some(request), None, [])
  }

  /** A delivered payload leaves the failure log alone; any other outcome hands the
      payload to `logFailure` once, which adds one line exactly when its own writing succeeds. */
  lemma DeliverRouting(cfg: Config, p: Payload, o: Inputs)
    ensures var d := Deliver(cfg, p, o);
            |d.entries| == (if (o.marshal.MarshalOk? && Delivered(o.post)) || o.store != Written then 0 else 1)
    ensures var d := Deliver(cfg, p, o);
            d.entries != [] ==> d.entries == [Json(CleanItemId(p))]
  {
  }

  /** The ordering quirk: when a POST fails for a payload whose identifier contains "id=",
      the failure log records a different line from the body that was sent. The body
      reads back as the payload received, the logged line as the cleaned one. */
  lemma LoggedLineDiffersFromBody(cfg: Config, p: Payload, o: Inputs, i: int)
    requires o.marshal.MarshalOk? && !Delivered(o.post) && o.store == Written
    requires OccursAt(p.itemId, IdMarker, i)
    ensures var d := Deliver(cfg, p, o);
            d.request.Some? && |d.entries| == 1 && d.entries[0] != d.request.value.body
    ensures var d := Deliver(cfg, p, o);
            PlainPayload(p) ==> ParseJson(d.request.value.body) == Some(p) &&
                                ParseJson(d.entries[0]) == Some(CleanItemId(p))
  {
    var d := Deliver(cfg, p, o);
    CleaningShortens(p, i);
    assert |d.entries[0]| < |d.request.value.body|;
    if PlainPayload(p) {
      ParseJsonOfJson(p);
      var q := CleanItemId(p);
      assert Plain(q.itemId) by {
        forall k | 0 <= k < |q.itemId|
          ensures PlainByte(q.itemId[k])
        {
          assert q.itemId[k] == p.itemId[|p.itemId| - |q.itemId| + k];
        }
      }
      ParseJsonOfJson(q);
    }
  }

  /** `postPayload` exactly as written: on a transport error the log statement reads
      `resp.StatusCode` of the nil response `http.Post` returns with the error, and the
      goroutine panics before `logFailure` is reached. */
  function PostPayloadAsWritten(cfg: Config, p: Payload, o: Inputs): (a: Attempt)
    ensures a.Panicked? <==> o.marshal.MarshalOk? && o.post.TransportError?
    ensures a.Completed? ==> a.delivery == Deliver(cfg, p, o)
  {
    var cleaned := CleanItemId(p);
    if o.marshal.MarshalError? then
      Completed(Delivery(None, Some(cleaned), Entries(cleaned, o.store)))
    else
      var request := Request(cfg.apiEndpoint, JsonContentType, Json(p));
      if o.post.TransportError? then
        Panicked
      else if o.post.status != StatusOK then
        Completed(Delivery(Some(request), Some(cleaned), Entries(cleaned, o.store)))
      else
        Completed(Delivery(Some(request), None, []))
  }

  /** An input on which the code as written loses the failure entry that was intended:
      the record of a scan whose POST hit a transport error never reaches the log. */
  lemma TransportErrorPanics(cfg: Config)
    ensures var p := Payload("ABC123", "scanner0");
            var o := Inputs(MarshalOk, TransportError, Written);
            PostPayloadAsWritten(cfg, p, o) == Panicked && Deliver(cfg, p, o).entries == [Json(p)]
  {
    var s: Line := "ABC123";
    forall j
      ensures !OccursAt(s, IdMarker, j)
    {
      if 0 <= j && j + 3 <= |s| {
        assert s[j..j + 3][0] == s[j];
      }
    }
  }

  /** `logFailure(payload)`: append the payload's JSON line to failures.log; an error
      opening the file, marshalling or writing is logged and swallowed. */
  method LogFailure(file: FailureFile, payload: Payload, outcome: StoreOutcome)
    modifies file
    ensures file.lines == old(file.lines) + Entries(payload, outcome)
    ensures file.Contents() == old(file.Contents()) + (if outcome == Written then Json(payload) + Newline else [])
  {
    if outcome == OpenFailed {
      return;
    }
    var data := Json(payload);
    if outcome == MarshalFailed {
      return;
    }
    if outcome == WriteFailed {
      return;
    }
    file.Append(data);
  }

  /** `postPayload(config, payload)`: marshal the payload as received, clean the local
      copy, then either log the failure or POST the marshalled body and log a failure
      unless the response is 200. Returns the request sent, if any. */
  method PostPayload(cfg: Config, file: FailureFile, payload: Payload, o: Inputs) returns (request: Option<Request>)
    modifies file
    ensures request == Deliver(cfg, payload, o).request
    ensures file.lines == old(file.lines) + Deliver(cfg, payload, o).entries
  {
    var p := payload;
    var jsonData := Json(p);
    p := CleanItemId(p);
    if o.marshal.MarshalError? {
      LogFailure(file, p, o.store);
      return None;
    }
    request := Some(Request(cfg.apiEndpoint, JsonContentType, jsonData));
    if o.post.TransportError? || o.post.status != StatusOK {
      LogFailure(file, p, o.store);
      return;
    }
  }

  /** The failure-log lines of a sequence of deliveries, in order. */
  function DispatchEntries(cfg: Config, received: seq<(Payload, Inputs)>): seq<Line>
  {
    if received == [] then []
    else
      var last := received[|received| - 1];
      DispatchEntries(cfg, received[..|received| - 1]) + Deliver(cfg, last.0, last.1).entries
  }

  /** The requests a sequence of deliveries sends, one entry per delivery, in order. */
  function DispatchRequests(cfg: Config, received: seq<(Payload, Inputs)>): seq<Option<Request>>
  {
    if received == [] then []
    else
      var last := received[|received| - 1];
      DispatchRequests(cfg, received[..|received| - 1]) + [Deliver(cfg, last.0, last.1).request]
  }

  /** Delivery `i` of a sequence sends what `Deliver` says for payload `i`. */
  lemma {:induction false} DispatchRequestsAt(cfg: Config, received: seq<(Payload, Inputs)>)
    ensures |DispatchRequests(cfg, received)| == |received|
    ensures forall i :: 0 <= i < |received| ==>
              DispatchRequests(cfg, received)[i] == Deliver(cfg, received[i].0, received[i].1).request
  {
    if received != [] {
      var front := received[..|received| - 1];
      DispatchRequestsAt(cfg, front);
      assert forall i :: 0 <= i < |front| ==> front[i] == received[i];
    }
  }

  /** One more delivery adds its own lines after those of the deliveries before it. */
  lemma DispatchNext(cfg: Config, received: seq<(Payload, Inputs)>, i: nat)
    requires i < |received|
    ensures DispatchEntries(cfg, received[..i + 1]) ==
            DispatchEntries(cfg, received[..i]) + Deliver(cfg, received[i].0, received[i].1).entries
    ensures DispatchRequests(cfg, received[..i + 1]) ==
            DispatchRequests(cfg, received[..i]) + [Deliver(cfg, received[i].0, received[i].1).request]
  {
    assert received[..i + 1][..i] == received[..i];
  }

  /** Every received payload adds at most one line, and payloads that were delivered add none. */
  lemma {:induction false} DispatchEntriesBound(cfg: Config, received: seq<(Payload, Inputs)>)
    ensures |DispatchEntries(cfg, received)| <= |received|
    ensures (forall i :: 0 <= i < |received| ==>
               received[i].1.marshal == MarshalOk && Delivered(received[i].1.post)) ==>
            DispatchEntries(cfg, received) == []
  {
    if received != [] {
      var last := received[|received| - 1];
      DeliverRouting(cfg, last.0, last.1);
      DispatchEntriesBound(cfg, received[..|received| - 1]);
    }
  }

  /** The loop `for payload := range payloadCh { go postPayload(config, payload) }`,
      run one delivery after the other: every payload received gets one `postPayload` call. */
  method Dispatch(cfg: Config, file: FailureFile, received: seq<(Payload, Inputs)>)
    returns (requests: seq<Option<Request>>)
    modifies file
    ensures requests == DispatchRequests(cfg, received)
    ensures file.lines == old(file.lines) + DispatchEntries(cfg, received)
  {
    requests := [];
    var i := 0;
    while i < |received|
      invariant 0 <= i <= |received|
      invariant requests == DispatchRequests(cfg, received[..i])
      invariant file.lines == old(file.lines) + DispatchEntries(cfg, received[..i])
    {
      var request := PostPayload(cfg, file, received[i].0, received[i].1);
      DispatchNext(cfg, received, i);
      requests := requests + [request];
      i := i + 1;
    }
    assert received[..i] == received;
  }

  // ===========================================================================
  // Device source: scanDevice
  // ===========================================================================

  /** What the environment answers, in order, to the calls one device source makes:
      the device count of each `hid.Enumerate`, the result of each `Open`, and the
      result of each `Read`. A finite trace stands for a prefix of an infinite run. */
  datatype Env = Env(enumerations: seq<nat>, opens: seq<OpenResult>, results: seq<ReadResult>)

  /** A run of a source until its trace runs out: the events it produced and the
      answers it did not get to. */
  datatype Run = Run(events: seq<Event>, rest: Env)

  function Size(e: Env): nat
  {
    |e.enumerations| + |e.opens| + |e.results|
  }

  function Prepend(ev: Event, r: Run): Run
  {
    Run([ev] + r.events, r.rest)
  }

  /** The device source searching: enumerate; if `deviceID` is out of range sleep and search
      again; otherwise open the device, sleeping and searching again on an error and
      reading from it on success. */
  function Searching(id: nat, interval: int, e: Env): Run
    decreases Size(e)
  {
    if e.enumerations == [] then Run([], e)
    else if id >= e.enumerations[0] then
      Prepend(Sleep(interval), Searching(id, interval, e.(enumerations := e.enumerations[1..])))
    else if e.opens == [] then Run([], e)
    else
      var e' := e.(enumerations := e.enumerations[1..], opens := e.opens[1..]);
      if e.opens[0] == OpenErr then Prepend(Sleep(interval), Searching(id, interval, e'))
      else Reading(id, interval, e')
  }

  /** The device source reading: a read error goes back to searching at once; a read
      of n > 0 bytes sends a payload of those bytes; an empty read only reads again. */
  function Reading(id: nat, interval: int, e: Env): Run
    decreases Size(e)
  {
    if e.results == [] then Run([], e)
    else
      var e' := e.(results := e.results[1..]);
      match e.results[0]
      case ReadErr => Searching(id, interval, e')
      case Report(data) =>
        var n := ReadLength(data);
        if n > 0 then Prepend(Emit(Payload(data[..n], ScannerTag(id))), Reading(id, interval, e'))
        else Reading(id, interval, e')
  }

  /** `b` ends with `a`. */
  predicate IsSuffix<T(==)>(a: seq<T>, b: seq<T>)
  {
    |a| <= |b| && a == b[|b| - |a|..]
  }

  /** Only the trace running out ends a run: the source itself never returns. What it
      has not consumed is the tail of each of its inputs. */
  lemma {:induction false} SearchingNeverReturns(id: nat, interval: int, e: Env)
    ensures var r := Searching(id, interval, e);
            IsSuffix(r.rest.enumerations, e.enumerations) && IsSuffix(r.rest.opens, e.opens) &&
            IsSuffix(r.rest.results, e.results)
    ensures var r := Searching(id, interval, e);
            r.rest.enumerations == [] || r.rest.opens == [] || r.rest.results == []
    decreases Size(e), 1
  {
    if e.enumerations != [] {
      if id >= e.enumerations[0] {
        SearchingNeverReturns(id, interval, e.(enumerations := e.enumerations[1..]));
      } else if e.opens != [] {
        var e' := e.(enumerations := e.enumerations[1..], opens := e.opens[1..]);
        if e.opens[0] == OpenErr {
          SearchingNeverReturns(id, interval, e');
        } else {
          ReadingNeverReturns(id, interval, e');
        }
      }
    }
  }

  lemma {:induction false} ReadingNeverReturns(id: nat, interval: int, e: Env)
    ensures var r := Reading(id, interval, e);
            IsSuffix(r.rest.enumerations, e.enumerations) && IsSuffix(r.rest.opens, e.opens) &&
            IsSuffix(r.rest.results, e.results)
    ensures var r := Reading(id, interval, e);
            r.rest.enumerations == [] || r.rest.opens == [] || r.rest.results == []
    decreases Size(e), 0
  {
    if e.results != [] {
      var e' := e.(results := e.results[1..]);
      if e.results[0].ReadErr? {
        SearchingNeverReturns(id, interval, e');
      } else {
        ReadingNeverReturns(id, interval, e');
      }
    }
  }

  /** Number of successful opens among `opens`. */
  function OpenedCount(opens: seq<OpenResult>): nat
  {
    if opens == [] then 0 else (if opens[0] == OpenOk then 1 else 0) + OpenedCount(opens[1..])
  }

  /** Payloads are sent in read order, one per read of n > 0 bytes, holding those bytes:
      exactly the payloads of the reads the run consumed. */
  lemma {:induction false} SearchingPayloads(id: nat, interval: int, e: Env)
    ensures var r := Searching(id, interval, e);
            |r.rest.results| <= |e.results| &&
            PayloadsOf(r.events) == ReadPayloads(id, e.results[..|e.results| - |r.rest.results|])
    decreases Size(e), 1
  {
    if e.enumerations != [] {
      if id >= e.enumerations[0] {
        SearchingPayloads(id, interval, e.(enumerations := e.enumerations[1..]));
      } else if e.opens != [] {
        var e' := e.(enumerations := e.enumerations[1..], opens := e.opens[1..]);
        if e.opens[0] == OpenErr {
          SearchingPayloads(id, interval, e');
        } else {
          ReadingPayloads(id, interval, e');
        }
      }
    }
  }

  lemma {:induction false} ReadingPayloads(id: nat, interval: int, e: Env)
    ensures var r := Reading(id, interval, e);
            |r.rest.results| <= |e.results| &&
            PayloadsOf(r.events) == ReadPayloads(id, e.results[..|e.results| - |r.rest.results|])
    decreases Size(e), 0
  {
    if e.results == [] {
      assert e.results[..0] == [];
    } else {
      var e' := e.(results := e.results[1..]);
      var r := Reading(id, interval, e);
      var r': Run;
      match e.results[0] {
        case ReadErr =>
          SearchingPayloads(id, interval, e');
          r' := Searching(id, interval, e');
          assert r == r' && ReadPayload(id, e.results[0]) == [];
        case Report(data) =>
          ReadingPayloads(id, interval, e');
          r' := Reading(id, interval, e');
          var n := ReadLength(data);
          if n > 0 {
            var p := Payload(data[..n], ScannerTag(id));
            assert r == Prepend(Emit(p), r') && ReadPayload(id, e.results[0]) == [p];
            EventsCons(Emit(p), r'.events);
          } else {
            assert r == r' && ReadPayload(id, e.results[0]) == [];
          }
      }
      assert r.rest == r'.rest && PayloadsOf(r.events) == ReadPayload(id, e.results[0]) + PayloadsOf(r'.events);
      var k := |e.results| - |r.rest.results|;
      ReadPayloadsPrefix(id, e.results, k);
      assert e.results[1..][..k - 1] == e'.results[..|e'.results| - |r'.rest.results|];
    }
  }

  /** A source sleeps `rescanInterval` seconds once per enumeration that missed the device
      and once per failed open, and at no other time: a read error goes back to
      enumeration without sleeping. It never closes a device. */
  lemma {:induction false} SearchingSleeps(id: nat, interval: int, e: Env)
    ensures var r := Searching(id, interval, e);
            |r.rest.enumerations| <= |e.enumerations| && |r.rest.opens| <= |e.opens| &&
            SleepCount(r.events) + OpenedCount(e.opens[..|e.opens| - |r.rest.opens|]) ==
              |e.enumerations| - |r.rest.enumerations|
    ensures var r := Searching(id, interval, e);
            (forall k :: 0 <= k < |r.events| && r.events[k].Sleep? ==> r.events[k].seconds == interval) &&
            Close !in r.events
    decreases Size(e), 1
  {
    if e.enumerations != [] {
      if id >= e.enumerations[0] {
        SearchingSleeps(id, interval, e.(enumerations := e.enumerations[1..]));
      } else if e.opens != [] {
        var e' := e.(enumerations := e.enumerations[1..], opens := e.opens[1..]);
        var r' := if e.opens[0] == OpenErr then Searching(id, interval, e') else Reading(id, interval, e');
        if e.opens[0] == OpenErr {
          SearchingSleeps(id, interval, e');
        } else {
          ReadingSleeps(id, interval, e');
        }
        var k := |e.opens| - |r'.rest.opens|;
        assert e.opens[..k] == [e.opens[0]] + e'.opens[..k - 1];
      }
    } else {
      assert e.opens[..|e.opens| - |e.opens|] == [];
    }
  }

  lemma {:induction false} ReadingSleeps(id: nat, interval: int, e: Env)
    ensures var r := Reading(id, interval, e);
            |r.rest.enumerations| <= |e.enumerations| && |r.rest.opens| <= |e.opens| &&
            SleepCount(r.events) + OpenedCount(e.opens[..|e.opens| - |r.rest.opens|]) ==
              |e.enumerations| - |r.rest.enumerations|
    ensures var r := Reading(id, interval, e);
            (forall k :: 0 <= k < |r.events| && r.events[k].Sleep? ==> r.events[k].seconds == interval) &&
            Close !in r.events
    decreases Size(e), 0
  {
    if e.results != [] {
      var e' := e.(results := e.results[1..]);
      if e.results[0].ReadErr? {
        SearchingSleeps(id, interval, e');
      } else {
        ReadingSleeps(id, interval, e');
      }
    } else {
      assert e.opens[..|e.opens| - |e.opens|] == [];
    }
  }

  /** A source whose device index is never in range sends nothing and sleeps
      `rescanInterval` seconds after every enumeration, for as long as it runs. */
  lemma {:induction false} NeverAvailable(id: nat, interval: int, e: Env)
    requires forall k :: 0 <= k < |e.enumerations| ==> e.enumerations[k] <= id
    ensures Searching(id, interval, e) ==
            Run(seq(|e.enumerations|, _ => Sleep(interval)), e.(enumerations := []))
    decreases |e.enumerations|
  {
    if e.enumerations != [] {
      var e' := e.(enumerations := e.enumerations[1..]);
      NeverAvailable(id, interval, e');
      assert [Sleep(interval)] + seq(|e'.enumerations|, _ => Sleep(interval)) ==
             seq(|e.enumerations|, _ => Sleep(interval));
    }
  }

  /** Device 0 is present, opens, delivers "ABC123" and then fails: the source sends one
      payload tagged "scanner0" and goes back to searching, where its trace ends. */
  lemma OneScanThenError()
    ensures Searching(0, 1, Env([1], [OpenOk], [Report("ABC123"), ReadErr])) ==
            Run([Emit(Payload("ABC123", "scanner0"))], Env([], [], []))
  {
    var data: Line := "ABC123";
    var e2 := Env([], [], [ReadErr]);
    var e1 := Env([], [], [Report(data), ReadErr]);
    assert Reading(0, 1, e2) == Run([], Env([], [], []));
    assert ReadLength(data) == 6 && data[..6] == data;
    assert ScannerTag(0) == "scanner0";
    assert Reading(0, 1, e1) == Prepend(Emit(Payload(data, "scanner0")), Reading(0, 1, e2));
  }

  /** `scanDevice(config, deviceID, payloadCh)` until its trace runs out: the outer loop
      enumerates and opens, sleeping after each failure; the inner loop reads into a
      256-byte buffer and sends a payload for every non-empty read, leaving on a read error. */
  method ScanDevice(cfg: Config, deviceID: nat, env: Env) returns (events: seq<Event>, rest: Env)
    ensures Run(events, rest) == Searching(deviceID, cfg.rescanInterval, env)
  {
    var interval := cfg.rescanInterval;
    var e := env;
    events := [];
    while true
      invariant Run(events + Searching(deviceID, interval, e).events, Searching(deviceID, interval, e).rest)
                == Searching(deviceID, interval, env)
      decreases Size(e)
    {
      if e.enumerations == [] {
        return events, e;
      }
      var devices := e.enumerations[0];
      if deviceID >= devices {
        e := e.(enumerations := e.enumerations[1..]);
        events := events + [Sleep(interval)];
        continue;
      }
      if e.opens == [] {
        return events, e;
      }
      var openResult := e.opens[0];
      e := e.(enumerations := e.enumerations[1..], opens := e.opens[1..]);
      if openResult == OpenErr {
        events := events + [Sleep(interval)];
        continue;
      }
      ghost var e0 := e;
      var buf := new Byte[BufferSize];
      while true
        invariant buf.Length == BufferSize
        invariant Size(e) <= Size(e0)
        invariant Run(events + Reading(deviceID, interval, e).events, Reading(deviceID, interval, e).rest)
                  == Searching(deviceID, interval, env)
        decreases Size(e)
      {
        if e.results == [] {
          return events, e;
        }
        var result := e.results[0];
        e := e.(results := e.results[1..]);
        var n, ok := DeviceRead(buf, result);
        if !ok {
          break;
        }
        if n > 0 {
          events := events + [Emit(Payload(buf[..n], ScannerTag(deviceID)))];
        }
      }
    }
  }

  // ===========================================================================
  // Keyboard source and start-up
  // ===========================================================================

  /** How standard input ended, as far as the trace goes: end of file, a read error,
      or not at all. */
  datatype InputEnd = AtEof | InputError | StillOpen

  /** `readKeyboardInput(payloadCh)`: one payload per line, in order, with the line as
      it is (no cleaning) and the device type "keyboard"; a read error is fatal to the
      process, while end of file just ends the source. */
  method ReadKeyboardInput(lines: seq<Line>, end: InputEnd) returns (payloads: seq<Payload>, fatal: bool)
    ensures |payloads| == |lines|
    ensures forall i :: 0 <= i < |lines| ==> payloads[i] == Payload(lines[i], KeyboardTag)
    ensures fatal <==> end == InputError
  {
    payloads := [];
    var i := 0;
    while i < |lines|
      invariant 0 <= i <= |lines|
      invariant |payloads| == i
      invariant forall k :: 0 <= k < i ==> payloads[k] == Payload(lines[k], KeyboardTag)
    {
      payloads := payloads + [Payload(lines[i], KeyboardTag)];
      i := i + 1;
    }
    fatal := end == InputError;
  }

  /** `startScanning(config, payloadCh)`: device sources for the ids 0 up to
      `NumberOfScanners` - 1, in that order (none when it is 0 or less), then the
      keyboard source exactly when `Keyboard` is set. */
  method StartScanning(cfg: Config) returns (started: seq<Source>)
    ensures |started| == (if cfg.numberOfScanners > 0 then cfg.numberOfScanners else 0) + (if cfg.keyboard then 1 else 0)
    ensures forall i :: 0 <= i < cfg.numberOfScanners ==> started[i] == DeviceSource(i)
    ensures forall s :: s in started && s.DeviceSource? ==> s.id < cfg.numberOfScanners
    ensures KeyboardSource in started <==> cfg.keyboard
  {
    started := [];
    var i := 0;
    while i < cfg.numberOfScanners
      invariant i == 0 || 0 < i <= cfg.numberOfScanners
      invariant |started| == i
      invariant forall k :: 0 <= k < i ==> started[k] == DeviceSource(k)
    {
      started := started + [DeviceSource(i)];
      i := i + 1;
    }
    if cfg.keyboard {
      started := started + [KeyboardSource];
    }
  }
}
