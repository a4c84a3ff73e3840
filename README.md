# scanandpost in Dafny

A model of the barcode ingestion pipeline of *scanandpost*. The pipeline reads scans from HID
barcode scanners and, optionally, from the keyboard. It turns each scan into a `Payload`
`{itemid, deviceType}` and POSTs it as JSON to a configured endpoint. A payload whose delivery
fails is appended as one JSON line to `failures.log`.

The repository has two versions of the program, each a complete `package main`:

- `SPCBarcodeService.go`, the current one. Its device sources search for their device again
  after every failure. It adds a keyboard source and cleans identifiers of an `id=` prefix.
- `SPCBarcodeScanner.go`, the older one. It has no cleaning and no keyboard. Its device
  sources give up at the first failure.

The two files cannot be built together, so each is its own module: `BarcodeService` and
`BarcodeScanner`. They share these modules:

- `Bytes` (`bytes.dfy`): strings as byte sequences, the `strings.Index` search, and decimal
  rendering for `"scanner%d"`.
- `Payloads` (`payloads.dfy`): the `Payload` record, its JSON form, and a reader for that form.
- `FailureStore` (`failure_store.dfy`): the failure log as a class whose field is the file's
  sequence of lines.
- `Deliveries` (`deliveries.dfy`): the outcomes a delivery depends on, and what one delivery does.
- `Devices` (`devices.dfy`): open and read results of a device, the events a source produces,
  and the payloads a run of reads sends.

Foreign calls are inputs of the model: `hid.Enumerate`, `Open` and `Read`, `json.Marshal`,
`http.Post`, and `os.OpenFile`/`WriteString`.

- A device source is driven by a finite trace of what the environment answers: the device
  count of each enumeration, the result of each open, and the result of each read. It
  produces a sequence of events: payloads sent on the channel, `time.Sleep` calls and
  `device.Close` calls.
- The service's device loop never returns, so the model runs it until its trace is used up.
  Its lemmas speak about every such prefix of a run.
- A delivery is also driven by inputs: the marshal outcome, the POST outcome (transport error,
  or a status code) and the outcome of the failure-log write. It produces the request sent
  and the lines appended to the log.

Stateful parts are imperative:

- the failure log is a `FailureFile` object whose `lines` the `LogFailure` methods extend;
- `ScanDevice` has the source's nested loops and its reused 256-byte buffer;
- `StartScanning` and `ReadKeyboardInput` have counting loops.

Each method is proved against a specification function (`Searching`/`Reading`, `Deliver`,
`Entries`), or states its result outright. The lemmas prove what the program promises about
those functions.

## Model

| member | source | states |
|---|---|---|
| `Bytes.IndexOf` | SPCBarcodeService.go:36 | the result is -1 exactly when the pattern occurs nowhere; otherwise it is the first position where the pattern occurs |
| `Bytes.Decimal` | SPCBarcodeService.go:137 | `%d` of a device id is a non-empty string of decimal digits, without a leading zero unless the id is 0 |
| `Bytes.ParseDecimalOfDecimal` | SPCBarcodeService.go:137 | reading the decimal digits back gives the number again |
| `Bytes.DecimalInjective` | SPCBarcodeService.go:137 | two numbers have the same decimal rendering only when they are equal |
| `Payloads.Json` | SPCBarcodeService.go:29-32 | `json.Marshal(payload)` is the two strings in the `{"itemid":…,"deviceType":…}` frame, 29 bytes longer than the strings together; `ParseJsonOfJson` reads it back |
| `Payloads.ScannerTag` | SPCBarcodeService.go:137 | `fmt.Sprintf("scanner%d", deviceID)` starts with `"scanner"`, and the rest is decimal digits that read back as the device id |
| `Payloads.ParseJsonOfJson` | SPCBarcodeService.go:29-32 | the JSON line `{"itemid":…,"deviceType":…}` of a plain payload reads back as that payload |
| `Payloads.JsonInjective` | SPCBarcodeService.go:29-32 | two plain payloads have the same JSON line only when they are the same payload |
| `Payloads.ScannerTagsDistinct` | SPCBarcodeService.go:135-138 | `"scanner<id>"` tags are equal exactly when the ids are; no scanner tag equals `"keyboard"` |
| `FailureStore.Entries` | SPCBarcodeService.go:88-105 | the lines one `logFailure` call adds: one line exactly when opening, marshalling and writing all succeed, none otherwise; `EntriesReadBack` says which line |
| `FailureStore.EntriesReadBack` | SPCBarcodeService.go:96-101 | for a plain payload, the line a `logFailure` call adds reads back as that payload |
| `FailureStore.TextAppend` | SPCBarcodeService.go:101 | appending a line adds exactly the line and `"\n"` at the end of the file's bytes; all earlier bytes stay in place |
| `FailureStore.FailureFile.Append` | SPCBarcodeService.go:90-101 | a write to the `O_APPEND` file adds one line after all earlier ones |
| `Devices.ReadPayload` | SPCBarcodeService.go:127-140 | one read sends one payload exactly when it delivers a report of at least one byte, and none on an error or an empty report; `ReadPayloadsShape` gives the payload's tag and size |
| `Devices.ReadPayloads` | SPCBarcodeService.go:126-141 | a run of reads sends at most one payload per read, in read order; `ReadPayloadsShape` counts them exactly |
| `Devices.ReadPayloadsAppend` | SPCBarcodeService.go:126-141 | payloads are sent in read order: those of two runs of reads are the first run's followed by the second's |
| `Devices.ReadPayloadsShape` | SPCBarcodeService.go:133-139 | one payload per read of n > 0 bytes; each is tagged `"scanner<id>"` and holds 1 to 256 bytes |
| `Devices.DeviceRead` | SPCBarcodeService.go:125-127 | a read succeeds exactly when the device delivers a report; then `buf[:n]` holds the report's first n bytes, with n capped at the 256-byte buffer |
| `BarcodeService.CleanItemId` | SPCBarcodeService.go:34-41 | without an `"id="` the payload is unchanged; otherwise the identifier becomes what follows the FIRST `"id="`, of length len(s) - idx - 3; the device type is never touched |
| `BarcodeService.CleaningShortens` | SPCBarcodeService.go:36-39 | when `"id="` occurs, the cleaned identifier is a strictly shorter suffix of the original |
| `BarcodeService.CleanItemIdKeepsSuffix` | SPCBarcodeService_test.go:55-59 | `"someprefixid=12345"` is cleaned to `"12345"` |
| `BarcodeService.CleanItemIdWithoutMarker` | SPCBarcodeService_test.go:61-65 | `"someprefix"` is left unchanged |
| `BarcodeService.CleanItemIdNotIdempotent` | SPCBarcodeService.go:34-41 | cleaning `"id=id=5"` gives `"id=5"`, and cleaning that again gives `"5"` |
| `BarcodeService.Deliver` | SPCBarcodeService.go:69-85 | a POST is sent exactly when marshalling succeeds, to the configured endpoint as `application/json`, with the JSON of the UNCLEANED payload; `logFailure` gets the CLEANED payload exactly when marshalling fails or the POST is not a transport success with status 200 |
| `BarcodeService.DeliverRouting` | SPCBarcodeService.go:72-84 | status 200 with no error adds no failure line; any other outcome adds exactly one line (if the log write succeeds): the JSON of the cleaned payload |
| `BarcodeService.LoggedLineDiffersFromBody` | SPCBarcodeService.go:70-81 | when a POST fails for an identifier containing `"id="`, the logged line differs from the body sent; the body reads back as the payload received and the line as the cleaned payload |
| `BarcodeService.PostPayloadAsWritten` | SPCBarcodeService.go:78-81 | as written, the call panics exactly when marshalling succeeds and the POST has a transport error; in every other case it does what `Deliver` does |
| `BarcodeService.TransportErrorPanics` | SPCBarcodeService.go:79-80 | for `"ABC123"` from `"scanner0"` with a transport error, the code as written panics, where the intended behaviour logs one line |
| `BarcodeService.LogFailure` | SPCBarcodeService.go:88-105 | the file gains the payload's JSON line and a newline when open, marshal and write succeed; otherwise nothing; errors are never raised |
| `BarcodeService.PostPayload` | SPCBarcodeService.go:69-85 | it marshals first, cleans its local copy after, and sends the request and extends the log as `Deliver` says |
| `BarcodeService.DispatchEntriesBound` | SPCBarcodeService.go:179-181 | deliveries add at most one failure line per received payload, and none when every delivery succeeds |
| `BarcodeService.DispatchRequestsAt` | SPCBarcodeService.go:179-181 | the requests of a run of deliveries are one per received payload, and request `i` is what `Deliver` sends for payload `i` |
| `BarcodeService.Dispatch` | SPCBarcodeService.go:179-181 | every received payload gets one `postPayload` call, in order: the requests are `DispatchRequests` of the payloads and the failure log grows by their lines |
| `BarcodeService.Searching` | SPCBarcodeService.go:109-123 | the outer loop of `scanDevice`: an index out of range sleeps `RescanInterval` and enumerates again; a failed open sleeps and enumerates again; a successful open moves to `Reading`; the lemmas below state what its runs do |
| `BarcodeService.Reading` | SPCBarcodeService.go:125-141 | the inner loop: a read error goes back to `Searching` without sleeping; a read of n > 0 bytes sends `{string(buf[:n]), "scanner<id>"}`; an empty read reads again |
| `BarcodeService.SearchingNeverReturns` | SPCBarcodeService.go:108-143 | a run ends only when one of its inputs runs out; what it leaves unconsumed is a suffix of each input |
| `BarcodeService.ReadingNeverReturns` | SPCBarcodeService.go:126-141 | the read loop likewise ends only when an input runs out |
| `BarcodeService.SearchingPayloads` | SPCBarcodeService.go:108-143 | the payloads sent are exactly those of the reads consumed, in read order, across reconnections |
| `BarcodeService.ReadingPayloads` | SPCBarcodeService.go:126-141 | the same from inside the read loop |
| `BarcodeService.SearchingSleeps` | SPCBarcodeService.go:109-122 | the number of sleeps plus the number of successful opens equals the number of enumerations: a sleep follows each out-of-range index and each failed open, and nothing else; every sleep is `RescanInterval`; no device is ever closed |
| `BarcodeService.ReadingSleeps` | SPCBarcodeService.go:126-131 | the same count from inside the read loop: a read error returns to enumeration without sleeping |
| `BarcodeService.NeverAvailable` | SPCBarcodeService.go:110-115 | if the index is never in range, the source sends nothing and sleeps `RescanInterval` after every enumeration |
| `BarcodeService.OneScanThenError` | SPCBarcodeService.go:108-143 | a device that opens, delivers `"ABC123"` and then fails makes the source send exactly `{"ABC123", "scanner0"}` and go back to searching |
| `BarcodeService.ScanDevice` | SPCBarcodeService.go:108-143 | the nested loops with the reused buffer produce exactly the events and leftover trace of `Searching` |
| `BarcodeService.ReadKeyboardInput` | SPCBarcodeService.go:146-159 | one payload per input line, in order, with the uncleaned line and device type `"keyboard"`; fatal exactly when reading stdin fails |
| `BarcodeService.StartScanning` | SPCBarcodeService.go:162-169 | device sources for ids 0..NumberOfScanners-1 in order (none when it is 0 or less), then a keyboard source exactly when `Keyboard` is set |
| `BarcodeScanner.Deliver` | SPCBarcodeScanner.go:52-67 | a POST is sent exactly when marshalling succeeds, with the JSON of the payload; `logFailure` gets the same, uncleaned payload exactly when marshalling fails or the POST is not a transport success with status 200 |
| `BarcodeScanner.DeliverRouting` | SPCBarcodeScanner.go:53-66 | status 200 with no error adds no failure line; any other outcome adds exactly one line (if the log write succeeds): the payload's JSON |
| `BarcodeScanner.LoggedLineIsBody` | SPCBarcodeScanner.go:53-63 | when a POST fails, the logged line is the very body that was posted, and it reads back as the payload |
| `BarcodeScanner.PostPayloadAsWritten` | SPCBarcodeScanner.go:60-63 | as written, the call panics exactly when marshalling succeeds and the POST has a transport error; otherwise it does what `Deliver` does |
| `BarcodeScanner.TransportErrorPanics` | SPCBarcodeScanner.go:61-62 | for `"ABC123"` with a transport error, the code as written panics, where the intended behaviour logs one line |
| `BarcodeScanner.LogFailure` | SPCBarcodeScanner.go:70-87 | the file gains the payload's JSON line and a newline when open, marshal and write succeed; otherwise nothing; errors are swallowed |
| `BarcodeScanner.PostPayload` | SPCBarcodeScanner.go:52-67 | it sends the request and extends the log as `Deliver` says |
| `BarcodeScanner.DispatchEntriesBound` | SPCBarcodeScanner.go:137-139 | deliveries add at most one failure line per received payload, and none when every delivery succeeds |
| `BarcodeScanner.DispatchRequestsAt` | SPCBarcodeScanner.go:137-139 | the requests of a run of deliveries are one per received payload, and request `i` is what this program's `Deliver` sends for payload `i` |
| `BarcodeScanner.Dispatch` | SPCBarcodeScanner.go:137-139 | every received payload gets one call of this program's `postPayload`, in order: the requests are `DispatchRequests` of the payloads and the failure log grows by their uncleaned lines |
| `BarcodeScanner.FirstReadError` | SPCBarcodeScanner.go:105-110 | the position where the read loop stops: every read before it succeeded, and the read there failed (or the trace ended) |
| `BarcodeScanner.ScanDevice` | SPCBarcodeScanner.go:90-120 | with the index out of range or a failed open, nothing is sent and the source is over; otherwise one payload per non-empty read up to the first read error, and then one `Close` |
| `BarcodeScanner.StartScanning` | SPCBarcodeScanner.go:123-127 | device sources for ids 0..NumberOfScanners-1 in order, and never a keyboard source |

## Findings

| source | as written | input that shows it | evidently intended | confidence | as-written member | corrected member |
|---|---|---|---|---|---|---|
| SPCBarcodeService.go:79-81 | on `err != nil` with a nil response, the log call reads `resp.StatusCode` of that nil response; the goroutine panics, which ends the process, and `logFailure` is never called (an error that comes with a response, as on a stopped redirect, reads a real status and does not panic) | payload `{"ABC123","scanner0"}`, marshalling succeeds, the POST fails with a transport error (endpoint unreachable) | log the error and append the cleaned payload to failures.log | high (not executed; rests on `http.Post` returning a nil response with a transport error such as an unreachable endpoint) | `BarcodeService.PostPayloadAsWritten`, `BarcodeService.TransportErrorPanics` | `BarcodeService.Deliver`, `BarcodeService.DeliverRouting` |
| SPCBarcodeScanner.go:61-63 | the same nil dereference before `logFailure` | the same input | log the error and append the payload to failures.log | high (not executed; same premise) | `BarcodeScanner.PostPayloadAsWritten`, `BarcodeScanner.TransportErrorPanics` | `BarcodeScanner.Deliver`, `BarcodeScanner.DeliverRouting` |

The rest of the model (`PostPayload`, `Dispatch`) uses the corrected `Deliver`.

## Behaviour worth knowing

- Identifier cleaning is not idempotent: `BarcodeService.CleanItemIdNotIdempotent` shows
  `"id=id=5"` → `"id=5"` → `"5"`.
- The service never closes a device. Its `defer device.Close()` sits inside a loop that never
  returns, so the deferred call never runs; `SearchingSleeps` proves that no `Close` event
  occurs. The one-shot `scanDevice` of SPCBarcodeScanner.go does close its device, on the
  read error that ends it.
- End of file on standard input is not fatal: only a read error of the line scanner is
  (`log.Fatalf`); at end of file `readKeyboardInput` simply returns.
- The failure log gets the cleaned record while the request body is the uncleaned one
  (`LoggedLineDiffersFromBody`).

## Left out

- Payloads.Json: writes both strings verbatim. `encoding/json`'s escaping is not modelled:
  quotes, backslash, control bytes, HTML escaping of `<>&`, invalid UTF-8, U+2028/U+2029.
  So request bodies and failure lines are Go's exactly only for `Plain` strings, and the
  read-back lemmas assume such payloads.
- BarcodeService.Deliver: models the intended failure branch on a transport error, not the
  crash of the code as written (see Findings). The same holds for `BarcodeScanner.Deliver`.
- BarcodeService.LogFailure, BarcodeScanner.LogFailure: a failed write appends nothing. A partial `WriteString` is not modelled.
- Concurrency is not modelled: the goroutines per source and per delivery, the unbuffered
  channel, and interleaved appends by concurrent `logFailure` calls. `Dispatch` runs the
  deliveries one after the other.
- `time.Sleep` is recorded as a `Sleep(seconds)` event; there is no clock. The overflow of
  `time.Duration(RescanInterval) * time.Second` for huge intervals is not modelled.
- HID, HTTP and file calls are foreign; their outcomes are inputs. A report longer than the
  buffer is assumed cut off at 256 bytes, as `hid_read` does.
- The service's endless loops are modelled on finite traces. Each run is a prefix of the
  real behaviour; the lemmas say that only the end of the trace stops it.
- BarcodeService.ScanDevice, BarcodeScanner.ScanDevice: `deviceID` is a natural number, since `startScanning` passes only 0, 1, ….
- BarcodeService.CleanItemId: Go updates the receiver in place. The model returns the updated payload, and
  `PostPayload` reassigns its local copy between the two marshal steps.
- BarcodeService.ReadKeyboardInput: `bufio.Scanner` line splitting is library code (the `\r` stripping and
  the token limit), so input lines are taken as already split.
- Left out as plumbing around the core: `readConfig` and its JSON decoding, `setupLogging`,
  `log.Printf`, `main`, the CLI, and `Service.Start`/`Stop`.
- The `go postPayload(…)` of each `runService` loop: `BarcodeService.Dispatch` and
  `BarcodeScanner.Dispatch` run the deliveries one after another, each with its own
  program's `postPayload` (the scanner's does not clean identifiers).
