/** What a source observes from its device and what it produces, shared by both
    program variants. The HID library (`hid.Enumerate`, `Open`, `Read`) is foreign:
    its outcomes are inputs of the model. */
module Devices {
  import opened Bytes
  import opened Payloads

  /** Size of the read buffer `make([]byte, 256)`. */
  const BufferSize: nat := 256

  /** Result of `devices[deviceID].Open()`. */
  datatype OpenResult = OpenOk | OpenErr

  /** Result of one `device.Read(buf)`: the input report the device delivered, or an error. */
  datatype ReadResult = Report(data: Line) | ReadErr

  /** What a source does that the rest of the system can see: a payload sent on the
      channel, a `time.Sleep` of so many seconds, or `device.Close()`. */
  datatype Event = Emit(payload: Payload) | Sleep(seconds: int) | Close

  /** A source started by `startScanning`. */
  datatype Source = DeviceSource(id: nat) | KeyboardSource

  /** The `n` that `device.Read(buf)` returns for a report: the report is copied into
      the buffer and cut off at the buffer's end. */
  function ReadLength(data: Line): nat
  {
    if |data| < BufferSize then |data| else BufferSize
  }

  /** The payloads one read sends on the channel: one for a report of n > 0 bytes,
      none for an empty report or an error. */
  function ReadPayload(id: nat, r: ReadResult): (ps: seq<Payload>)
    ensures |ps| == (if r.Report? && |r.data| > 0 then 1 else 0)
  {
    if r.Report? && ReadLength(r.data) > 0 then [Payload(r.data[..ReadLength(r.data)], ScannerTag(id))] else []
  }

  /** The payloads a run of reads sends, in read order. */
  function ReadPayloads(id: nat, results: seq<ReadResult>): (ps: seq<Payload>)
    ensures |ps| <= |results|
  {
    if results == [] then [] else ReadPayload(id, results[0]) + ReadPayloads(id, results[1..])
  }

  /** Number of reads that delivered at least one byte. */
  function NonEmptyReads(results: seq<ReadResult>): nat
  {
    if results == [] then 0
    else (if results[0].Report? && |results[0].data| > 0 then 1 else 0) + NonEmptyReads(results[1..])
  }

  /** Reads are turned into payloads one after the other: the payloads of two runs of
      reads are those of the first run followed by those of the second. */
  lemma {:induction false} ReadPayloadsAppend(id: nat, a: seq<ReadResult>, b: seq<ReadResult>)
    ensures ReadPayloads(id, a + b) == ReadPayloads(id, a) + ReadPayloads(id, b)
  {
    if a == [] {
      assert a + b == b;
    } else {
      assert (a + b)[0] == a[0] && (a + b)[1..] == a[1..] + b;
      ReadPayloadsAppend(id, a[1..], b);
      calc {
        ReadPayloads(id, a + b);
        ReadPayload(id, a[0]) + ReadPayloads(id, a[1..] + b);
        ReadPayload(id, a[0]) + (ReadPayloads(id, a[1..]) + ReadPayloads(id, b));
        ReadPayloads(id, a) + ReadPayloads(id, b);
      }
    }
  }

  /** The payloads of the first `k` reads are those of the first read, then those of the
      `k - 1` reads after it. */
  lemma ReadPayloadsPrefix(id: nat, results: seq<ReadResult>, k: nat)
    requires 1 <= k <= |results|
    ensures ReadPayloads(id, results[..k]) == ReadPayload(id, results[0]) + ReadPayloads(id, results[1..][..k - 1])
  {
    assert results[..k][0] == results[0] && results[..k][1..] == results[1..][..k - 1];
  }

  /** One more read adds its own payloads after those sent so far. */
  lemma ReadPayloadsSnoc(id: nat, results: seq<ReadResult>, r: ReadResult)
    ensures ReadPayloads(id, results + [r]) == ReadPayloads(id, results) + ReadPayload(id, r)
  {
    ReadPayloadsAppend(id, results, [r]);
    assert [r][1..] == [];
  }

  /** A run of reads sends one payload per non-empty read, each tagged with the
      scanner's device type and holding between 1 and 256 bytes of the report. */
  lemma {:induction false} ReadPayloadsShape(id: nat, results: seq<ReadResult>)
    ensures |ReadPayloads(id, results)| == NonEmptyReads(results)
    ensures forall p :: p in ReadPayloads(id, results) ==>
              p.deviceType == ScannerTag(id) && 0 < |p.itemId| <= BufferSize
  {
    if results != [] {
      ReadPayloadsShape(id, results[1..]);
    }
  }

  /** The events that send `ps` on the channel, in order. */
  function Emits(ps: seq<Payload>): (evs: seq<Event>)
    ensures |evs| == |ps|
  {
    if ps == [] then [] else [Emit(ps[0])] + Emits(ps[1..])
  }

  /** Sending two runs of payloads is sending the first run, then the second. */
  lemma {:induction false} EmitsAppend(a: seq<Payload>, b: seq<Payload>)
    ensures Emits(a + b) == Emits(a) + Emits(b)
  {
    if a == [] {
      assert a + b == b;
    } else {
      assert (a + b)[0] == a[0] && (a + b)[1..] == a[1..] + b;
      EmitsAppend(a[1..], b);
    }
  }

  /** The payloads sent among `evs`, in order. */
  function PayloadsOf(evs: seq<Event>): seq<Payload>
  {
    if evs == [] then [] else (if evs[0].Emit? then [evs[0].payload] else []) + PayloadsOf(evs[1..])
  }

  /** Number of `time.Sleep` calls among `evs`. */
  function SleepCount(evs: seq<Event>): nat
  {
    if evs == [] then 0 else (if evs[0].Sleep? then 1 else 0) + SleepCount(evs[1..])
  }

  /** One more event in front adds its payload, if it sends one, and its sleep, if it is one. */
  lemma EventsCons(ev: Event, evs: seq<Event>)
    ensures PayloadsOf([ev] + evs) == (if ev.Emit? then [ev.payload] else []) + PayloadsOf(evs)
    ensures SleepCount([ev] + evs) == (if ev.Sleep? then 1 else 0) + SleepCount(evs)
  {
    assert ([ev] + evs)[0] == ev && ([ev] + evs)[1..] == evs;
  }

  /** `device.Read(buf)`: the device writes the first `n` bytes of its report into `buf`. */
  method DeviceRead(buf: array<Byte>, r: ReadResult) returns (n: nat, ok: bool)
    requires buf.Length == BufferSize
    modifies buf
    ensures ok <==> r.Report?
    ensures ok ==> n == ReadLength(r.data) && buf[..n] == r.data[..n]
  {
    if r.ReadErr? {
      return 0, false;
    }
    n, ok := ReadLength(r.data), true;
    forall k | 0 <= k < n {
      buf[k] := r.data[k];
    }
  }
}
