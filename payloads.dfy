/** The record that flows through the pipeline (Go's `Payload` struct) and its
    single-line JSON form, shared by both program variants. */
module Payloads {
  import opened Bytes

  datatype Option<T> = None | Some(value: T)

  /** `Payload{ItemID, DeviceType}`: the scanned identifier and the tag of its source. */
  datatype Payload = Payload(itemId: Line, deviceType: Line)

  /** A byte that `encoding/json` writes into a string literal as it is: printable
      ASCII other than the quote, the backslash and the HTML-escaped `<`, `>`, `&`. */
  predicate PlainByte(b: Byte)
  {
    ' ' <= b <= '~' && b != '"' && b != '\\' && b != '<' && b != '>' && b != '&'
  }

  /** A string that `encoding/json` needs to escape nowhere. */
  predicate Plain(s: Line)
  {
    forall i :: 0 <= i < |s| ==> PlainByte(s[i])
  }

  /** A payload whose serialization this model gives exactly. */
  predicate PlainPayload(p: Payload)
  {
    Plain(p.itemId) && Plain(p.deviceType)
  }

  // The fixed parts of the serialization: the struct tags `itemid` and `deviceType`,
  // in the order the struct declares its fields.
  const ItemIdKey: Line := "{\"itemid\":\""
  const DeviceTypeKey: Line := "\",\"deviceType\":\""
  const ObjectEnd: Line := "\"}"
  const Quote: Line := "\""

  /** `json.Marshal(payload)`, with both strings written verbatim: the two strings and
      29 bytes of keys, quotes and braces. */
  function Json(p: Payload): (l: Line)
    ensures |l| == |p.itemId| + |p.deviceType| + 29
  {
    ItemIdKey + p.itemId + DeviceTypeKey + p.deviceType + ObjectEnd
  }

  /** Reads a serialized payload back: the item identifier runs up to the first quote
      after the `itemid` key, the device type up to the closing `"}`. */
  function ParseJson(l: Line): Option<Payload>
  {
    if |l| < |ItemIdKey| || l[..|ItemIdKey|] != ItemIdKey then None
    else
      var rest := l[|ItemIdKey|..];
      var k := IndexOf(rest, Quote);
      if k < 0 then None
      else
        var tail := rest[k..];
        if |tail| < |DeviceTypeKey| + |ObjectEnd| || tail[..|DeviceTypeKey|] != DeviceTypeKey then None
        else
          var t := tail[|DeviceTypeKey|..];
          if t[|t| - |ObjectEnd|..] != ObjectEnd then None
          else Some(Payload(rest[..k], t[..|t| - |ObjectEnd|]))
  }

  /** In a serialization, the first quote after the `itemid` key is the one that closes
      a plain item identifier. */
  lemma ItemIdEndsAtQuote(p: Payload, rest: Line)
    requires Plain(p.itemId)
    requires rest == p.itemId + DeviceTypeKey + p.deviceType + ObjectEnd
    ensures IndexOf(rest, Quote) == |p.itemId|
  {
    assert OccursAt(rest, Quote, |p.itemId|) by {
      assert rest[|p.itemId|..|p.itemId| + 1] == Quote;
    }
    forall j | 0 <= j < |p.itemId|
      ensures !OccursAt(rest, Quote, j)
    {
      assert rest[j] == p.itemId[j];
      assert PlainByte(p.itemId[j]);
    }
    assert FirstAt(rest, Quote, |p.itemId|);
    FirstOccurrence(rest, Quote, |p.itemId|);
  }

  /** A plain payload's serialization reads back as that payload: the failure log
      keeps every field of the record apart. */
  lemma ParseJsonOfJson(p: Payload)
    requires PlainPayload(p)
    ensures ParseJson(Json(p)) == Some(p)
  {
    var l := Json(p);
    var rest := p.itemId + DeviceTypeKey + p.deviceType + ObjectEnd;
    assert l == ItemIdKey + rest;
    assert l[|ItemIdKey|..] == rest;
    ItemIdEndsAtQuote(p, rest);
    var tail := rest[|p.itemId|..];
    assert tail == DeviceTypeKey + p.deviceType + ObjectEnd;
    assert tail[..|DeviceTypeKey|] == DeviceTypeKey;
    var t := tail[|DeviceTypeKey|..];
    assert t == p.deviceType + ObjectEnd;
    assert rest[..|p.itemId|] == p.itemId;
  }

  /** Two plain payloads with the same serialization are the same payload. */
  lemma JsonInjective(p: Payload, q: Payload)
    requires PlainPayload(p) && PlainPayload(q)
    ensures Json(p) == Json(q) <==> p == q
  {
    ParseJsonOfJson(p);
    ParseJsonOfJson(q);
  }

  /** Device-type tag of the keyboard source. */
  const KeyboardTag: Line := "keyboard"

  /** `fmt.Sprintf("scanner%d", deviceID)`. */
  function ScannerTag(deviceId: nat): (t: Line)
    ensures |t| > 7 && t[..7] == "scanner"
    ensures forall i :: 7 <= i < |t| ==> IsDigit(t[i])
    ensures ParseDecimal(t[7..]) == deviceId
  {
    ParseDecimalOfDecimal(deviceId);
    var t := "scanner" + Decimal(deviceId);
    assert t[7..] == Decimal(deviceId);
    t
  }

  /** Each scanner gets its own tag, and no scanner is tagged as the keyboard. */
  lemma ScannerTagsDistinct(i: nat, j: nat)
    ensures ScannerTag(i) == ScannerTag(j) <==> i == j
    ensures ScannerTag(i) != KeyboardTag
  {
    var a, b := ScannerTag(i), ScannerTag(j);
    if a == b {
      assert a[7..] == Decimal(i) && b[7..] == Decimal(j);
      DecimalInjective(i, j);
    }
    assert a[0] == 's' && KeyboardTag[0] == 'k';
  }
}
