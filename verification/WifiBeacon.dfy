/** `wifi_beacon.c`: the text of the vendor specific element handed to hostapd. */
module WifiBeacon {
  import opened Octets
  import opened Carriers

  /** What the builders below have to produce for a body of messages: element ID 221, then the
      length, OUI, application code, counter and body in upper-case hexadecimal. */
  function ElementText(counter: byte, body: seq<byte>): (text: string)
    ensures |text| == 2 * (7 + |body|)
    ensures '\0' !in text
  {
    "dd" + HexAll(ElementOctets(counter, body)[1..])
  }

  lemma ElementTextOctets(counter: byte, body: seq<byte>)
    ensures Unhex(ElementText(counter, body)) == Some(ElementOctets(counter, body))
  {
    var rest := ElementOctets(counter, body)[1..];
    UnhexHexAll(rest);
    assert ElementText(counter, body)[2..] == HexAll(rest);
    assert DigitValue('d') == Some(13);
    assert [0xDD] + rest == ElementOctets(counter, body);
  }

  /** A receiver of the element finds the counter and the body. */
  lemma ElementTextRoundTrip(counter: byte, body: seq<byte>)
    requires |body| <= 250
    ensures WifiPayload(ElementText(counter, body)) == Some(Payload(counter, body))
  {
    ElementTextOctets(counter, body);
    ElementRoundTrip(ElementText(counter, body), counter, body);
  }

  /** Nine messages are what the frames of either standard can carry: the body of a pack of `n` is
      recovered by the frame's own length exactly when `n` is at most nine, which is also what the
      text buffer of 471 characters has room for. */
  lemma WifiFrameIsTight(n: nat, counter: byte, body: seq<byte>)
    requires |body| == 3 + 25 * n
    ensures WifiPayload(ElementText(counter, body)) == Some(Payload(counter, body)) <==> n <= 9
    ensures |ElementText(counter, body)| + 1 <= 471 <==> n <= 9
  {
    if n <= 9 {
      ElementTextRoundTrip(counter, body);
    } else {
      ElementTextOctets(counter, body);
      LongElementFails(ElementText(counter, body), counter, body);
    }
  }

  /** The same for Bluetooth, its two length octets and its command buffer of 238 octets. */
  lemma BluetoothFrameIsTight(n: nat, counter: byte, body: seq<byte>)
    requires |body| == 3 + 25 * n
    ensures AdPayload(AdOctets(counter, body)) == Some(Payload(counter, body)) <==> n <= 9
    ensures 4 + |AdOctets(counter, body)| <= 238 <==> n <= 9
    ensures Low8(|body| + 6) == |AdOctets(counter, body)| <==> n <= 9
  {
    if n <= 9 {
      AdRoundTrip(counter, body);
    } else {
      LongAdFails(counter, body);
    }
  }

  const TEMPLATE := "dd1EFA0BBC0D00"

  lemma VendorText()
    ensures HexAll([0xFA, 0x0B, 0xBC, 0x0D]) == "FA0BBC0D"
  {
    HexAllAppend([0xFA, 0x0B], [0xBC, 0x0D]);
    HexAllAppend([0xFA], [0x0B]);
    HexAllAppend([0xBC], [0x0D]);
    assert [0xFA, 0x0B] + [0xBC, 0x0D] == [0xFA, 0x0B, 0xBC, 0x0D];
    assert HexAll([0xFA]) == "FA" && HexAll([0x0B]) == "0B";
    assert HexAll([0xBC]) == "BC" && HexAll([0x0D]) == "0D";
  }

  /** The fourteen characters in front of the body. */
  function Head(length: byte, counter: byte): (h: string)
    ensures |h| == 14 && '\0' !in h
  {
    ['d', 'd', Hex(length)[0], Hex(length)[1], 'F', 'A', '0', 'B', 'B', 'C', '0', 'D',
     Hex(counter)[0], Hex(counter)[1]]
  }

  lemma HeaderHex(length: byte, counter: byte)
    ensures HexAll([length] + [0xFA, 0x0B, 0xBC, 0x0D] + [counter])
         == Hex(length) + "FA0BBC0D" + Hex(counter)
  {
    var vendor: seq<byte> := [0xFA, 0x0B, 0xBC, 0x0D];
    VendorText();
    HexAllAppend([length] + vendor, [counter]);
    HexAllAppend([length], vendor);
    assert HexAll([length]) == Hex(length) && HexAll([counter]) == Hex(counter);
  }

  lemma HeadIs(length: byte, counter: byte)
    ensures Head(length, counter) == "dd" + (Hex(length) + "FA0BBC0D" + Hex(counter))
  {
  }

  lemma HeaderOctets(counter: byte, body: seq<byte>)
    ensures ElementOctets(counter, body)[1..]
         == [Low8(|body| + 5)] + [0xFA, 0x0B, 0xBC, 0x0D] + [counter] + body
  {
  }

  lemma HexBehind(front: string, header: seq<byte>, body: seq<byte>)
    ensures front + HexAll(header + body) == (front + HexAll(header)) + HexAll(body)
  {
    HexAllAppend(header, body);
  }

  lemma HeadText(counter: byte, body: seq<byte>)
    ensures ElementText(counter, body) == Head(Low8(|body| + 5), counter) + HexAll(body)
  {
    HeaderOctets(counter, body);
    HexBehind("dd", [Low8(|body| + 5)] + [0xFA, 0x0B, 0xBC, 0x0D] + [counter], body);
    HeaderHex(Low8(|body| + 5), counter);
    HeadIs(Low8(|body| + 5), counter);
  }

  /** The loop of both builders: two characters for each octet, behind the fourteen of the head. */
  method WriteHex(data: array<char>, octets: seq<byte>)
    requires 14 + 2 * |octets| <= data.Length
    modifies data
    ensures data[..14] == old(data[..14])
    ensures data[14..14 + 2 * |octets|] == HexAll(octets)
    ensures forall j :: 14 + 2 * |octets| <= j < data.Length ==> data[j] == old(data[j])
  {
    for i := 0 to |octets|
      invariant data[..14] == old(data[..14])
      invariant data[14..14 + 2 * i] == HexAll(octets[..i])
      invariant forall j :: 14 + 2 * i <= j < data.Length ==> data[j] == old(data[j])
    {
      var p := 2 * (7 + i);
      ghost var before := data[14..p];
      UcharToAscii(data, p, octets[i]);
      assert octets[..i + 1] == octets[..i] + [octets[i]];
      HexAllAppend(octets[..i], [octets[i]]);
      assert data[14..p] == before;
      assert data[14..p + 2] == data[14..p] + Hex(octets[i]);
    }
    assert octets[..|octets|] == octets;
  }

  /** The command line sees the buffer as a C string. */
  method Finish(data: array<char>, counter: byte, body: seq<byte>) returns (text: string)
    requires 14 + 2 * |body| < data.Length
    requires data[..14] == Head(Low8(|body| + 5), counter)
    requires data[14..14 + 2 * |body|] == HexAll(body)
    requires data[14 + 2 * |body|] == '\0'
    ensures text == ElementText(counter, body)
  {
    text := CString(data[..]);
    var n := 14 + 2 * |body|;
    HeadText(counter, body);
    assert data[..n] == data[..14] + data[14..n];
    assert data[..] == data[..n] + data[n..];
    CStringOf(data[..n], data[n..]);
  }

  /** `send_beacon_message` up to the request: one 25 octet message. */
  method BuildBeaconMessage(encoded: Message, counter: byte) returns (text: string)
    ensures text == ElementText(counter, encoded)
    ensures WifiPayload(text) == Some(Payload(counter, encoded))
  {
    var data := new char[2 * (7 + 25) + 1](_ => '\0');
    forall i | 0 <= i < 14 {
      data[i] := TEMPLATE[i];
    }
    UcharToAscii(data, 12, counter);
    assert data[..14] == Head(0x1E, counter);
    WriteHex(data, encoded);
    text := Finish(data, counter, encoded);
    ElementTextRoundTrip(counter, encoded);
  }

  /** `send_beacon_message_pack` up to the request: as many messages as the pack says. The nine
      its buffer has room for are what the caller must not exceed. */
  method BuildBeaconPack(pack: Pack, counter: byte) returns (text: string)
    requires pack[2] <= 9
    ensures text == ElementText(counter, PackBody(pack))
    ensures WifiPayload(text) == Some(Payload(counter, PackBody(pack)))
  {
    var data := new char[2 * (7 + 3 + 9 * 25) + 1](_ => '\0');
    forall i | 0 <= i < 14 {
      data[i] := TEMPLATE[i];
    }
    var amount: int := pack[2];
    var length := Low8((7 - 2) + 3 + amount * 25);
    UcharToAscii(data, 2, length);
    UcharToAscii(data, 12, counter);
    assert data[..14] == Head(length, counter);
    var body := PackBody(pack);
    WriteHex(data, body);
    text := Finish(data, counter, body);
    ElementTextRoundTrip(counter, body);
  }
}
