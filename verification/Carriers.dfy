/** What a receiver reads off the air: the framing of the two radio standards, decoded by the
    length fields a frame carries itself. Written independently of the code that builds the frames. */
module Carriers {
  import opened Octets

  /** Application code, message counter and message(s): the part common to every carrier. */
  function Payload(counter: byte, body: seq<byte>): (p: seq<byte>) {
    [0x0D, counter] + body
  }

  // ----- Wi-Fi: elements, section 9.4.2.1 of IEEE 802.11-2016

  datatype Element = Element(id: byte, info: seq<byte>)

  function ParseElements(s: seq<byte>): (es: Option<seq<Element>>) {
    if s == [] then Some([])
    else if |s| < 2 || |s| - 2 < s[1] then None
    else
      var end := s[1] as int + 2;
      match ParseElements(s[end..])
      case None => None
      case Some(rest) => Some([Element(s[0], s[2..end])] + rest)
  }

  /** The payload of a beacon whose `vendor_elements` setting is `text`: one vendor specific
      element (ID 221) with the OUI of ASD-STAN. */
  function WifiPayload(text: string): (p: Option<seq<byte>>) {
    match Unhex(text)
    case None => None
    case Some(octets) =>
      match ParseElements(octets)
      case None => None
      case Some(es) =>
        if |es| == 1 && es[0].id == 221 && |es[0].info| >= 3 && es[0].info[..3] == [0xFA, 0x0B, 0xBC]
        then Some(es[0].info[3..])
        else None
  }

  // ----- Bluetooth: advertising data, section 11 of Vol 3 Part C of the Core Specification

  datatype AdStructure = AdStructure(kind: byte, data: seq<byte>)

  function ParseAds(s: seq<byte>): (ads: Option<seq<AdStructure>>) {
    if s == [] || s[0] == 0 then Some([])
    else if |s| - 1 < s[0] then None
    else
      var end := s[0] as int + 1;
      match ParseAds(s[end..])
      case None => None
      case Some(rest) => Some([AdStructure(s[1], s[2..end])] + rest)
  }

  /** The payload of advertising data that holds one service data structure for UUID 0xFFFA. */
  function AdPayload(data: seq<byte>): (p: Option<seq<byte>>) {
    match ParseAds(data)
    case None => None
    case Some(ads) =>
      if |ads| == 1 && ads[0].kind == 0x16 && |ads[0].data| >= 2 && ads[0].data[..2] == [0xFA, 0xFF]
      then Some(ads[0].data[2..])
      else None
  }

  // ----- Framing a body of up to 250 octets and reading it back

  function ElementOctets(counter: byte, body: seq<byte>): (s: seq<byte>) {
    [0xDD, Low8(|body| + 5), 0xFA, 0x0B, 0xBC, 0x0D, counter] + body
  }

  function AdOctets(counter: byte, body: seq<byte>): (s: seq<byte>) {
    [Low8(|body| + 5), 0x16, 0xFA, 0xFF, 0x0D, counter] + body
  }

  lemma OneElement(s: seq<byte>)
    requires |s| >= 2 && s[1] == |s| - 2
    ensures ParseElements(s) == Some([Element(s[0], s[2..])])
  {
    var e := Element(s[0], s[2..]);
    assert s[|s|..] == [] && s[2..|s|] == s[2..];
    assert [e] + [] == [e];
  }

  lemma OneAd(s: seq<byte>)
    requires |s| >= 2 && s[0] == |s| - 1
    ensures ParseAds(s) == Some([AdStructure(s[1], s[2..])])
  {
    var ad := AdStructure(s[1], s[2..]);
    assert s[|s|..] == [] && s[2..|s|] == s[2..];
    assert [ad] + [] == [ad];
  }

  lemma ElementRoundTrip(text: string, counter: byte, body: seq<byte>)
    requires |body| <= 250
    requires Unhex(text) == Some(ElementOctets(counter, body))
    ensures WifiPayload(text) == Some(Payload(counter, body))
  {
    var s := ElementOctets(counter, body);
    OneElement(s);
    var info := s[2..];
    assert info[..3] == [0xFA, 0x0B, 0xBC];
    assert info[3..] == Payload(counter, body);
  }

  lemma AdRoundTrip(counter: byte, body: seq<byte>)
    requires |body| <= 250
    ensures AdPayload(AdOctets(counter, body)) == Some(Payload(counter, body))
  {
    var s := AdOctets(counter, body);
    OneAd(s);
    var data := s[2..];
    assert data[..2] == [0xFA, 0xFF];
    assert data[2..] == Payload(counter, body);
  }

  /** A body too long for the length octet is not recovered: some octets are left over behind what
      the element claims to hold. */
  lemma LongElementFails(text: string, counter: byte, body: seq<byte>)
    requires |body| > 250
    requires Unhex(text) == Some(ElementOctets(counter, body))
    ensures WifiPayload(text) == None
  {
    var s := ElementOctets(counter, body);
    var end := s[1] as int + 2;
    assert |s[end..]| > 0;
    ElementsOfSome(s[end..]);
  }

  lemma ElementsOfSome(s: seq<byte>)
    requires s != []
    ensures ParseElements(s).Some? ==> ParseElements(s).value != []
  {
  }

  lemma FirstAdIsShort(s: seq<byte>)
    ensures ParseAds(s).Some? && ParseAds(s).value != [] ==> |ParseAds(s).value[0].data| < 255
  {
  }

  lemma LongAdFails(counter: byte, body: seq<byte>)
    requires |body| > 250
    ensures AdPayload(AdOctets(counter, body)) != Some(Payload(counter, body))
  {
    var s := AdOctets(counter, body);
    FirstAdIsShort(s);
    if AdPayload(s).Some? {
      assert |AdPayload(s).value| < 255;
      assert |Payload(counter, body)| > 252;
    }
  }

  // ----- Messages and packs

  type Message = m: seq<byte> | |m| == 25 witness Zeros(25)

  /** The encoded pack: three header octets and room for nine messages. */
  type Pack = p: seq<byte> | |p| == 228 witness Zeros(228)

  /** The octets of a pack that are transmitted: its third octet says how many messages. */
  function PackBody(pack: Pack): (body: seq<byte>)
    requires pack[2] <= 9
    ensures |body| == 3 + 25 * pack[2]
  {
    pack[..3 + 25 * pack[2]]
  }

  function Nth(s: seq<byte>, i: nat): (m: Message)
    requires 25 * i + 25 <= |s|
  {
    s[25 * i..25 * i + 25]
  }

  /** The messages a receiver finds in a pack body. */
  function Unpack(body: seq<byte>): (ms: Option<seq<Message>>) {
    if |body| < 3 || |body| - 3 != 25 * (body[2] as int) then None
    else Some(seq(body[2], i requires 0 <= i < body[2] => Nth(body[3..], i)))
  }

  function Flatten(ms: seq<Message>): (s: seq<byte>)
    ensures |s| == 25 * |ms|
  {
    if ms == [] then [] else ms[0] + Flatten(ms[1..])
  }

  lemma {:induction false} FlattenAt(ms: seq<Message>, i: nat)
    requires i < |ms|
    ensures Nth(Flatten(ms), i) == ms[i]
  {
    if i > 0 {
      FlattenAt(ms[1..], i - 1);
      assert Nth(Flatten(ms), i) == Nth(Flatten(ms[1..]), i - 1);
    }
  }

  lemma UnpackFlatten(header: seq<byte>, ms: seq<Message>)
    requires |header| == 3 && header[2] == |ms| && |ms| <= 9
    ensures Unpack(header + Flatten(ms)) == Some(ms)
  {
    var body := header + Flatten(ms);
    assert body[3..] == Flatten(ms);
    forall i | 0 <= i < |ms|
      ensures Nth(body[3..], i) == ms[i]
    {
      FlattenAt(ms, i);
    }
    assert Unpack(body).value == ms;
  }
}
