/** `bluetooth.c`: the commands written to the HCI socket. */
module Bluetooth {
  import opened Octets
  import opened Carriers
  import opened Config
  import opened Controller

  type Mac = m: seq<byte> | |m| == 6 witness Zeros(6)

  // ----- Advertising intervals

  /** C division, which truncates toward zero. */
  function CDiv(a: int, b: int): (q: int)
    requires b > 0
  {
    if a >= 0 then a / b else -(-a / b)
  }

  /** Milliseconds for which `1000 * interval_ms` is a C `int`. */
  predicate IsInterval(ms: int) {
    -0x8000_0000 <= 1000 * ms < 0x8000_0000
  }

  /** The interval in units of 0.625 ms, clamped to what a field can hold. */
  function Units(ms: int, most: int): (n: int)
    requires IsInterval(ms) && 0x20 <= most
    ensures 0x20 <= n <= most
  {
    var q := CDiv(1000 * ms, 625);
    if q < 0x20 then 0x20 else if q > most then most else q
  }

  // ----- The packets, as octets

  function Le(ocf: int, params: seq<byte>): (p: Packet) {
    Packet(8, ocf, params)
  }

  const ResetPacket := Packet(3, 0x03, [])
  const FeaturesPacket := Le(0x03, [])
  const AdvertisingDisablePacket := Le(0x0A, [0])
  const AdvertisingEnablePacket := Le(0x0A, [1])
  const ExtendedDisablePacket := Le(0x39, [0, 0])

  function RemoveSetPacket(handle: byte): (p: Packet) {
    Le(0x3C, [handle])
  }

  function RandomAddressPacket(mac: Mac): (p: Packet) {
    Le(0x05, mac)
  }

  function SetRandomAddressPacket(handle: byte, mac: Mac): (p: Packet) {
    Le(0x35, [handle] + mac)
  }

  function AdvertisingParametersPacket(ms: int): (p: Packet)
    requires IsInterval(ms)
  {
    var n := Units(ms, 0x4000);
    Le(0x06, [Low8(n), Low8(n / 256), Low8(n), Low8(n / 256), 3, 1, 0, 0, 0, 0, 0, 0, 0, 7, 0])
  }

  function ExtendedParameterOctets(handle: byte, n: nat, longRange: bool): (s: seq<byte>) {
    var phy: byte := if longRange then 3 else 1;
    [handle, if longRange then 0x00 else 0x10, 0,
     Low8(n), Low8(n / 0x100), Low8(n / 0x1_0000), Low8(n), Low8(n / 0x100), Low8(n / 0x1_0000),
     7, 1, 0, 0, 0, 0, 0, 0, 0, 0, 0x7F, phy, 0, phy, 0, 0]
  }

  function ExtendedParametersPacket(handle: byte, ms: int, longRange: bool): (p: Packet)
    requires IsInterval(ms)
  {
    Le(0x36, ExtendedParameterOctets(handle, Units(ms, 0xFF_FFFF), longRange))
  }

  function AdvertisingDataPacket(message: Message, counter: byte): (p: Packet) {
    Le(0x08, [0x1F] + AdOctets(counter, message))
  }

  function ExtendedDataPacket(handle: byte, message: Message, counter: byte): (p: Packet) {
    Le(0x37, [handle, 3, 1, 0x1F] + AdOctets(counter, message))
  }

  /** The buffer is as long as nine messages need, whatever the pack holds. */
  function ExtendedPackPacket(handle: byte, pack: Pack, counter: byte): (p: Packet)
    requires pack[2] <= 9
  {
    var body := PackBody(pack);
    Le(0x37, [handle, 3, 1, Low8(|body| + 6)] + AdOctets(counter, body) + Zeros(228 - |body|))
  }

  function ExtendedEnablePacket(config: Config): (p: Packet) {
    if config.useBt4 && config.useBt5
    then Le(0x39, [1, 2, config.handleBt4, config.handleBt5, 0, 0, 0, 0])
    else if config.useBt4 then Le(0x39, [1, 1, config.handleBt4, 0, 0, 0, 0, 0])
    else if config.useBt5 then Le(0x39, [1, 1, config.handleBt5, 0, 0, 0, 0, 0])
    else Le(0x39, [1, 1, 0, 0, 0, 0, 0, 0])
  }

  // ----- The sequences

  function StopPackets(config: Config): (ps: seq<Packet>) {
    [AdvertisingDisablePacket, ExtendedDisablePacket,
     RemoveSetPacket(config.handleBt4), RemoveSetPacket(config.handleBt5)]
  }

  /** Init up to the point where the configured advertisers are set up. */
  function ClearPackets(config: Config): (ps: seq<Packet>) {
    [ResetPacket] + StopPackets(config) + [FeaturesPacket]
  }

  function LegacySetup(mac: Mac): (ps: seq<Packet>) {
    [ResetPacket, AdvertisingParametersPacket(100), RandomAddressPacket(mac)]
  }

  function ExtendedSetup(handle: byte, ms: int, longRange: bool, mac: Mac): (ps: seq<Packet>)
    requires IsInterval(ms)
  {
    [ResetPacket, ExtendedParametersPacket(handle, ms, longRange), SetRandomAddressPacket(handle, mac)]
  }

  function SetupPackets(config: Config, mac: Mac): (ps: seq<Packet>) {
    (if config.useBtl then LegacySetup(mac) else [])
    + (if config.useBt4 then ExtendedSetup(config.handleBt4, 300, false, mac) else [])
    + (if config.useBt5 then ExtendedSetup(config.handleBt5, 950, true, mac) else [])
  }

  function EnablePackets(config: Config): (ps: seq<Packet>) {
    (if config.useBtl then [AdvertisingEnablePacket] else [])
    + (if config.useBt4 then [ExtendedEnablePacket(config)] else [])
    + (if config.useBt5 then [ExtendedEnablePacket(config)] else [])
  }

  function InitPackets(config: Config, mac: Mac): (ps: seq<Packet>) {
    ClearPackets(config) + SetupPackets(config, mac) + EnablePackets(config)
  }

  /** What one message or one pack is to the Bluetooth carriers. */
  datatype Transmission = Single(message: Message, counter: byte) | Packed(pack: Pack, counter: byte)

  predicate Fits(t: Transmission) {
    t.Packed? ==> t.pack[2] <= 9
  }

  function Body(t: Transmission): (body: seq<byte>)
    requires Fits(t)
    ensures |body| <= 228
  {
    match t
    case Single(m, _) => m
    case Packed(p, _) => PackBody(p)
  }

  function TransmitPackets(config: Config, t: Transmission): (ps: seq<Packet>)
    requires Fits(t)
  {
    match t
    case Single(m, k) =>
      (if config.useBtl then [AdvertisingDataPacket(m, k)] else [])
      + (if config.useBt4 then [ExtendedDataPacket(config.handleBt4, m, k)] else [])
      + (if config.useBt5 then [ExtendedDataPacket(config.handleBt5, m, k)] else [])
    case Packed(p, k) =>
      if config.useBt5 then [ExtendedPackPacket(config.handleBt5, p, k)] else []
  }

  // ----- What the packets say

  /** The parameter commands: non-connectable and non-scannable advertising on all three channels under
      a random address, with legacy PDUs on the 1M PHY or extended ones on the coded PHY; the interval
      fields decode to the clamped quotient, minimum and maximum alike. */
  lemma IntervalEncoding(handle: byte, ms: int, longRange: bool)
    requires IsInterval(ms)
    ensures Parse(AdvertisingParametersPacket(ms))
         == SetAdvertisingParameters(Units(ms, 0x4000), Units(ms, 0x4000), 3, 1, Peer(0, Zeros(6)), 7, 0)
    ensures Parse(ExtendedParametersPacket(handle, ms, longRange))
         == SetExtendedParameters(handle, if longRange then 0 else 0x10, Units(ms, 0xFF_FFFF),
                                  Units(ms, 0xFF_FFFF), 7, 1, Peer(0, Zeros(6)), 0, 0x7F,
                                  if longRange then 3 else 1, 0, if longRange then 3 else 1, 0, 0)
  {
    LegacyInterval(Units(ms, 0x4000), AdvertisingParametersPacket(ms).params);
    ExtendedInterval(handle, Units(ms, 0xFF_FFFF), longRange);
  }

  lemma LegacyInterval(n: nat, s: seq<byte>)
    requires n < 0x1_0000 && |s| == 15
    requires s[0] == s[2] == Low8(n) && s[1] == s[3] == Low8(n / 256)
    ensures Le16(s, 0) == Le16(s, 2) == n
  {
    Digits16(n);
  }

  lemma ExtendedInterval(handle: byte, n: nat, longRange: bool)
    requires n < 0x100_0000
    ensures Le24(ExtendedParameterOctets(handle, n, longRange), 3) == n
    ensures Le24(ExtendedParameterOctets(handle, n, longRange), 6) == n
    ensures Le16(ExtendedParameterOctets(handle, n, longRange), 1) == if longRange then 0 else 0x10
  {
    Digits24(n);
  }

  lemma Digits16(n: nat)
    requires n < 0x1_0000
    ensures n == Low8(n) + 0x100 * Low8(n / 0x100)
  {
  }

  lemma Digits24(n: nat)
    requires n < 0x100_0000
    ensures n == Low8(n) + 0x100 * Low8(n / 0x100) + 0x1_0000 * Low8(n / 0x1_0000)
  {
    assert n / 0x1_0000 == n / 0x100 / 0x100;
  }

  /** Where no clamp acts, the encoded time is at most the request and within 0.625 ms of it. */
  lemma IntervalIsClose(ms: int, most: int)
    requires IsInterval(ms) && 0x20 <= most
    ensures 20 <= ms && 1000 * ms < 625 * (most + 1) ==>
              625 * Units(ms, most) <= 1000 * ms < 625 * Units(ms, most) + 625
    ensures ms < 20 ==> Units(ms, most) == 0x20
    ensures 1000 * ms >= 625 * most ==> Units(ms, most) == most
  {
  }

  lemma IntervalIsMonotone(a: int, b: int, most: int)
    requires IsInterval(a) && IsInterval(b) && 0x20 <= most && a <= b
    ensures Units(a, most) <= Units(b, most)
  {
  }

  lemma ParseData(handle: byte, m: Message, counter: byte)
    ensures Parse(AdvertisingDataPacket(m, counter)) == SetAdvertisingData(AdOctets(counter, m))
    ensures Parse(ExtendedDataPacket(handle, m, counter)) == SetExtendedData(handle, 3, AdOctets(counter, m))
  {
    var s := AdvertisingDataPacket(m, counter).params;
    assert s[1..] == AdOctets(counter, m) && s[1..][..31] == s[1..];
    var t := ExtendedDataPacket(handle, m, counter).params;
    assert t[4..] == AdOctets(counter, m) && t[4..][..31] == t[4..];
  }

  lemma ParsePack(handle: byte, pack: Pack, counter: byte)
    requires pack[2] <= 9
    ensures Parse(ExtendedPackPacket(handle, pack, counter))
         == SetExtendedData(handle, 3, AdOctets(counter, PackBody(pack)))
  {
    var s := ExtendedPackPacket(handle, pack, counter).params;
    var data := AdOctets(counter, PackBody(pack));
    assert s == [handle, 3, 1, |data|] + data + Zeros(228 - |PackBody(pack)|);
    assert s[4..][..|data|] == data;
  }

  lemma ParseAddress(handle: byte, mac: Mac)
    ensures Parse(RandomAddressPacket(mac)) == SetRandomAddress(mac)
    ensures Parse(SetRandomAddressPacket(handle, mac)) == SetAdvertisingSetRandomAddress(handle, mac)
  {
    assert SetRandomAddressPacket(handle, mac).params[1..] == mac;
  }

  lemma ParseEnable(config: Config)
    requires config.useBt4 || config.useBt5
    ensures Parse(ExtendedEnablePacket(config))
         == SetExtendedEnable(true, (if config.useBt4 then [config.handleBt4] else [])
                                    + (if config.useBt5 then [config.handleBt5] else []))
  {
    var s := ExtendedEnablePacket(config).params;
    if config.useBt4 && config.useBt5 {
      assert s[2..][..2] == [config.handleBt4, config.handleBt5];
    } else {
      assert s[2..][..1] == [if config.useBt4 then config.handleBt4 else config.handleBt5];
    }
  }

  lemma ParseDisable()
    ensures Parse(ExtendedDisablePacket) == SetExtendedEnable(false, [])
  {
    var none: seq<byte> := [];
    assert ExtendedDisablePacket.params[2..][..0] == none;
  }

  lemma ParseRemove(handle: byte)
    ensures Parse(RemoveSetPacket(handle)) == RemoveSet(handle)
  {
  }

  lemma ParseAdvertisingEnable()
    ensures Parse(AdvertisingEnablePacket) == SetAdvertisingEnable(true)
    ensures Parse(AdvertisingDisablePacket) == SetAdvertisingEnable(false)
    ensures Parse(ResetPacket) == Reset && Parse(FeaturesPacket) == ReadFeatures
  {
  }

  /** 100, 300 and 950 ms in units of 0.625 ms. */
  lemma Intervals()
    ensures Units(100, 0x4000) == 160 && Units(300, 0xFF_FFFF) == 480 && Units(950, 0xFF_FFFF) == 1520
  {
  }

  lemma ClearCommands(config: Config)
    ensures Commands(ClearPackets(config))
         == [Reset, SetAdvertisingEnable(false), SetExtendedEnable(false, []), RemoveSet(config.handleBt4),
             RemoveSet(config.handleBt5), ReadFeatures]
  {
    hide Parse;
    ParseAdvertisingEnable();
    ParseDisable();
    ParseRemove(config.handleBt4);
    ParseRemove(config.handleBt5);
  }

  lemma LegacySetupCommands(mac: Mac)
    ensures Commands(LegacySetup(mac))
         == [Reset, SetAdvertisingParameters(160, 160, 3, 1, Peer(0, Zeros(6)), 7, 0), SetRandomAddress(mac)]
  {
    hide Parse, AdvertisingParametersPacket, RandomAddressPacket;
    ParseAdvertisingEnable();
    Intervals();
    IntervalEncoding(0, 100, false);
    ParseAddress(0, mac);
  }

  lemma ExtendedSetupCommands(handle: byte, ms: int, longRange: bool, mac: Mac)
    requires IsInterval(ms)
    ensures Commands(ExtendedSetup(handle, ms, longRange, mac))
         == [Reset,
             SetExtendedParameters(handle, if longRange then 0 else 0x10, Units(ms, 0xFF_FFFF),
                                   Units(ms, 0xFF_FFFF), 7, 1, Peer(0, Zeros(6)), 0, 0x7F,
                                   if longRange then 3 else 1, 0, if longRange then 3 else 1, 0, 0),
             SetAdvertisingSetRandomAddress(handle, mac)]
  {
    hide Parse, ExtendedParametersPacket, SetRandomAddressPacket, Units;
    ParseAdvertisingEnable();
    IntervalEncoding(handle, ms, longRange);
    ParseAddress(handle, mac);
  }

  /** What initialisation asks of the controller, for every configuration: everything is cleared, then
      each selected advertiser is reset and set up, with legacy PDUs every 300 ms for BT4 and on the
      coded PHY every 950 ms for BT5, then each is enabled. */
  lemma InitCommands(config: Config, mac: Mac)
    ensures Commands(InitPackets(config, mac))
         == [Reset, SetAdvertisingEnable(false), SetExtendedEnable(false, []), RemoveSet(config.handleBt4),
             RemoveSet(config.handleBt5), ReadFeatures]
            + (if config.useBtl
               then [Reset, SetAdvertisingParameters(160, 160, 3, 1, Peer(0, Zeros(6)), 7, 0), SetRandomAddress(mac)]
               else [])
            + (if config.useBt4
               then [Reset,
                     SetExtendedParameters(config.handleBt4, 0x10, 480, 480, 7, 1, Peer(0, Zeros(6)), 0, 0x7F,
                                           1, 0, 1, 0, 0),
                     SetAdvertisingSetRandomAddress(config.handleBt4, mac)]
               else [])
            + (if config.useBt5
               then [Reset,
                     SetExtendedParameters(config.handleBt5, 0, 1520, 1520, 7, 1, Peer(0, Zeros(6)), 0, 0x7F,
                                           3, 0, 3, 0, 0),
                     SetAdvertisingSetRandomAddress(config.handleBt5, mac)]
               else [])
            + Commands(EnablePackets(config))
    ensures Commands(EnablePackets(config))
         == (if config.useBtl then [SetAdvertisingEnable(true)] else [])
            + (if config.useBt4
               then [SetExtendedEnable(true, [config.handleBt4]
                                             + if config.useBt5 then [config.handleBt5] else [])]
               else [])
            + (if config.useBt5
               then [SetExtendedEnable(true, (if config.useBt4 then [config.handleBt4] else [])
                                             + [config.handleBt5])]
               else [])
  {
    hide Commands, Parse, ClearPackets, LegacySetup, ExtendedSetup, EnablePackets, Units;
    var btl := if config.useBtl then LegacySetup(mac) else [];
    var bt4 := if config.useBt4 then ExtendedSetup(config.handleBt4, 300, false, mac) else [];
    var bt5 := if config.useBt5 then ExtendedSetup(config.handleBt5, 950, true, mac) else [];
    CommandsAppend(ClearPackets(config) + (btl + bt4 + bt5), EnablePackets(config));
    CommandsAppend(ClearPackets(config), btl + bt4 + bt5);
    CommandsAppend(btl + bt4, bt5);
    CommandsAppend(btl, bt4);
    NoCommands();
    ClearCommands(config);
    LegacySetupCommands(mac);
    ExtendedSetupCommands(config.handleBt4, 300, false, mac);
    ExtendedSetupCommands(config.handleBt5, 950, true, mac);
    Intervals();
    EnableCommands(config);
  }

  lemma NoCommands()
    ensures Commands([]) == []
  {
  }

  lemma EnableCommands(config: Config)
    ensures Commands(EnablePackets(config))
         == (if config.useBtl then [SetAdvertisingEnable(true)] else [])
            + (if config.useBt4
               then [SetExtendedEnable(true, [config.handleBt4]
                                             + if config.useBt5 then [config.handleBt5] else [])]
               else [])
            + (if config.useBt5
               then [SetExtendedEnable(true, (if config.useBt4 then [config.handleBt4] else [])
                                             + [config.handleBt5])]
               else [])
  {
    hide Parse, ExtendedEnablePacket;
    ParseAdvertisingEnable();
    if config.useBt4 || config.useBt5 {
      ParseEnable(config);
    }
  }

  /** The data commands a transmission gives, for every configuration: one for each advertiser that
      is selected, in this order, and with both extended advertisers one for each of the two sets. A
      pack goes to BT5 alone. */
  lemma TransmitCommands(config: Config, t: Transmission)
    requires Fits(t)
    ensures Commands(TransmitPackets(config, t))
         == (if t.Single? && config.useBtl then [SetAdvertisingData(AdOctets(t.counter, Body(t)))] else [])
            + (if t.Single? && config.useBt4
               then [SetExtendedData(config.handleBt4, 3, AdOctets(t.counter, Body(t)))] else [])
            + (if config.useBt5 then [SetExtendedData(config.handleBt5, 3, AdOctets(t.counter, Body(t)))] else [])
    ensures AdPayload(AdOctets(t.counter, Body(t))) == Some(Payload(t.counter, Body(t)))
  {
    hide Parse, AdOctets, AdvertisingDataPacket, ExtendedDataPacket, ExtendedPackPacket, AdPayload;
    AdRoundTrip(t.counter, Body(t));
    if t.Single? {
      ParseData(config.handleBt4, t.message, t.counter);
      ParseData(config.handleBt5, t.message, t.counter);
    } else {
      ParsePack(config.handleBt5, t.pack, t.counter);
    }
  }

  // ----- The builders, each of which fills a local buffer and hands it to the socket

  /** `for (i = 0; i < n; i++) buf[at + i] = octets[i]`, the loop of every builder with data. */
  method Fill(buf: array<byte>, at: nat, octets: seq<byte>)
    requires at + |octets| <= buf.Length
    modifies buf
    ensures buf[..at] == old(buf[..at])
    ensures buf[at..at + |octets|] == octets
    ensures buf[at + |octets|..] == old(buf[at + |octets|..])
  {
    for i := 0 to |octets|
      invariant buf[..at] == old(buf[..at])
      invariant buf[at..at + i] == octets[..i]
      invariant buf[at + i..] == old(buf[at + i..])
    {
      ghost var done := buf[at..at + i];
      buf[at + i] := octets[i];
      assert buf[at..at + i + 1] == done + [octets[i]];
    }
  }

  /** The interval as both parameter builders compute it. */
  method ClampInterval(intervalMs: int, most: int) returns (n: int)
    requires IsInterval(intervalMs) && 0x20 <= most
    ensures n == Units(intervalMs, most)
  {
    n := CDiv(1000 * intervalMs, 625);
    n := if n > 0x20 then n else 0x20;
    n := if n < most then n else most;
  }

  method BuildAdvertisingParameters(intervalMs: int) returns (params: seq<byte>)
    requires IsInterval(intervalMs)
    ensures params == AdvertisingParametersPacket(intervalMs).params
  {
    var buf := new byte[15] [0x00, 0x08, 0x00, 0x08, 3, 1, 0, 0, 0, 0, 0, 0, 0, 7, 0];
    var n := ClampInterval(intervalMs, 0x4000);
    buf[2] := Low8(n);
    buf[0] := buf[2];
    buf[3] := Low8(n / 256);
    buf[1] := buf[3];
    params := buf[..];
  }

  const EXTENDED_PARAMETERS: seq<byte> :=
    [0, 0x10, 0, 0, 8, 0, 0, 8, 0, 7, 1, 0, 0, 0, 0, 0, 0, 0, 0, 0x7F, 1, 0, 1, 0, 0]

  method BuildExtendedParameters(handle: byte, intervalMs: int, longRange: bool) returns (params: seq<byte>)
    requires IsInterval(intervalMs)
    ensures params == ExtendedParametersPacket(handle, intervalMs, longRange).params
  {
    var buf := new byte[25](i => if 0 <= i < 25 then EXTENDED_PARAMETERS[i] else 0);
    assert buf[..] == EXTENDED_PARAMETERS;
    buf[0] := handle;
    var n := ClampInterval(intervalMs, 0xFF_FFFF);
    PutInterval(buf, n);
    if longRange {
      PutLongRange(buf);
    }
    params := buf[..];
    ExtendedParameters(handle, n, longRange);
  }

  function WithInterval(s: seq<byte>, n: nat): (t: seq<byte>)
    requires |s| == 25
    ensures |t| == 25
  {
    s[3 := Low8(n)][4 := Low8(n / 0x100)][5 := Low8(n / 0x1_0000)]
     [6 := Low8(n)][7 := Low8(n / 0x100)][8 := Low8(n / 0x1_0000)]
  }

  function WithLongRange(s: seq<byte>): (t: seq<byte>)
    requires |s| == 25
  {
    s[1 := 0x00][20 := 0x03][22 := 0x03]
  }

  /** Overwriting the template gives the octets of the packet. */
  lemma ExtendedParameters(handle: byte, n: nat, longRange: bool)
    ensures ExtendedParameterOctets(handle, n, longRange)
         == if longRange then WithLongRange(WithInterval(EXTENDED_PARAMETERS[0 := handle], n))
            else WithInterval(EXTENDED_PARAMETERS[0 := handle], n)
  {
  }

  method PutLongRange(buf: array<byte>)
    requires buf.Length == 25
    modifies buf
    ensures buf[..] == WithLongRange(old(buf[..]))
  {
    buf[1] := 0x00;
    buf[20] := 0x03;
    buf[22] := 0x03;
  }

  method PutInterval(buf: array<byte>, n: nat)
    requires buf.Length == 25
    modifies buf
    ensures buf[..] == WithInterval(old(buf[..]), n)
  {
    buf[6] := Low8(n);
    buf[3] := buf[6];
    buf[7] := Low8(n / 0x100);
    buf[4] := buf[7];
    buf[8] := Low8(n / 0x1_0000);
    buf[5] := buf[8];
  }

  method BuildSetRandomAddress(handle: byte, mac: Mac) returns (params: seq<byte>)
    ensures params == SetRandomAddressPacket(handle, mac).params
  {
    var buf := new byte[7](_ => 0);
    buf[0] := handle;
    assert buf[..1] == [handle];
    Fill(buf, 1, mac);
    params := buf[..];
    assert params == buf[..1] + buf[1..7];
  }

  method BuildAdvertisingData(encoded: Message, counter: byte) returns (params: seq<byte>)
    ensures params == AdvertisingDataPacket(encoded, counter).params
    ensures AdPayload(params[1..]) == Some(Payload(counter, encoded))
  {
    var buf := new byte[32](_ => 0);
    buf[0], buf[1], buf[2], buf[3], buf[4], buf[5] := 0x1F, 0x1E, 0x16, 0xFA, 0xFF, 0x0D;
    buf[6] := counter;
    assert buf[..7] == [0x1F, 0x1E, 0x16, 0xFA, 0xFF, 0x0D, counter];
    Fill(buf, 7, encoded);
    params := buf[..];
    assert params == buf[..7] + buf[7..32];
    assert params[1..] == AdOctets(counter, encoded);
    AdRoundTrip(counter, encoded);
  }

  /** The ten octets in front of the message or the pack. */
  method BuildExtendedHead(buf: array<byte>, handle: byte, counter: byte, length: byte, adLength: byte)
    requires buf.Length >= 10
    modifies buf
    ensures buf[..10] == [handle, 3, 1, length, adLength, 0x16, 0xFA, 0xFF, 0x0D, counter]
    ensures buf[10..] == old(buf[10..])
  {
    buf[0], buf[1], buf[2], buf[3], buf[4] := handle, 3, 1, length, adLength;
    buf[5], buf[6], buf[7], buf[8], buf[9] := 0x16, 0xFA, 0xFF, 0x0D, counter;
  }

  method BuildExtendedData(handle: byte, encoded: Message, counter: byte) returns (params: seq<byte>)
    ensures params == ExtendedDataPacket(handle, encoded, counter).params
    ensures AdPayload(params[4..]) == Some(Payload(counter, encoded))
  {
    var buf := new byte[35](_ => 0);
    BuildExtendedHead(buf, handle, counter, 0x1F, 0x1E);
    Fill(buf, 10, encoded);
    params := buf[..];
    assert params == buf[..10] + buf[10..35];
    DataParams(handle, counter, encoded, params);
    AdRoundTrip(counter, encoded);
  }

  lemma DataParams(handle: byte, counter: byte, message: Message, params: seq<byte>)
    requires params == [handle, 3, 1, 0x1F, 0x1E, 0x16, 0xFA, 0xFF, 0x0D, counter] + message
    ensures params == [handle, 3, 1, 0x1F] + AdOctets(counter, message)
    ensures params[4..] == AdOctets(counter, message)
  {
  }

  method BuildExtendedPack(handle: byte, pack: Pack, counter: byte) returns (params: seq<byte>)
    requires pack[2] <= 9
    ensures params == ExtendedPackPacket(handle, pack, counter).params
    ensures params[3] <= |params| - 4
    ensures AdPayload(params[4..][..params[3]]) == Some(Payload(counter, PackBody(pack)))
  {
    var buf := new byte[10 + 3 + 9 * 25](_ => 0);
    var amount: int := pack[2];
    var body := PackBody(pack);
    assert buf[10..] == Zeros(228);
    BuildExtendedHead(buf, handle, counter, Low8(1 + 5 + 3 + amount * 25), Low8(5 + 3 + amount * 25));
    assert buf[10 + |body|..] == buf[10..][|body|..] == Zeros(228 - |body|);
    Fill(buf, 10, body);
    params := buf[..];
    PackParams(handle, counter, body, params);
    AdRoundTrip(counter, body);
  }

  lemma PackParams(handle: byte, counter: byte, body: seq<byte>, params: seq<byte>)
    requires |params| == 238 && |body| <= 228
    requires params[..10] == [handle, 3, 1, Low8(|body| + 6), Low8(|body| + 5), 0x16, 0xFA, 0xFF, 0x0D, counter]
    requires params[10..10 + |body|] == body && params[10 + |body|..] == Zeros(228 - |body|)
    ensures params == [handle, 3, 1, Low8(|body| + 6)] + AdOctets(counter, body) + Zeros(228 - |body|)
    ensures params[3] == |body| + 6 && params[4..][..params[3]] == AdOctets(counter, body)
  {
    assert params[3] == params[..10][3];
    assert params == params[..10] + params[10..10 + |body|] + params[10 + |body|..];
    assert params[..10] == [handle, 3, 1, Low8(|body| + 6)] + AdOctets(counter, body)[..6];
    assert AdOctets(counter, body) == AdOctets(counter, body)[..6] + body;
  }

  method BuildExtendedEnable(config: Config) returns (params: seq<byte>)
    ensures params == ExtendedEnablePacket(config).params
  {
    var buf := new byte[8] [1, 1, 0, 0, 0, 0, 0, 0];
    if config.useBt4 && config.useBt5 {
      buf[1] := 2;
      buf[2] := config.handleBt4;
      buf[3] := config.handleBt5;
    } else if config.useBt4 {
      buf[2] := config.handleBt4;
    } else if config.useBt5 {
      buf[2] := config.handleBt5;
    }
    params := buf[..];
  }

  /** The socket of the controller: what was written to it, in order. */
  class HciSocket {
    var sent: seq<Packet>

    constructor ()
      ensures sent == []
    {
      sent := [];
    }

    /** `send_cmd`, without the reading of the event that answers it. */
    method SendCmd(ogf: int, ocf: int, data: seq<byte>)
      modifies this
      ensures sent == old(sent) + [Packet(ogf, ocf, data)]
    {
      sent := sent + [Packet(ogf, ocf, data)];
    }

    method StopTransmit(config: Config)
      modifies this
      ensures sent == old(sent) + StopPackets(config)
    {
      SendCmd(8, 0x0A, [0]);
      SendCmd(8, 0x39, [0, 0]);
      SendCmd(8, 0x3C, [config.handleBt4]);
      SendCmd(8, 0x3C, [config.handleBt5]);
    }

    method SetUpLegacy(mac: Mac)
      modifies this
      ensures sent == old(sent) + LegacySetup(mac)
    {
      SendCmd(3, 0x03, []);
      var params := BuildAdvertisingParameters(100);
      SendCmd(8, 0x06, params);
      SendCmd(8, 0x05, mac);
    }

    method SetUpExtended(handle: byte, intervalMs: int, longRange: bool, mac: Mac)
      requires IsInterval(intervalMs)
      modifies this
      ensures sent == old(sent) + ExtendedSetup(handle, intervalMs, longRange, mac)
    {
      SendCmd(3, 0x03, []);
      var params := BuildExtendedParameters(handle, intervalMs, longRange);
      SendCmd(8, 0x36, params);
      params := BuildSetRandomAddress(handle, mac);
      SendCmd(8, 0x35, params);
    }

    method EnableExtended(config: Config)
      modifies this
      ensures sent == old(sent) + [ExtendedEnablePacket(config)]
    {
      var params := BuildExtendedEnable(config);
      SendCmd(8, 0x39, params);
    }

    method Clear(config: Config)
      modifies this
      ensures sent == old(sent) + ClearPackets(config)
    {
      SendCmd(3, 0x03, []);
      StopTransmit(config);
      SendCmd(8, 0x03, []);
    }

    method SetUp(config: Config, mac: Mac)
      modifies this
      ensures sent == old(sent) + SetupPackets(config, mac)
    {
      if config.useBtl {
        SetUpLegacy(mac);
      }
      if config.useBt4 {
        SetUpExtended(config.handleBt4, 300, false, mac);
      }
      if config.useBt5 {
        SetUpExtended(config.handleBt5, 950, true, mac);
      }
    }

    method Enable(config: Config)
      modifies this
      ensures sent == old(sent) + EnablePackets(config)
    {
      if config.useBtl {
        SendCmd(8, 0x0A, [1]);
      }
      if config.useBt4 {
        EnableExtended(config);
      }
      if config.useBt5 {
        EnableExtended(config);
      }
    }

    /** `init_bluetooth`, with the random address as a parameter. */
    method InitBluetooth(config: Config, mac: Mac)
      modifies this
      ensures sent == old(sent) + InitPackets(config, mac)
    {
      Clear(config);
      SetUp(config, mac);
      Enable(config);
    }

    /** `send_bluetooth_message` and `send_bluetooth_message_extended_api`, as `send_message`
        calls them. */
    method SendMessage(config: Config, encoded: Message, counter: byte)
      modifies this
      ensures sent == old(sent) + TransmitPackets(config, Single(encoded, counter))
      ensures Commands(sent[|old(sent)|..])
           == (if config.useBtl then [SetAdvertisingData(AdOctets(counter, encoded))] else [])
              + (if config.useBt4 then [SetExtendedData(config.handleBt4, 3, AdOctets(counter, encoded))] else [])
              + (if config.useBt5 then [SetExtendedData(config.handleBt5, 3, AdOctets(counter, encoded))] else [])
      ensures AdPayload(AdOctets(counter, encoded)) == Some(Payload(counter, encoded))
    {
      ghost var t := Single(encoded, counter);
      TransmitCommands(config, t);
      assert (sent + TransmitPackets(config, t))[|sent|..] == TransmitPackets(config, t);
      hide Commands, AdPayload, AdOctets;
      if config.useBtl {
        var params := BuildAdvertisingData(encoded, counter);
        SendCmd(8, 0x08, params);
      }
      if config.useBt4 || config.useBt5 {
        if config.useBt4 {
          var params := BuildExtendedData(config.handleBt4, encoded, counter);
          SendCmd(8, 0x37, params);
        }
        if config.useBt5 {
          var params := BuildExtendedData(config.handleBt5, encoded, counter);
          SendCmd(8, 0x37, params);
        }
      }
    }

    /** `send_bluetooth_message_pack`. */
    method SendPack(config: Config, pack: Pack, counter: byte)
      requires pack[2] <= 9
      modifies this
      ensures sent == old(sent) + TransmitPackets(config, Packed(pack, counter))
      ensures Commands(sent[|old(sent)|..])
           == if config.useBt5 then [SetExtendedData(config.handleBt5, 3, AdOctets(counter, PackBody(pack)))] else []
      ensures AdPayload(AdOctets(counter, PackBody(pack))) == Some(Payload(counter, PackBody(pack)))
    {
      ghost var t := Packed(pack, counter);
      TransmitCommands(config, t);
      assert (sent + TransmitPackets(config, t))[|sent|..] == TransmitPackets(config, t);
      hide Commands, AdPayload, AdOctets;
      if config.useBt5 {
        var params := BuildExtendedPack(config.handleBt5, pack, counter);
        SendCmd(8, 0x37, params);
      }
    }

    /** `close_bluetooth`, without the closing of the descriptor. */
    method CloseBluetooth(config: Config)
      modifies this
      ensures sent == old(sent) + StopPackets(config)
    {
      StopTransmit(config);
    }
  }
}
