/** The advertising half of a Bluetooth controller, after sections 3.1.1 and 7.8 of Vol 4 Part E
    of the Bluetooth Core Specification: which commands it carries out, which it rejects, and what
    it advertises. It reads the octets of the commands it is given. */
module Controller {
  import opened Octets

  /** A command as it is sent: opcode group, opcode and parameter octets. */
  datatype Packet = Packet(ogf: int, ocf: int, params: seq<byte>)

  /** The type and the six octets of a peer address. */
  datatype Peer = Peer(kind: byte, address: seq<byte>)

  datatype Command =
    | Reset
    | ReadFeatures
    | SetRandomAddress(address: seq<byte>)
    | SetAdvertisingParameters(min: int, max: int, kind: byte, ownAddressType: byte, peer: Peer,
                               channels: byte, filterPolicy: byte)
    | SetAdvertisingData(data: seq<byte>)
    | SetAdvertisingEnable(on: bool)
    | SetAdvertisingSetRandomAddress(handle: byte, address: seq<byte>)
    | SetExtendedParameters(handle: byte, properties: int, min: int, max: int, channels: byte,
                            ownAddressType: byte, peer: Peer, filterPolicy: byte, power: byte,
                            primaryPhy: byte, maxSkip: byte, secondaryPhy: byte, sid: byte,
                            notifications: byte)
    | SetExtendedData(handle: byte, operation: byte, data: seq<byte>)
    | SetExtendedEnable(on: bool, handles: seq<byte>)
    | RemoveSet(handle: byte)
    | Unknown

  function Le16(s: seq<byte>, at: nat): (n: nat)
    requires at + 2 <= |s|
  {
    s[at] as int + 0x100 * s[at + 1] as int
  }

  function Le24(s: seq<byte>, at: nat): (n: nat)
    requires at + 3 <= |s|
  {
    Le16(s, at) + 0x1_0000 * s[at + 2] as int
  }

  /** The command a packet stands for. Opcode group 3 is the controller and baseband group, 8 the
      LE group. The handles of the enable command follow its count. */
  function Parse(p: Packet): (c: Command) {
    var s := p.params;
    if p.ogf == 3 && p.ocf == 0x03 then Reset
    else if p.ogf != 8 then Unknown
    else if p.ocf == 0x03 then ReadFeatures
    else if p.ocf == 0x05 && |s| == 6 then SetRandomAddress(s)
    else if p.ocf == 0x06 && |s| == 15 then
      SetAdvertisingParameters(Le16(s, 0), Le16(s, 2), s[4], s[5], Peer(s[6], s[7..13]), s[13], s[14])
    else if p.ocf == 0x08 && |s| == 32 && s[0] <= 31 then SetAdvertisingData(s[1..][..s[0]])
    else if p.ocf == 0x0A && |s| == 1 then SetAdvertisingEnable(s[0] == 1)
    else if p.ocf == 0x35 && |s| == 7 then SetAdvertisingSetRandomAddress(s[0], s[1..])
    else if p.ocf == 0x36 && |s| == 25 then
      SetExtendedParameters(s[0], Le16(s, 1), Le24(s, 3), Le24(s, 6), s[9], s[10], Peer(s[11], s[12..18]),
                            s[18], s[19], s[20], s[21], s[22], s[23], s[24])
    else if p.ocf == 0x37 && |s| >= 4 && s[3] <= |s| - 4 then
      SetExtendedData(s[0], s[1], s[4..][..s[3]])
    else if p.ocf == 0x39 && |s| >= 2 && s[1] <= |s| - 2 then
      SetExtendedEnable(s[0] == 1, s[2..][..s[1]])
    else if p.ocf == 0x3C && |s| == 1 then RemoveSet(s[0])
    else Unknown
  }

  /** The commands a sequence of packets stands for. */
  function Commands(ps: seq<Packet>): (cs: seq<Command>)
    ensures |cs| == |ps|
  {
    seq(|ps|, i requires 0 <= i < |ps| => Parse(ps[i]))
  }

  lemma CommandsAppend(a: seq<Packet>, b: seq<Packet>)
    ensures Commands(a + b) == Commands(a) + Commands(b)
  {
  }

  datatype Family = Neutral | LegacyAdvertising | ExtendedAdvertising

  function FamilyOf(c: Command): (f: Family) {
    match c
    case SetAdvertisingParameters(_, _, _, _, _, _, _) => LegacyAdvertising
    case SetAdvertisingData(_) => LegacyAdvertising
    case SetAdvertisingEnable(_) => LegacyAdvertising
    case SetAdvertisingSetRandomAddress(_, _) => ExtendedAdvertising
    case SetExtendedParameters(_, _, _, _, _, _, _, _, _, _, _, _, _, _) => ExtendedAdvertising
    case SetExtendedData(_, _, _) => ExtendedAdvertising
    case SetExtendedEnable(_, _) => ExtendedAdvertising
    case RemoveSet(_) => ExtendedAdvertising
    case _ => Neutral
  }

  datatype Status = Success | UnknownCommand | Disallowed | InvalidParameters | UnknownIdentifier

  datatype AdvertisingSet = AdvertisingSet(properties: int, ownAddressType: byte,
                                           address: Option<seq<byte>>, data: seq<byte>, enabled: bool)

  /** `mode` is the family of the first advertising command since the last reset. */
  datatype Controller = Controller(mode: Family, ownAddressType: byte, address: Option<seq<byte>>,
                                   data: seq<byte>, enabled: bool, sets: map<byte, AdvertisingSet>)

  const Fresh := Controller(Neutral, 0, None, [], false, map[])

  predicate LegacyPdus(properties: int) {
    properties / 16 % 2 == 1
  }

  predicate Connectable(properties: int) {
    properties % 2 == 1
  }

  /** The parameters section 7.8.53 allows: legacy PDUs in the five combinations listed and on the
      1M PHY only, extended PDUs not both connectable and scannable and not high duty cycle. */
  predicate ParametersAllowed(properties: int, min: int, max: int, channels: byte, primaryPhy: byte,
                              secondaryPhy: byte) {
    && 0x20 <= min <= max && 1 <= channels <= 7 && 1 <= secondaryPhy <= 3
    && (if LegacyPdus(properties) then properties in {0x10, 0x12, 0x13, 0x15, 0x1D} && primaryPhy == 1
        else properties % 4 != 3 && properties / 8 % 2 == 0 && primaryPhy in {1, 3})
  }

  function Act(c: Controller, cmd: Command): (r: (Controller, Status)) {
    match cmd
    case Reset => (Fresh, Success)
    case ReadFeatures => (c, Success)
    case SetRandomAddress(a) =>
      if c.enabled then (c, Disallowed) else (c.(address := Some(a)), Success)
    case SetAdvertisingParameters(min, max, kind, own, _, channels, _) =>
      if c.enabled then (c, Disallowed)
      else if !(0x20 <= min <= max <= 0x4000) || kind > 4 || !(1 <= channels <= 7) then (c, InvalidParameters)
      else (c.(ownAddressType := own), Success)
    case SetAdvertisingData(d) => (c.(data := d), Success)
    case SetAdvertisingEnable(on) =>
      if on && c.ownAddressType == 1 && c.address.None? then (c, InvalidParameters)
      else (c.(enabled := on), Success)
    case SetAdvertisingSetRandomAddress(h, a) =>
      if h !in c.sets then (c, UnknownIdentifier)
      else if c.sets[h].enabled && Connectable(c.sets[h].properties) then (c, Disallowed)
      else (c.(sets := c.sets[h := c.sets[h].(address := Some(a))]), Success)
    case SetExtendedParameters(h, properties, min, max, channels, own, _, _, _, phy, _, secondPhy, _, _) =>
      if h in c.sets && c.sets[h].enabled then (c, Disallowed)
      else if !ParametersAllowed(properties, min, max, channels, phy, secondPhy) then (c, InvalidParameters)
      else if h in c.sets && LegacyPdus(properties) && |c.sets[h].data| > 31 then (c, InvalidParameters)
      else
        var known := if h in c.sets then c.sets[h] else AdvertisingSet(0, 0, None, [], false);
        (c.(sets := c.sets[h := known.(properties := properties, ownAddressType := own)]), Success)
    case SetExtendedData(h, op, d) =>
      if h !in c.sets then (c, UnknownIdentifier)
      else if LegacyPdus(c.sets[h].properties) && (op != 3 || |d| > 31) then (c, InvalidParameters)
      else if c.sets[h].enabled && op != 3 && op != 4 then (c, Disallowed)
      else if op > 4 || |d| > 251 then (c, InvalidParameters)
      else
        var data := if op == 3 || op == 1 then d else if op == 4 then c.sets[h].data else c.sets[h].data + d;
        (c.(sets := c.sets[h := c.sets[h].(data := data)]), Success)
    case SetExtendedEnable(on, hs) =>
      if !on && hs == [] then (c.(sets := map h | h in c.sets :: c.sets[h].(enabled := false)), Success)
      else if hs == [] || exists i, j :: 0 <= i < j < |hs| && hs[i] == hs[j] then (c, InvalidParameters)
      else if exists h :: h in hs && h !in c.sets then (c, UnknownIdentifier)
      else if on && exists h :: h in hs && c.sets[h].ownAddressType == 1 && c.sets[h].address.None?
        then (c, InvalidParameters)
      else
        (c.(sets := map h | h in c.sets :: if h in hs then c.sets[h].(enabled := on) else c.sets[h]),
         Success)
    case RemoveSet(h) =>
      if h !in c.sets then (c, UnknownIdentifier)
      else if c.sets[h].enabled then (c, Disallowed)
      else (c.(sets := c.sets - {h}), Success)
    case Unknown => (c, UnknownCommand)
  }

  /** Section 3.1.1: once a command of one family was given, those of the other are disallowed. */
  function Exec(c: Controller, p: Packet): (r: (Controller, Status)) {
    var cmd := Parse(p);
    var f := FamilyOf(cmd);
    if f == Neutral then Act(c, cmd)
    else if c.mode != Neutral && c.mode != f then (c, Disallowed)
    else Act(c.(mode := f), cmd)
  }

  function Run(c: Controller, ps: seq<Packet>): (r: Controller)
    decreases |ps|
  {
    if ps == [] then c else Run(Exec(c, ps[0]).0, ps[1..])
  }

  function Statuses(c: Controller, ps: seq<Packet>): (ss: seq<Status>)
    ensures |ss| == |ps|
    decreases |ps|
  {
    if ps == [] then [] else [Exec(c, ps[0]).1] + Statuses(Exec(c, ps[0]).0, ps[1..])
  }

  predicate AllSucceed(c: Controller, ps: seq<Packet>) {
    forall i :: 0 <= i < |ps| ==> Statuses(c, ps)[i] == Success
  }

  lemma {:induction false} RunAppend(c: Controller, a: seq<Packet>, b: seq<Packet>)
    ensures Run(c, a + b) == Run(Run(c, a), b)
    ensures Statuses(c, a + b) == Statuses(c, a) + Statuses(Run(c, a), b)
    decreases |a|
  {
    if a == [] {
      assert a + b == b;
    } else {
      assert (a + b)[1..] == a[1..] + b;
      RunAppend(Exec(c, a[0]).0, a[1..], b);
    }
  }

  predicate Advertising(c: Controller) {
    c.enabled || exists h :: h in c.sets && c.sets[h].enabled
  }

  /** What every controller that started from a reset keeps. */
  predicate WellFormed(c: Controller) {
    && (c.mode != LegacyAdvertising ==> !c.enabled)
    && (c.mode != ExtendedAdvertising ==> c.sets == map[])
  }

  lemma {:induction false} RunKeepsWellFormed(c: Controller, ps: seq<Packet>)
    requires WellFormed(c)
    ensures WellFormed(Run(c, ps))
    decreases |ps|
  {
    if ps != [] {
      ExecKeepsWellFormed(c, ps[0]);
      RunKeepsWellFormed(Exec(c, ps[0]).0, ps[1..]);
    }
  }

  lemma ExecKeepsWellFormed(c: Controller, p: Packet)
    requires WellFormed(c)
    ensures WellFormed(Exec(c, p).0)
  {
  }
}
