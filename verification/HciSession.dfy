/** The sessions `bluetooth.c` holds with a controller: what the controller makes of every command
    written to it, from `init_bluetooth` to `close_bluetooth`. */
module HciSession {
  import opened Octets
  import opened Carriers
  import opened Config
  import opened Controller
  import opened Bluetooth

  // ----- Stopping

  /** From every state a controller can reach since its last reset, `stop_transmit` leaves nothing
      advertising, whatever the two handles are. */
  lemma StopSilences(history: seq<Packet>, config: Config)
    ensures !Advertising(Run(Run(Fresh, history), StopPackets(config)))
  {
    RunKeepsWellFormed(Fresh, history);
    StopSteps(Run(Fresh, history), config);
  }

  lemma StopSteps(c: Controller, config: Config)
    requires WellFormed(c)
    ensures !Advertising(Run(c, StopPackets(config)))
    ensures Run(c, StopPackets(config)).mode == if c.mode == Neutral then LegacyAdvertising else c.mode
    ensures c.mode != ExtendedAdvertising ==>
              Statuses(c, StopPackets(config)) == [Success, Disallowed, Disallowed, Disallowed]
    ensures c.mode == ExtendedAdvertising ==>
              && Statuses(c, StopPackets(config))[0] == Disallowed
              && Statuses(c, StopPackets(config))[1] == Success
              && Run(c, StopPackets(config)).sets.Keys == c.sets.Keys - {config.handleBt4, config.handleBt5}
  {
    if c.mode == ExtendedAdvertising {
      StopExtended(c, config);
    } else {
      StopLegacy(c, config);
    }
  }

  /** Without an extended advertising command since the reset, the first command is the one that
      works. */
  lemma StopLegacy(c: Controller, config: Config)
    requires WellFormed(c) && c.mode != ExtendedAdvertising
    ensures Run(c, StopPackets(config)) == c.(mode := LegacyAdvertising, enabled := false)
    ensures Statuses(c, StopPackets(config)) == [Success, Disallowed, Disallowed, Disallowed]
  {
    var d := c.(mode := LegacyAdvertising, enabled := false);
    LegacyStop(c);
    WrongMode(d, ExtendedDisablePacket);
    WrongMode(d, RemoveSetPacket(config.handleBt4));
    WrongMode(d, RemoveSetPacket(config.handleBt5));
    ParseDisable();
    hide Exec, WellFormed, ExtendedDisablePacket;
    Run4(c, StopPackets(config));
  }

  lemma LegacyStop(c: Controller)
    requires WellFormed(c) && c.mode != ExtendedAdvertising
    ensures Exec(c, AdvertisingDisablePacket) == (c.(mode := LegacyAdvertising, enabled := false), Success)
  {
    hide ParametersAllowed, LegacyPdus, Connectable;
  }

  /** A command of the family that is not in use has no effect. */
  lemma WrongMode(c: Controller, p: Packet)
    requires c.mode != Neutral && FamilyOf(Parse(p)) != Neutral && FamilyOf(Parse(p)) != c.mode
    ensures Exec(c, p) == (c, Disallowed)
  {
    hide Parse, Act;
  }

  function Disabled(sets: map<byte, AdvertisingSet>): (r: map<byte, AdvertisingSet>) {
    map h | h in sets :: sets[h].(enabled := false)
  }

  /** With one, it is the other three. */
  lemma StopExtended(c: Controller, config: Config)
    requires WellFormed(c) && c.mode == ExtendedAdvertising
    ensures Run(c, StopPackets(config))
         == c.(sets := Disabled(c.sets) - {config.handleBt4} - {config.handleBt5})
    ensures Statuses(c, StopPackets(config))[0] == Disallowed
    ensures Statuses(c, StopPackets(config))[1] == Success
  {
    var d := c.(sets := Disabled(c.sets));
    WrongMode(c, AdvertisingDisablePacket);
    DisableAll(c);
    RemoveDisabled(d, config.handleBt4);
    RemoveDisabled(d.(sets := d.sets - {config.handleBt4}), config.handleBt5);
    hide Exec, WellFormed, Disabled;
    Run4(c, StopPackets(config));
  }

  lemma DisableAll(c: Controller)
    requires c.mode == ExtendedAdvertising
    ensures Exec(c, ExtendedDisablePacket) == (c.(sets := Disabled(c.sets)), Success)
  {
    hide ParametersAllowed, LegacyPdus, Connectable;
    ParseDisable();
  }

  /** Whether the set exists or not, it does not afterwards. */
  lemma RemoveDisabled(c: Controller, handle: byte)
    requires c.mode == ExtendedAdvertising && forall h :: h in c.sets ==> !c.sets[h].enabled
    ensures Exec(c, RemoveSetPacket(handle)).0 == c.(sets := c.sets - {handle})
  {
    hide ParametersAllowed, LegacyPdus, Connectable;
    if handle !in c.sets {
      assert c.sets - {handle} == c.sets;
    }
  }

  /** Four packets, one after the other. */
  lemma Run4(c: Controller, ps: seq<Packet>)
    requires |ps| == 4
    ensures var r0 := Exec(c, ps[0]);
            var r1 := Exec(r0.0, ps[1]);
            var r2 := Exec(r1.0, ps[2]);
            var r3 := Exec(r2.0, ps[3]);
            Run(c, ps) == r3.0 && Statuses(c, ps) == [r0.1, r1.1, r2.1, r3.1]
  {
    var r0 := Exec(c, ps[0]);
    var r1 := Exec(r0.0, ps[1]);
    var r2 := Exec(r1.0, ps[2]);
    var r3 := Exec(r2.0, ps[3]);
    RunAppend(c, [ps[0]], [ps[1]]);
    RunAppend(c, [ps[0]] + [ps[1]], [ps[2]]);
    RunAppend(c, [ps[0]] + [ps[1]] + [ps[2]], [ps[3]]);
    RunOne(c, ps[0]);
    RunOne(r0.0, ps[1]);
    RunOne(r1.0, ps[2]);
    RunOne(r2.0, ps[3]);
    assert ps == [ps[0]] + [ps[1]] + [ps[2]] + [ps[3]];
  }

  lemma RunOne(c: Controller, p: Packet)
    ensures Run(c, [p]) == Exec(c, p).0 && Statuses(c, [p]) == [Exec(c, p).1]
  {
    assert Run(Exec(c, p).0, []) == Exec(c, p).0;
  }

  // ----- The whole session

  /** Packs in pack mode, single messages otherwise, and never more than nine messages in a pack. */
  predicate Matches(config: Config, ts: seq<Transmission>) {
    forall i :: 0 <= i < |ts| ==> Fits(ts[i]) && ts[i].Packed? == config.usePacks
  }

  function TransmitAll(config: Config, ts: seq<Transmission>): (ps: seq<Packet>)
    requires Matches(config, ts)
  {
    if ts == [] then []
    else TransmitAll(config, ts[..|ts| - 1]) + TransmitPackets(config, ts[|ts| - 1])
  }

  /** Everything written to the socket before `close_bluetooth`; `main` initialises Bluetooth only
      for a configuration that uses it. */
  function Session(config: Config, mac: Mac, ts: seq<Transmission>): (ps: seq<Packet>)
    requires Matches(config, ts)
  {
    if UsesBluetooth(config) then InitPackets(config, mac) + TransmitAll(config, ts) else []
  }

  predicate LastReset(ps: seq<Packet>, i: nat) {
    && i < |ps| && Parse(ps[i]).Reset?
    && forall j :: i < j < |ps| ==> !Parse(ps[j]).Reset?
  }

  /** Exactly the configured advertiser is enabled, with the PDUs it is meant to use. */
  predicate OnlyConfigured(config: Config, c: Controller) {
    && c.enabled == config.useBtl
    && c.sets.Keys == (if config.useBt4 then {config.handleBt4} else {})
                      + (if config.useBt5 then {config.handleBt5} else {})
    && (config.useBt4 ==> c.sets[config.handleBt4].enabled
                          && LegacyPdus(c.sets[config.handleBt4].properties))
    && (config.useBt5 ==> c.sets[config.handleBt5].enabled
                          && !LegacyPdus(c.sets[config.handleBt5].properties))
  }

  predicate Ready(config: Config, c: Controller) {
    && OnlyConfigured(config, c)
    && c.mode == if config.useBtl then LegacyAdvertising else ExtendedAdvertising
  }

  /** The advertising data on the air. */
  function OnAir(config: Config, c: Controller): (data: seq<byte>)
    requires OnlyConfigured(config, c)
  {
    if config.useBtl then c.data
    else if config.useBt4 then c.sets[config.handleBt4].data
    else if config.useBt5 then c.sets[config.handleBt5].data
    else []
  }

  predicate OneAdvertiser(config: Config) {
    Accepted(config) && UsesBluetooth(config) && !(config.useBt4 && config.useBt5)
  }

  /** The part of init from its last reset on. */
  function TailPackets(config: Config, mac: Mac): (ps: seq<Packet>) {
    SetupPackets(config, mac) + EnablePackets(config)
  }

  function LegacyState(own: byte, address: Option<seq<byte>>, on: bool): (c: Controller) {
    Controller(LegacyAdvertising, own, address, [], on, map[])
  }

  lemma LegacySteps(mac: Mac)
    ensures Exec(Fresh, AdvertisingParametersPacket(100)) == (LegacyState(1, None, false), Success)
    ensures Exec(LegacyState(1, None, false), RandomAddressPacket(mac)) == (LegacyState(1, Some(mac), false), Success)
    ensures Exec(LegacyState(1, Some(mac), false), AdvertisingEnablePacket)
         == (LegacyState(1, Some(mac), true), Success)
  {
    IntervalEncoding(0, 100, true);
    ParseAddress(0, mac);
    hide AdvertisingParametersPacket, RandomAddressPacket;
  }

  lemma LegacyTail(mac: Mac, c: Controller)
    ensures AllSucceed(c, LegacySetup(mac) + [AdvertisingEnablePacket])
    ensures Run(c, LegacySetup(mac) + [AdvertisingEnablePacket]) == LegacyState(1, Some(mac), true)
  {
    LegacySteps(mac);
    Run4(c, LegacySetup(mac) + [AdvertisingEnablePacket]);
  }

  function OneSet(handle: byte, longRange: bool, address: Option<seq<byte>>, on: bool): (c: Controller) {
    Controller(ExtendedAdvertising, 0, None, [], false,
               map[handle := AdvertisingSet(if longRange then 0 else 0x10, 1, address, [], on)])
  }

  lemma ParametersStep(handle: byte, ms: int, longRange: bool)
    requires IsInterval(ms)
    ensures Exec(Fresh, ExtendedParametersPacket(handle, ms, longRange))
         == (OneSet(handle, longRange, None, false), Success)
  {
    IntervalEncoding(handle, ms, longRange);
    hide ExtendedParametersPacket, Parse;
  }

  lemma AddressStep(handle: byte, longRange: bool, mac: Mac)
    ensures Exec(OneSet(handle, longRange, None, false), SetRandomAddressPacket(handle, mac))
         == (OneSet(handle, longRange, Some(mac), false), Success)
  {
    ParseAddress(handle, mac);
    hide SetRandomAddressPacket, Parse, ParametersAllowed;
    assert Exec(OneSet(handle, longRange, None, false), SetRandomAddressPacket(handle, mac)).0.sets
        == OneSet(handle, longRange, Some(mac), false).sets;
  }

  lemma ExtendedSetupSteps(handle: byte, ms: int, longRange: bool, mac: Mac)
    requires IsInterval(ms)
    ensures Exec(Fresh, ExtendedParametersPacket(handle, ms, longRange))
         == (OneSet(handle, longRange, None, false), Success)
    ensures Exec(OneSet(handle, longRange, None, false), SetRandomAddressPacket(handle, mac))
         == (OneSet(handle, longRange, Some(mac), false), Success)
  {
    hide Exec, OneSet, ExtendedParametersPacket, SetRandomAddressPacket;
    ParametersStep(handle, ms, longRange);
    AddressStep(handle, longRange, mac);
  }

  lemma EnableStep(handle: byte, longRange: bool, mac: Mac, enable: Packet)
    requires Parse(enable) == SetExtendedEnable(true, [handle])
    ensures Exec(OneSet(handle, longRange, Some(mac), false), enable)
         == (OneSet(handle, longRange, Some(mac), true), Success)
  {
    var c := OneSet(handle, longRange, Some(mac), false);
    assert forall h :: h in [handle] ==> h in c.sets && c.sets[h].address.Some?;
    assert Exec(c, enable).0.sets == OneSet(handle, longRange, Some(mac), true).sets;
  }

  lemma ExtendedTail(handle: byte, ms: int, longRange: bool, mac: Mac, enable: Packet, c: Controller)
    requires IsInterval(ms)
    requires Parse(enable) == SetExtendedEnable(true, [handle])
    ensures AllSucceed(c, ExtendedSetup(handle, ms, longRange, mac) + [enable])
    ensures Run(c, ExtendedSetup(handle, ms, longRange, mac) + [enable])
         == OneSet(handle, longRange, Some(mac), true)
  {
    ExtendedSetupSteps(handle, ms, longRange, mac);
    EnableStep(handle, longRange, mac, enable);
    Run4(c, ExtendedSetup(handle, ms, longRange, mac) + [enable]);
  }

  /** With one advertiser, the tail of init is one setup block and one enable command. */
  lemma TailShape(config: Config, mac: Mac)
    requires OneAdvertiser(config)
    ensures TailPackets(config, mac)
         == if config.useBtl then LegacySetup(mac) + [AdvertisingEnablePacket]
            else if config.useBt4
            then ExtendedSetup(config.handleBt4, 300, false, mac) + [ExtendedEnablePacket(config)]
            else ExtendedSetup(config.handleBt5, 950, true, mac) + [ExtendedEnablePacket(config)]
  {
  }

  /** The controller once init is done. */
  function Started(config: Config, mac: Mac): (c: Controller) {
    if config.useBtl then LegacyState(1, Some(mac), true)
    else OneSet(if config.useBt4 then config.handleBt4 else config.handleBt5, config.useBt5, Some(mac), true)
  }

  lemma StartedIsReady(config: Config, mac: Mac)
    requires OneAdvertiser(config)
    ensures Ready(config, Started(config, mac))
  {
    var c := Started(config, mac);
    if !config.useBtl {
      assert LegacyPdus(0x10) && !LegacyPdus(0);
    }
  }

  lemma TailRuns(config: Config, mac: Mac, c: Controller)
    requires OneAdvertiser(config)
    ensures AllSucceed(c, TailPackets(config, mac))
    ensures Run(c, TailPackets(config, mac))
         == Started(config, mac)
  {
    TailShape(config, mac);
    if config.useBtl {
      LegacyTail(mac, c);
    } else {
      ParseEnable(config);
      var none: seq<byte> := [];
      if config.useBt4 {
        assert [config.handleBt4] + none == [config.handleBt4];
        ExtendedTail(config.handleBt4, 300, false, mac, ExtendedEnablePacket(config), c);
      } else {
        assert none + [config.handleBt5] == [config.handleBt5];
        ExtendedTail(config.handleBt5, 950, true, mac, ExtendedEnablePacket(config), c);
      }
    }
  }

  lemma TransmitSucceeds(config: Config, c: Controller, t: Transmission)
    requires OneAdvertiser(config) && Ready(config, c)
    requires Fits(t) && t.Packed? == config.usePacks
    ensures |TransmitPackets(config, t)| == 1
    ensures AllSucceed(c, TransmitPackets(config, t))
    ensures Ready(config, Run(c, TransmitPackets(config, t)))
    ensures OnAir(config, Run(c, TransmitPackets(config, t))) == AdOctets(t.counter, Body(t))
  {
    var ps := TransmitPackets(config, t);
    RunOne(c, ps[0]);
    var handle := if config.useBt4 then config.handleBt4 else config.handleBt5;
    if t.Single? {
      ParseData(handle, t.message, t.counter);
    } else {
      ParsePack(handle, t.pack, t.counter);
    }
  }

  lemma AllSucceedAppend(c: Controller, a: seq<Packet>, b: seq<Packet>)
    requires AllSucceed(c, a) && AllSucceed(Run(c, a), b)
    ensures AllSucceed(c, a + b)
  {
    RunAppend(c, a, b);
  }

  lemma {:induction false} TransmitAllSucceeds(config: Config, c: Controller, ts: seq<Transmission>)
    requires OneAdvertiser(config) && Ready(config, c) && Matches(config, ts)
    ensures AllSucceed(c, TransmitAll(config, ts))
    ensures Ready(config, Run(c, TransmitAll(config, ts)))
    ensures ts != [] ==> OnAir(config, Run(c, TransmitAll(config, ts)))
                         == AdOctets(ts[|ts| - 1].counter, Body(ts[|ts| - 1]))
  {
    if ts != [] {
      var front, last := ts[..|ts| - 1], ts[|ts| - 1];
      TransmitAllSucceeds(config, c, front);
      var d := Run(c, TransmitAll(config, front));
      TransmitSucceeds(config, d, last);
      AllSucceedAppend(c, TransmitAll(config, front), TransmitPackets(config, last));
      RunAppend(c, TransmitAll(config, front), TransmitPackets(config, last));
    }
  }

  lemma {:induction false} TransmitAllHasNoReset(config: Config, ts: seq<Transmission>)
    requires Matches(config, ts)
    ensures forall i :: 0 <= i < |TransmitAll(config, ts)| ==> TransmitAll(config, ts)[i].ogf == 8
  {
    if ts != [] {
      TransmitAllHasNoReset(config, ts[..|ts| - 1]);
    }
  }

  /** Every command from init's last reset to the last transmission is carried out, exactly the
      configured advertiser is enabled then, and what is on the air reads back as the counter and
      the messages handed over last. */
  lemma SessionIsLegal(config: Config, mac: Mac, ts: seq<Transmission>, start: Controller, reset: nat)
    requires OneAdvertiser(config) && Matches(config, ts)
    requires LastReset(Session(config, mac, ts), reset)
    ensures forall i :: reset <= i < |Session(config, mac, ts)| ==>
                          Statuses(start, Session(config, mac, ts))[i] == Success
    ensures OnlyConfigured(config, Run(start, Session(config, mac, ts)))
    ensures ts != [] ==> AdPayload(OnAir(config, Run(start, Session(config, mac, ts))))
                         == Some(Payload(ts[|ts| - 1].counter, Body(ts[|ts| - 1])))
  {
    hide ClearPackets, TransmitAll, TailPackets, Session, AdPayload;
    var clear := ClearPackets(config);
    var tail := TailPackets(config, mac);
    var all := TransmitAll(config, ts);
    var c := Run(start, clear);
    SessionShape(config, mac, ts);
    TailRuns(config, mac, c);
    StartedIsReady(config, mac);
    TransmitAllSucceeds(config, Run(c, tail), ts);
    AllSucceedAppend(c, tail, all);
    RunAppend(c, tail, all);
    RunAppend(start, clear, tail + all);
    SessionResets(config, mac, ts);
    assert reset == |clear|;
    if ts != [] {
      AdRoundTrip(ts[|ts| - 1].counter, Body(ts[|ts| - 1]));
    }
  }

  lemma TailResets(config: Config, mac: Mac)
    requires OneAdvertiser(config)
    ensures |TailPackets(config, mac)| == 4 && TailPackets(config, mac)[0] == ResetPacket
    ensures forall i :: 1 <= i < 4 ==> TailPackets(config, mac)[i].ogf == 8
  {
    TailShape(config, mac);
  }

  lemma SessionShape(config: Config, mac: Mac, ts: seq<Transmission>)
    requires UsesBluetooth(config) && Matches(config, ts)
    ensures Session(config, mac, ts)
         == ClearPackets(config) + (TailPackets(config, mac) + TransmitAll(config, ts))
  {
    hide TransmitAll, ClearPackets, SetupPackets, EnablePackets;
  }

  lemma OnlyResetResets(p: Packet)
    ensures Parse(p).Reset? ==> p.ogf == 3
    ensures Parse(ResetPacket).Reset?
  {
  }

  lemma SessionResets(config: Config, mac: Mac, ts: seq<Transmission>)
    requires OneAdvertiser(config) && Matches(config, ts)
    ensures LastReset(Session(config, mac, ts), |ClearPackets(config)|)
  {
    hide TransmitAll, TailPackets, ClearPackets, Session, Parse;
    var ps := Session(config, mac, ts);
    SessionShape(config, mac, ts);
    TransmitAllHasNoReset(config, ts);
    TailResets(config, mac);
    forall i | |ClearPackets(config)| < i < |ps|
      ensures !Parse(ps[i]).Reset?
    {
      OnlyResetResets(ps[i]);
      assert ps[i].ogf == 8;
    }
    OnlyResetResets(ResetPacket);
  }

  // ----- Both extended advertisers

  predicate Enables(p: Packet) {
    Parse(p).SetExtendedEnable? && Parse(p).on
  }

  /** Every handle an enable command names exists when the command arrives. */
  predicate EnabledHandlesExist(start: Controller, ps: seq<Packet>) {
    forall i :: 0 <= i < |ps| && Enables(ps[i]) ==>
                  forall h :: h in Parse(ps[i]).handles ==> h in Run(start, ps[..i]).sets
  }

  lemma ExtendedSetupRuns(handle: byte, ms: int, longRange: bool, mac: Mac, c: Controller)
    requires IsInterval(ms)
    ensures Run(c, ExtendedSetup(handle, ms, longRange, mac)) == OneSet(handle, longRange, Some(mac), false)
  {
    var p, q := ExtendedParametersPacket(handle, ms, longRange), SetRandomAddressPacket(handle, mac);
    ExtendedSetupSteps(handle, ms, longRange, mac);
    RunAppend(c, [ResetPacket], [p]);
    RunAppend(c, [ResetPacket] + [p], [q]);
    RunOne(c, ResetPacket);
    RunOne(Fresh, p);
    RunOne(OneSet(handle, longRange, None, false), q);
    assert ExtendedSetup(handle, ms, longRange, mac) == [ResetPacket] + [p] + [q];
  }

  /** The reset in front of the second set erases the first. */
  lemma SetupLeavesOneSet(config: Config, mac: Mac, start: Controller)
    requires Accepted(config) && (config.useBt4 || config.useBt5)
    ensures Run(start, ClearPackets(config) + SetupPackets(config, mac))
         == OneSet(if config.useBt5 then config.handleBt5 else config.handleBt4, config.useBt5, Some(mac), false)
  {
    hide ClearPackets, ExtendedSetup, OneSet, Run;
    var c := Run(start, ClearPackets(config));
    RunAppend(start, ClearPackets(config), SetupPackets(config, mac));
    var bt4 := ExtendedSetup(config.handleBt4, 300, false, mac);
    var bt5 := ExtendedSetup(config.handleBt5, 950, true, mac);
    ExtendedSetupRuns(config.handleBt4, 300, false, mac, c);
    ExtendedSetupRuns(config.handleBt5, 950, true, mac, c);
    ExtendedSetupRuns(config.handleBt5, 950, true, mac, Run(c, bt4));
    RunAppend(c, bt4, bt5);
    assert SetupPackets(config, mac) == (if config.useBt4 then bt4 else []) + (if config.useBt5 then bt5 else []);
    assert bt4 + [] == bt4 && [] + bt5 == bt5;
  }

  lemma OnlyEnableEnables(p: Packet)
    ensures Enables(p) ==> p.ocf == 0x39 && p.params != [0, 0]
  {
  }

  lemma SetupOpcodes(handle: byte, ms: int, longRange: bool, mac: Mac)
    requires IsInterval(ms)
    ensures forall p :: p in LegacySetup(mac) + ExtendedSetup(handle, ms, longRange, mac) ==> p.ocf != 0x39
  {
  }

  lemma ClearOpcodes(config: Config)
    ensures forall p :: p in ClearPackets(config) ==> p.ocf != 0x39 || p.params == [0, 0]
  {
  }

  lemma SetupEnablesNothing(config: Config, mac: Mac)
    ensures forall p :: p in ClearPackets(config) + SetupPackets(config, mac) ==> !Enables(p)
  {
    ClearOpcodes(config);
    SetupOpcodes(config.handleBt4, 300, false, mac);
    SetupOpcodes(config.handleBt5, 950, true, mac);
    forall p | p in ClearPackets(config) + SetupPackets(config, mac)
      ensures !Enables(p)
    {
      OnlyEnableEnables(p);
    }
  }

  /** All the handles named by init's enable commands exist exactly when not both extended
      advertisers are selected. */
  lemma EnabledHandlesExistIff(config: Config, mac: Mac, start: Controller)
    requires Accepted(config) && (config.useBt4 || config.useBt5)
    ensures EnabledHandlesExist(start, InitPackets(config, mac)) <==> !(config.useBt4 && config.useBt5)
  {
    hide Run, ClearPackets, SetupPackets;
    var ps := InitPackets(config, mac);
    var front := ClearPackets(config) + SetupPackets(config, mac);
    var n := |front|;
    SetupLeavesOneSet(config, mac, start);
    ParseEnable(config);
    assert ps[..n] == front && ps[n] == ExtendedEnablePacket(config);
    if config.useBt4 && config.useBt5 {
      assert Parse(ps[n]).handles[0] == config.handleBt4;
      assert config.handleBt4 in Parse(ps[n]).handles && config.handleBt4 !in Run(start, ps[..n]).sets;
    } else {
      assert |ps| == n + 1;
      SetupEnablesNothing(config, mac);
      assert forall i :: 0 <= i < n ==> ps[i] == front[i] && front[i] in front;
    }
  }

  /** From position `from` on, a reset comes before every extended command. */
  predicate ResetsFirst(ps: seq<Packet>, from: nat) {
    forall i :: from <= i < |ps| && FamilyOf(Parse(ps[i])) == ExtendedAdvertising ==>
                  exists j :: from <= j < i && Parse(ps[j]).Reset?
  }

  /** That is so behind the `stop_transmit` of init. */
  lemma ResetBeforeExtended(config: Config, mac: Mac)
    requires UsesBluetooth(config)
    ensures ResetsFirst(InitPackets(config, mac), 1 + |StopPackets(config)|)
  {
    hide Parse, LegacySetup, ExtendedSetup;
    var ps := InitPackets(config, mac);
    SetupStartsWithReset(config, mac);
    OnlyResetResets(ResetPacket);
    FeaturesAreNeutral();
    assert ps[5] == FeaturesPacket && ps[6] == ResetPacket;
    assert Parse(ps[6]).Reset?;
  }

  lemma SetupStartsWithReset(config: Config, mac: Mac)
    requires UsesBluetooth(config)
    ensures SetupPackets(config, mac) != [] && SetupPackets(config, mac)[0] == ResetPacket
  {
  }

  lemma FeaturesAreNeutral()
    ensures FamilyOf(Parse(FeaturesPacket)) == FamilyOf(Parse(ResetPacket)) == Neutral
  {
  }
}
