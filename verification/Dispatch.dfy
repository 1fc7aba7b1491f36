/** `wpa_request` of `ap_interface.c`: which entry of the command table a request runs. */
module Dispatch {
  import opened Octets
  import opened CommandLine

  datatype Handler = Set | UpdateBeacon | Quit | Other

  datatype Entry = Entry(name: string, handler: Handler)

  function Lower(c: char): (d: char) {
    if 'A' <= c <= 'Z' then (c as int + 32) as char else c
  }

  /** `strncasecmp(name, query, strlen(query)) == 0`. */
  predicate Prefix(name: string, query: string) {
    |query| <= |name| && forall i :: 0 <= i < |query| ==> Lower(name[i]) == Lower(query[i])
  }

  /** `strcasecmp(name, query) == 0`. */
  predicate Exact(name: string, query: string) {
    |query| == |name| && Prefix(name, query)
  }

  datatype Lookup = Found(i: nat) | Ambiguous | Unknown

  /** The same letter up to case. */
  predicate SameLetter(c: char, d: char) {
    || c == d
    || ('A' <= c <= 'Z' && d as int == c as int + ('a' as int - 'A' as int))
    || ('A' <= d <= 'Z' && c as int == d as int + ('a' as int - 'A' as int))
  }

  lemma LowerIdentifies(c: char, d: char)
    ensures Lower(c) == Lower(d) <==> SameLetter(c, d)
  {
  }

  /** Upper and lower case are the same to the comparison, and nothing else is. */
  lemma PrefixIgnoresCase(name: string, query: string)
    ensures Prefix(name, query) <==>
            |query| <= |name| && forall i :: 0 <= i < |query| ==> SameLetter(name[i], query[i])
  {
    forall i | 0 <= i < |query| <= |name|
      ensures Lower(name[i]) == Lower(query[i]) <==> SameLetter(name[i], query[i])
    {
      LowerIdentifies(name[i], query[i]);
    }
  }

  /** What a request selects: the first exact match, otherwise the only prefix match, otherwise
      nothing. */
  ghost predicate Selects(table: seq<Entry>, query: string, r: Lookup) {
    match r
    case Found(i) =>
      && i < |table|
      && (|| (Exact(table[i].name, query) && forall j :: 0 <= j < i ==> !Exact(table[j].name, query))
          || (&& Prefix(table[i].name, query)
              && (forall j :: 0 <= j < |table| ==> !Exact(table[j].name, query))
              && (forall j :: 0 <= j < |table| && Prefix(table[j].name, query) ==> j == i)))
    case Ambiguous =>
      && (forall j :: 0 <= j < |table| ==> !Exact(table[j].name, query))
      && (exists i, j :: 0 <= i < j < |table| && Prefix(table[i].name, query) && Prefix(table[j].name, query))
    case Unknown =>
      forall j :: 0 <= j < |table| ==> !Prefix(table[j].name, query)
  }

  /** That leaves no choice, for any table and any query. */
  lemma SelectsOne(table: seq<Entry>, query: string, r: Lookup, s: Lookup)
    requires Selects(table, query, r) && Selects(table, query, s)
    ensures r == s
  {
  }

  /** `wpa_request` up to the call of the handler. */
  method WpaRequest(table: seq<Entry>, query: string) returns (r: Lookup)
    ensures Selects(table, query, r)
  {
    var found := 0;
    var count := 0;
    var cmd := 0;
    ghost var first := 0;
    while cmd < |table|
      invariant 0 <= cmd <= |table|
      invariant forall j :: 0 <= j < cmd ==> !Exact(table[j].name, query)
      invariant count == 0 ==> forall j :: 0 <= j < cmd ==> !Prefix(table[j].name, query)
      invariant count >= 1 ==> found < cmd && Prefix(table[found].name, query)
      invariant count == 1 ==> forall j :: 0 <= j < cmd && Prefix(table[j].name, query) ==> j == found
      invariant count >= 2 ==> first < found && Prefix(table[first].name, query)
    {
      if Prefix(table[cmd].name, query) {
        first := if count >= 2 then first else found;
        found := cmd;
        if Exact(table[cmd].name, query) {
          count := 1;
          break;
        }
        count := count + 1;
      }
      cmd := cmd + 1;
    }
    if count > 1 {
      return Ambiguous;
    } else if count == 0 {
      return Unknown;
    } else {
      return Found(found);
    }
  }

  lemma SelectsSome(table: seq<Entry>, query: string)
    ensures exists r :: Selects(table, query, r)
  {
    if exists i :: 0 <= i < |table| && Exact(table[i].name, query) {
      var i := FirstExact(table, query);
      assert Selects(table, query, Found(i));
    } else if exists i, j :: 0 <= i < j < |table| && Prefix(table[i].name, query) && Prefix(table[j].name, query) {
      assert Selects(table, query, Ambiguous);
    } else if exists i :: 0 <= i < |table| && Prefix(table[i].name, query) {
      var i :| 0 <= i < |table| && Prefix(table[i].name, query);
      assert Selects(table, query, Found(i));
    } else {
      assert Selects(table, query, Unknown);
    }
  }

  lemma FirstExact(table: seq<Entry>, query: string) returns (i: nat)
    requires exists k :: 0 <= k < |table| && Exact(table[k].name, query)
    ensures i < |table| && Exact(table[i].name, query)
    ensures forall j :: 0 <= j < i ==> !Exact(table[j].name, query)
  {
    i := 0;
    while !Exact(table[i].name, query)
      invariant i < |table|
      invariant forall j :: 0 <= j < i ==> !Exact(table[j].name, query)
      decreases |table| - i
    {
      if i + 1 == |table| {
        var k :| 0 <= k < |table| && Exact(table[k].name, query);
        assert k < i || k == i;
      }
      i := i + 1;
    }
  }

  /** The lookup as a function. */
  ghost function Select(table: seq<Entry>, query: string): (r: Lookup)
    ensures Selects(table, query, r)
  {
    SelectsSome(table, query);
    var r :| Selects(table, query, r);
    r
  }

  // ----- The table of hostapd_cli

  /** Which of its optional parts hostapd_cli was built with. */
  datatype Build = Build(taxonomy: bool, ieee80211w: bool, wps: bool, wpsNfc: bool, fst: bool, dpp: bool)

  function Others(names: seq<string>): (es: seq<Entry>) {
    seq(|names|, i requires 0 <= i < |names| => Entry(names[i], Other))
  }

  function Station(b: Build): (names: seq<string>) {
    ["ping", "mib", "relog", "status", "sta", "all_sta", "list_sta", "new_sta", "deauthenticate",
     "disassociate"]
    + (if b.taxonomy then ["signature"] else [])
    + (if b.ieee80211w then ["sa_query"] else [])
  }

  function Wps(b: Build): (names: seq<string>) {
    if !b.wps then []
    else ["wps_pin", "wps_check_pin", "wps_pbc", "wps_cancel"]
         + (if b.wpsNfc
            then ["wps_nfc_tag_read", "wps_nfc_config_token", "wps_nfc_token", "nfc_get_handover_sel"]
            else [])
         + ["wps_ap_pin", "wps_config", "wps_get_status"]
  }

  function Level(b: Build): (names: seq<string>) {
    ["disassoc_imminent", "ess_disassoc", "bss_tm_req", "get_config", "help", "interface"]
    + (if b.fst then ["fst"] else [])
    + ["raw", "level", "license"]
  }

  /** Between `set` and `update_beacon`. */
  function Between(b: Build): (names: seq<string>)
    ensures |names| == 10 && names[1] == "set_qos_map_set"
  {
    ["get", "set_qos_map_set", "send_qos_map_conf", "chan_switch", "hs20_wnm_notif", "hs20_deauth_req",
     "vendor", "enable", "reload", "disable"]
  }

  function Dpp(b: Build): (names: seq<string>) {
    if !b.dpp then []
    else ["dpp_qr_code", "dpp_bootstrap_gen", "dpp_bootstrap_remove", "dpp_bootstrap_get_uri",
          "dpp_bootstrap_info", "dpp_auth_init", "dpp_listen", "dpp_stop_listen", "dpp_configurator_add",
          "dpp_configurator_remove", "dpp_configurator_get_key", "dpp_configurator_sign",
          "dpp_pkex_add", "dpp_pkex_remove"]
  }

  function Late(b: Build): (names: seq<string>)
    ensures |names| > 4 && names[4] == "set_neighbor"
  {
    ["erp_flush", "log_level", "pmksa", "pmksa_flush", "set_neighbor", "remove_neighbor", "req_lci",
     "req_range", "driver_flags"]
    + Dpp(b)
    + ["accept_acl", "deny_acl", "poll_sta", "req_beacon", "reload_wpa_psk"]
  }

  function Table(b: Build): (table: seq<Entry>) {
    Others(Station(b) + Wps(b) + Level(b)) + [Entry("quit", Quit), Entry("set", Set)] + Others(Between(b))
    + [Entry("update_beacon", UpdateBeacon)] + Others(Late(b))
  }

  /** A request for one of the three commands the transmitter uses. */
  function NameOf(h: Handler): (name: string)
    requires h != Other
  {
    match h case Set => "set" case UpdateBeacon => "update_beacon" case Quit => "quit"
  }

  predicate Foreign(names: seq<string>, query: string) {
    forall i :: 0 <= i < |names| ==> !Exact(names[i], query)
  }

  /** Two names of the same length that differ in one of their first two letters. */
  predicate Differs(name: string, query: string) {
    || |name| != |query|
    || (|query| >= 2 && (Lower(name[0]) != Lower(query[0]) || Lower(name[1]) != Lower(query[1])))
  }

  lemma DiffersIsForeign(names: seq<string>, query: string)
    requires forall i :: 0 <= i < |names| ==> Differs(names[i], query)
    ensures Foreign(names, query)
  {
  }

  lemma StationForeign(b: Build, h: Handler)
    requires h != Other
    ensures Foreign(Station(b), NameOf(h))
  {
    DiffersIsForeign(Station(b), NameOf(h));
  }

  lemma WpsForeign(b: Build, h: Handler)
    requires h != Other
    ensures Foreign(Wps(b), NameOf(h))
  {
    DiffersIsForeign(Wps(b), NameOf(h));
  }

  lemma LevelForeign(b: Build, h: Handler)
    requires h != Other
    ensures Foreign(Level(b), NameOf(h))
  {
    DiffersIsForeign(Level(b), NameOf(h));
  }

  lemma BetweenForeign(b: Build, h: Handler)
    requires h != Other
    ensures Foreign(Between(b), NameOf(h))
  {
    DiffersIsForeign(Between(b), NameOf(h));
  }

  lemma DppForeign(b: Build, h: Handler)
    requires h != Other
    ensures Foreign(Dpp(b), NameOf(h))
  {
    DiffersIsForeign(Dpp(b), NameOf(h));
  }

  lemma LateForeign(b: Build, h: Handler)
    requires h != Other
    ensures Foreign(Late(b), NameOf(h))
  {
    DppForeign(b, h);
    DiffersIsForeign(Late(b), NameOf(h));
  }

  /** Every exact match of the command of `h` has `h` as its handler. */
  predicate Own(table: seq<Entry>, h: Handler)
    requires h != Other
  {
    forall i :: 0 <= i < |table| && Exact(table[i].name, NameOf(h)) ==> table[i].handler == h
  }

  lemma OwnOthers(names: seq<string>, h: Handler)
    requires h != Other && Foreign(names, NameOf(h))
    ensures Own(Others(names), h)
  {
  }

  lemma OwnAppend(a: seq<Entry>, b: seq<Entry>, h: Handler)
    requires h != Other && Own(a, h) && Own(b, h)
    ensures Own(a + b, h)
  {
  }

  lemma OwnNamed(h: Handler, k: Handler)
    requires h != Other && k != Other
    ensures Own([Entry(NameOf(k), k)], h)
  {
    if h != k {
      DiffersIsForeign([NameOf(k)], NameOf(h));
      assert [NameOf(k)][0] == NameOf(k);
    }
  }

  lemma TableOwn(b: Build, h: Handler)
    requires h != Other
    ensures Own(Table(b), h)
  {
    StationForeign(b, h);
    WpsForeign(b, h);
    LevelForeign(b, h);
    BetweenForeign(b, h);
    LateForeign(b, h);
    OwnNamed(h, Quit);
    OwnNamed(h, Set);
    OwnNamed(h, UpdateBeacon);
    hide Station, Wps, Level, Between, Late, Exact;
    var early := Station(b) + Wps(b) + Level(b);
    OwnOthers(early, h);
    OwnOthers(Between(b), h);
    OwnOthers(Late(b), h);
    var named, update := [Entry("quit", Quit)] + [Entry("set", Set)], [Entry("update_beacon", UpdateBeacon)];
    assert named == [Entry("quit", Quit), Entry("set", Set)];
    OwnAppend([Entry("quit", Quit)], [Entry("set", Set)], h);
    OwnAppend(Others(early), named, h);
    OwnAppend(Others(early) + named, Others(Between(b)), h);
    OwnAppend(Others(early) + named + Others(Between(b)), update, h);
    OwnAppend(Others(early) + named + Others(Between(b)) + update, Others(Late(b)), h);
  }

  lemma TableHas(b: Build, h: Handler) returns (i: nat)
    requires h != Other
    ensures i < |Table(b)| && Table(b)[i] == Entry(NameOf(h), h)
  {
    hide Station, Wps, Level, Between, Late;
    var n := |Station(b) + Wps(b) + Level(b)|;
    i := match h case Quit => n case Set => n + 1 case UpdateBeacon => n + 2 + |Between(b)|;
  }

  /** In every build, `set`, `update_beacon` and `quit` reach their own handlers, although `set`
      is also the beginning of two other names. */
  lemma OwnHandler(b: Build, h: Handler)
    requires h != Other
    ensures Select(Table(b), NameOf(h)).Found?
    ensures Table(b)[Select(Table(b), NameOf(h)).i].handler == h
  {
    TableOwn(b, h);
    var i := TableHas(b, h);
    assert Exact(Table(b)[i].name, NameOf(h));
  }

  /** Without the exact match `set` would be ambiguous: three names in the table begin with it. */
  lemma ThreeBeginWithSet(b: Build)
    ensures exists i, j, k :: 0 <= i < j < k < |Table(b)| && Exact(Table(b)[i].name, "set")
              && Prefix(Table(b)[j].name, "set") && Prefix(Table(b)[k].name, "set")
  {
    var n := |Station(b) + Wps(b) + Level(b)|;
    hide Station, Wps, Level, Between, Late;
    var i, j, k := n + 1, n + 3, n + 2 + |Between(b)| + 1 + 4;
    assert Table(b)[j].name == "set_qos_map_set";
    assert Table(b)[k].name == "set_neighbor";
    assert Exact(Table(b)[i].name, "set");
  }

  // ----- What a request does

  /** Whether the request posts the semaphore: `Posts` once it was answered or timed out, `Dropped`
      without a connection, `NotSent` when nothing was looked up or built. */
  datatype Effect = Posts | Dropped | NotSent | Unmodelled

  ghost function Request(b: Build, argv: seq<string>, connected: bool): (e: Effect)
    requires argv != []
  {
    match Select(Table(b), argv[0])
    case Ambiguous => NotSent
    case Unknown => NotSent
    case Found(i) =>
      match Table(b)[i].handler
      case Quit => Posts
      case UpdateBeacon => if connected then Posts else Dropped
      case Set => if SetSends(argv[1..]).None? then NotSent else if connected then Posts else Dropped
      case Other => Unmodelled
  }

  /** The requests of the transmitter. */
  datatype Command = SetElement(text: string) | Update | Stop

  function Arguments(c: Command): (argv: seq<string>)
    ensures argv != []
  {
    match c
    case SetElement(text) => ["set", "vendor_elements", text]
    case Update => ["update_beacon"]
    case Stop => ["quit"]
  }

  /** None of them is lost in the lookup or for its length: it posts, unless it needs the connection
      and there is none. */
  lemma RequestsArrive(b: Build, c: Command, connected: bool)
    requires c.SetElement? ==> |c.text| <= 470
    ensures Request(b, Arguments(c), connected) == if c.Stop? || connected then Posts else Dropped
  {
    match c
    case SetElement(text) =>
      OwnHandler(b, Set);
      ElementAlwaysFits(text);
      assert Arguments(c)[1..] == ["vendor_elements", text];
    case Update => OwnHandler(b, UpdateBeacon);
    case Stop => OwnHandler(b, Quit);
  }
}
