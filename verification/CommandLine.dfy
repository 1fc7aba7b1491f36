/** The control interface commands of `ap_interface.c` that are built in a fixed buffer by `snprintf`. */
module CommandLine {
  import opened Octets

  /** The command meant: its name and the arguments, separated by single spaces. */
  function Join(name: string, args: seq<string>): (s: string) {
    if args == [] then name else Join(name, args[..|args| - 1]) + " " + args[|args| - 1]
  }

  /** One space and the text of every argument. */
  function ArgumentLength(args: seq<string>): (n: nat) {
    if args == [] then 0 else ArgumentLength(args[..|args| - 1]) + 1 + |args[|args| - 1]|
  }

  lemma {:induction false} JoinLength(name: string, args: seq<string>)
    ensures |Join(name, args)| == |name| + ArgumentLength(args)
  {
    if args != [] {
      JoinLength(name, args[..|args| - 1]);
    }
  }

  predicate NoNul(args: seq<string>) {
    forall i :: 0 <= i < |args| ==> '\0' !in args[i]
  }

  lemma {:induction false} JoinHasNoNul(name: string, args: seq<string>)
    requires '\0' !in name && NoNul(args)
    ensures '\0' !in Join(name, args)
  {
    if args != [] {
      JoinHasNoNul(name, args[..|args| - 1]);
    }
  }

  lemma {:induction false} JoinGrows(name: string, args: seq<string>, n: nat)
    requires n <= |args|
    ensures |Join(name, args[..n])| <= |Join(name, args)|
  {
    if n < |args| {
      JoinGrows(name, args[..|args| - 1], n);
      assert args[..|args| - 1][..n] == args[..n];
    } else {
      assert args[..n] == args;
    }
  }

  /** `os_snprintf(buf + at, sizeof(buf) - at, "%s", s)`: as much of `s` as fits in front of a NUL is
      written, and the length `s` has comes back. */
  method Snprintf(buf: array<char>, at: nat, s: string) returns (res: nat)
    requires at < buf.Length
    modifies buf
    ensures res == |s|
    ensures buf[..at] == old(buf[..at])
    ensures at + |s| < buf.Length ==> buf[at..at + |s|] == s && buf[at + |s|] == '\0'
  {
    var room := buf.Length - at - 1;
    var n := if |s| < room then |s| else room;
    for i := 0 to n
      invariant buf[..at] == old(buf[..at])
      invariant buf[at..at + i] == s[..i]
    {
      ghost var done := buf[at..at + i];
      buf[at + i] := s[i];
      assert buf[at..at + i + 1] == done + [s[i]];
    }
    buf[at + n] := '\0';
    return |s|;
  }

  /** `os_snprintf_error`. */
  predicate SnprintfError(size: int, res: int) {
    res < 0 || res >= size
  }

  /** The buffer holds `s` as a C string. */
  predicate Holds(buf: array<char>, s: string)
    reads buf
  {
    |s| < buf.Length && buf[..|s|] == s && buf[|s|] == '\0'
  }

  lemma HoldsString(buf: array<char>, s: string)
    requires Holds(buf, s) && '\0' !in s
    ensures CString(buf[..]) == s
  {
    assert buf[..] == buf[..|s|] + buf[|s|..];
    CStringOf(s, buf[|s|..]);
  }

  /** The append loop all three commands share, from argument `from` on. It succeeds exactly when the
      whole command is shorter than the buffer, and `total` never reaches the buffer's end. */
  method AppendArgs(buf: array<char>, name: string, args: seq<string>, from: nat) returns (ok: bool)
    requires from <= |args|
    requires Holds(buf, Join(name, args[..from]))
    modifies buf
    ensures ok <==> |Join(name, args)| < buf.Length
    ensures ok ==> Holds(buf, Join(name, args))
  {
    var total := |Join(name, args[..from])|;
    for i := from to |args|
      invariant total == |Join(name, args[..i])| < buf.Length
      invariant Holds(buf, Join(name, args[..i]))
    {
      ghost var before := Join(name, args[..i]);
      assert args[..i + 1][..i] == args[..i];
      assert Join(name, args[..i + 1]) == before + " " + args[i] == before + (" " + args[i]);
      var res := Snprintf(buf, total, " " + args[i]);
      if SnprintfError(buf.Length - total, res) {
        JoinGrows(name, args, i + 1);
        return false;
      }
      assert buf[..total + res] == buf[..total] + buf[total..total + res];
      total := total + res;
    }
    assert args[..|args|] == args;
    return true;
  }

  lemma JoinOne(name: string, args: seq<string>)
    requires |args| >= 1
    ensures Join(name, args[..1]) == name + " " + args[0]
  {
    assert args[..1][..0] == [];
    assert Join(name, []) == name;
  }

  lemma JoinTwo(name: string, args: seq<string>)
    requires |args| >= 2
    ensures Join(name, args[..2]) == name + " " + args[0] + " " + args[1]
  {
    JoinOne(name, args);
    assert args[..2][..1] == args[..1];
  }

  /** What a command with at least `least` arguments, built in a buffer of `size`, sends: the joined
      command if it is shorter than the buffer, nothing otherwise. */
  function Sent(name: string, args: seq<string>, least: nat, size: nat): (s: Option<string>) {
    if |args| < least || |Join(name, args)| >= size then None else Some(Join(name, args))
  }

  /** `hostapd_cli_cmd_bss_tm_req`. */
  method BssTmReq(argv: seq<string>) returns (sent: Option<string>)
    requires NoNul(argv)
    ensures sent == Sent("BSS_TM_REQ", argv, 1, 2000)
  {
    if |argv| < 1 {
      return None;
    }
    var buf := new char[2000];
    JoinOne("BSS_TM_REQ", argv);
    JoinGrows("BSS_TM_REQ", argv, 1);
    var res := Snprintf(buf, 0, "BSS_TM_REQ" + " " + argv[0]);
    if SnprintfError(buf.Length, res) {
      return None;
    }
    var ok := AppendArgs(buf, "BSS_TM_REQ", argv, 1);
    if !ok {
      return None;
    }
    JoinHasNoNul("BSS_TM_REQ", argv);
    HoldsString(buf, Join("BSS_TM_REQ", argv));
    return Some(CString(buf[..]));
  }

  /** `hostapd_cli_cmd_fst`. */
  method Fst(argv: seq<string>) returns (sent: Option<string>)
    requires NoNul(argv)
    ensures sent == Sent("FST-MANAGER", argv, 1, 256)
  {
    if |argv| <= 0 {
      return None;
    }
    var cmd := new char[256];
    var total := Snprintf(cmd, 0, "FST-MANAGER");
    assert argv[..0] == [] && Join("FST-MANAGER", []) == "FST-MANAGER";
    var ok := AppendArgs(cmd, "FST-MANAGER", argv, 0);
    if !ok {
      return None;
    }
    JoinHasNoNul("FST-MANAGER", argv);
    HoldsString(cmd, Join("FST-MANAGER", argv));
    return Some(CString(cmd[..]));
  }

  /** `hostapd_cli_cmd_chan_switch`. */
  method ChanSwitch(argv: seq<string>) returns (sent: Option<string>)
    requires NoNul(argv)
    ensures sent == Sent("CHAN_SWITCH", argv, 2, 256)
  {
    if |argv| < 2 {
      return None;
    }
    var cmd := new char[256];
    JoinTwo("CHAN_SWITCH", argv);
    JoinGrows("CHAN_SWITCH", argv, 2);
    var res := Snprintf(cmd, 0, "CHAN_SWITCH" + " " + argv[0] + " " + argv[1]);
    if SnprintfError(cmd.Length, res) {
      return None;
    }
    var ok := AppendArgs(cmd, "CHAN_SWITCH", argv, 2);
    if !ok {
      return None;
    }
    JoinHasNoNul("CHAN_SWITCH", argv);
    HoldsString(cmd, Join("CHAN_SWITCH", argv));
    return Some(CString(cmd[..]));
  }

  /** What `hostapd_cli_cmd_set` sends: it wants exactly two arguments. */
  function SetSends(args: seq<string>): (s: Option<string>) {
    if |args| == 2 then Sent("SET", args, 2, 2048) else None
  }

  /** `hostapd_cli_cmd_set`. */
  method Set(argv: seq<string>) returns (sent: Option<string>)
    requires NoNul(argv)
    ensures sent == SetSends(argv)
  {
    if |argv| != 2 {
      return None;
    }
    var cmd := new char[2048];
    JoinTwo("SET", argv);
    assert argv[..2] == argv;
    var res := Snprintf(cmd, 0, "SET" + " " + argv[0] + " " + argv[1]);
    if SnprintfError(cmd.Length, res) {
      return None;
    }
    JoinHasNoNul("SET", argv);
    HoldsString(cmd, Join("SET", argv));
    return Some(CString(cmd[..]));
  }

  /** A vendor element of any pack is never dropped for its length. */
  lemma ElementAlwaysFits(text: string)
    requires |text| <= 2 * (7 + 3 + 25 * 9)
    ensures SetSends(["vendor_elements", text]) == Some("SET vendor_elements " + text)
  {
    var args := ["vendor_elements", text];
    JoinTwo("SET", args);
    assert args[..2] == args;
    assert "SET" + " " + "vendor_elements" + " " + text == "SET vendor_elements " + text;
  }
}
