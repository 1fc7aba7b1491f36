/** The connection to hostapd in `ap_interface.c`: opening, attaching, registering with the event
    loop, and what each failure leaves behind. */
module ApInterface {
  import opened Octets

  /** The three globals and the interface name, and outside the program: the connections open, those
      hostapd sends events to, and those the event loop listens on. */
  datatype Link = Link(conn: Option<nat>, attached: bool, registered: bool, name: Option<string>,
                       open: set<nat>, peers: set<nat>, sockets: set<nat>, opens: nat, closes: nat)

  const Unconnected := Link(None, false, false, None, {}, {}, {}, 0, 0)

  /** Registered implies attached implies connected; outside, exactly the current connection is
      open, attached and listened on as the flags say. */
  predicate Consistent(l: Link) {
    && (l.registered ==> l.attached)
    && (l.attached ==> l.conn.Some?)
    && l.open == (if l.conn.Some? then {l.conn.value} else {})
    && l.peers == (if l.attached then l.open else {})
    && l.sockets == (if l.registered then l.open else {})
    && l.opens - l.closes == if l.conn.Some? then 1 else 0
  }

  predicate Balanced(l: Link) {
    && l.conn.None? && !l.attached && !l.registered
    && l.open == {} && l.peers == {} && l.sockets == {}
    && l.opens == l.closes
  }

  /** How one attempt to connect goes: whether the name is copied, whether memory for the path is
      there, the connection `wpa_ctrl_open2` returns, and whether attaching and registering succeed. */
  datatype Attempt = Attempt(copied: bool, memory: bool, result: Option<nat>,
                             attaches: bool, registers: bool)

  // ----- The effect of each operation

  function Closed(l: Link): (r: Link) {
    match l.conn
    case None => l
    case Some(h) =>
      l.(conn := None, attached := false, registered := false, open := l.open - {h},
         peers := if l.attached then l.peers - {h} else l.peers,
         sockets := if l.registered then l.sockets - {h} else l.sockets,
         closes := l.closes + 1)
  }

  /** Whether an attempt brings a connection up. */
  predicate Connects(name: Option<string>, a: Attempt) {
    name.Some? && a.copied && a.memory && a.result.Some?
  }

  function Reconnected(l: Link, name: Option<string>, a: Attempt): (r: Link) {
    var c := Closed(l);
    if name.None? then c
    else if !a.copied then c.(name := None)
    else if !Connects(name, a) then c.(name := name)
    else
      var h := a.result.value;
      c.(conn := Some(h), name := name, open := c.open + {h}, opens := c.opens + 1,
         attached := a.attaches, peers := if a.attaches then c.peers + {h} else c.peers,
         registered := a.attaches && a.registers,
         sockets := if a.attaches && a.registers then c.sockets + {h} else c.sockets)
  }

  /** The flags are consistent and the counts balance after every attempt, whatever the name and
      however the attempt goes, and it leaves a connection exactly when nothing in it fails. */
  lemma ReconnectKeepsConsistent(l: Link, name: Option<string>, a: Attempt)
    requires Consistent(l)
    ensures Consistent(Reconnected(l, name, a))
    ensures Reconnected(l, name, a).conn.Some? <==> Connects(name, a)
  {
    assert Balanced(Closed(l));
  }

  function Pinged(l: Link, answered: bool, a: Attempt): (r: Link) {
    var c := if l.conn.Some? && !answered then Closed(l) else l;
    if c.conn.None? then Reconnected(c, c.name, a) else c
  }

  /** An answered ping changes nothing. One that fails closes the connection, and without a connection,
      from the start or since then, an attempt is made under the name in use. */
  lemma PingMeans(l: Link, answered: bool, a: Attempt)
    requires Consistent(l)
    ensures l.conn.Some? && answered ==> Pinged(l, answered, a) == l
    ensures l.conn.None? || !answered ==> (Pinged(l, answered, a).conn.Some? <==> Connects(l.name, a))
    ensures Pinged(l, answered, a).closes == l.closes + if l.conn.Some? && !answered then 1 else 0
    ensures Pinged(l, answered, a).opens
         == l.opens + if (l.conn.None? || !answered) && Connects(l.name, a) then 1 else 0
  {
  }

  // ----- Runs

  /** What can happen to the link: an attempt to connect under some name, or a ping. */
  datatype Event = Connect(name: Option<string>, attempt: Attempt) | Ping(answered: bool, attempt: Attempt)

  function After(events: seq<Event>): (l: Link) {
    if events == [] then Unconnected
    else
      var l := After(events[..|events| - 1]);
      match events[|events| - 1]
      case Connect(name, a) => Reconnected(l, name, a)
      case Ping(answered, a) => Pinged(l, answered, a)
  }

  /** Under every sequence of attempts and pings the link stays consistent, and closing it, as the
      thread does at its end, balances everything. */
  lemma {:induction false} EveryRunIsConsistent(events: seq<Event>)
    ensures Consistent(After(events)) && Balanced(Closed(After(events)))
  {
    if events != [] {
      var l := After(events[..|events| - 1]);
      EveryRunIsConsistent(events[..|events| - 1]);
      match events[|events| - 1]
      case Connect(name, a) => ReconnectKeepsConsistent(l, name, a);
      case Ping(answered, a) =>
        var c := if l.conn.Some? && !answered then Closed(l) else l;
        ReconnectKeepsConsistent(c, c.name, a);
    }
  }

  // ----- The program

  /** What one iteration of the loop in `ap_interface_init` finds: an interface in the directory,
      looked for when none is known yet, and how the attempt goes. */
  datatype Try = Try(listed: Option<string>, attempt: Attempt)

  datatype Answer = Answer(answered: bool, attempt: Attempt)

  class Interface {
    var ctrlConn: Option<nat>
    var attached: bool
    var eventHandlerRegistered: bool
    var ctrlIfname: Option<string>
    var open: set<nat>
    var peers: set<nat>
    var sockets: set<nat>
    var opens: nat
    var closes: nat

    function State(): (l: Link)
      reads this
    {
      Link(ctrlConn, attached, eventHandlerRegistered, ctrlIfname, open, peers, sockets, opens, closes)
    }

    constructor ()
      ensures State() == Unconnected
    {
      ctrlConn, attached, eventHandlerRegistered, ctrlIfname := None, false, false, None;
      open, peers, sockets, opens, closes := {}, {}, {}, 0, 0;
    }

    method RegisterEventHandler(registers: bool)
      modifies `eventHandlerRegistered, `sockets
      ensures eventHandlerRegistered == if ctrlConn.Some? then registers else old(eventHandlerRegistered)
      ensures sockets == if ctrlConn.Some? && registers then old(sockets) + {ctrlConn.value} else old(sockets)
    {
      if ctrlConn.None? {
        return;
      }
      if registers {
        sockets := sockets + {ctrlConn.value};
      }
      eventHandlerRegistered := registers;
    }

    method UnregisterEventHandler()
      modifies `eventHandlerRegistered, `sockets
      ensures ctrlConn.Some? ==> !eventHandlerRegistered
      ensures ctrlConn.None? ==> eventHandlerRegistered == old(eventHandlerRegistered)
      ensures sockets == if ctrlConn.Some? && old(eventHandlerRegistered)
                         then old(sockets) - {ctrlConn.value} else old(sockets)
    {
      if ctrlConn.None? {
        return;
      }
      if eventHandlerRegistered {
        sockets := sockets - {ctrlConn.value};
        eventHandlerRegistered := false;
      }
    }

    method OpenConnection(name: Option<string>, a: Attempt) returns (conn: Option<nat>)
      requires ctrlConn.None?
      modifies `ctrlConn, `open, `opens
      ensures conn == ctrlConn == if name.Some? && a.memory then a.result else None
      ensures open == old(open) + (if conn.Some? then {conn.value} else {})
      ensures opens == old(opens) + if conn.Some? then 1 else 0
    {
      if name.None? {
        return None;
      }
      if !a.memory {
        return None;
      }
      ctrlConn := a.result;
      if ctrlConn.Some? {
        open := open + {ctrlConn.value};
        opens := opens + 1;
      }
      return ctrlConn;
    }

    method CloseConnection()
      modifies this
      ensures State() == Closed(old(State()))
      ensures old(ctrlConn).None? ==> State() == old(State())
      ensures old(ctrlConn).Some? ==>
                && ctrlConn.None? && !attached && !eventHandlerRegistered
                && open == old(open) - {old(ctrlConn).value}
                && closes == old(closes) + 1 && opens == old(opens) && ctrlIfname == old(ctrlIfname)
    {
      if ctrlConn.None? {
        return;
      }
      var h := ctrlConn.value;
      UnregisterEventHandler();
      if attached {
        peers := peers - {h};
        attached := false;
      }
      open := open - {h};
      closes := closes + 1;
      ctrlConn := None;
    }

    method Reconnect(name: Option<string>, a: Attempt) returns (ret: int)
      requires Consistent(State())
      modifies this
      ensures State() == Reconnected(old(State()), name, a)
      ensures ret == 0 <==> ctrlConn.Some?
      ensures ctrlIfname == if name.None? then old(ctrlIfname) else if a.copied then name else None
      ensures ctrlConn == if Connects(name, a) then a.result else None
      ensures attached <==> Connects(name, a) && a.attaches
      ensures eventHandlerRegistered <==> Connects(name, a) && a.attaches && a.registers
      ensures closes == old(closes) + if old(ctrlConn).Some? then 1 else 0
      ensures opens == old(opens) + if Connects(name, a) then 1 else 0
    {
      ReconnectKeepsConsistent(State(), name, a);
      CloseConnection();
      if name.None? {
        return -1;
      }
      ctrlIfname := if a.copied then name else None;
      if ctrlIfname.None? {
        return -1;
      }
      ctrlConn := OpenConnection(ctrlIfname, a);
      if ctrlConn.None? {
        return -1;
      }
      if a.attaches {
        peers := peers + {ctrlConn.value};
        attached := true;
        RegisterEventHandler(a.registers);
      }
      return 0;
    }

    method HandlePing(answered: bool, a: Attempt)
      requires Consistent(State())
      modifies this
      ensures State() == Pinged(old(State()), answered, a)
      ensures Consistent(State())
      ensures old(ctrlConn).Some? && answered ==> State() == old(State())
      ensures old(ctrlConn).Some? && !answered ==> closes == old(closes) + 1
      ensures old(ctrlConn).None? ==> closes == old(closes)
      ensures old(ctrlConn).None? || !answered ==> (ctrlConn.Some? <==> Connects(old(ctrlIfname), a))
    {
      if ctrlConn.Some? && !answered {
        CloseConnection();
      }
      ReconnectKeepsConsistent(State(), ctrlIfname, a);
      if ctrlConn.None? {
        var _ := Reconnect(ctrlIfname, a);
      }
    }

    /** The endless loop of `ap_interface_init`, as far as `tries` goes. */
    method Establish(tries: seq<Try>)
      requires Consistent(State())
      modifies this
      ensures State() == Established(old(State()), tries)
      ensures Consistent(State())
    {
      var i := 0;
      while i < |tries| && ctrlConn.None?
        invariant 0 <= i <= |tries|
        invariant Consistent(State())
        invariant Established(State(), tries[i..]) == Established(old(State()), tries)
      {
        if ctrlIfname.None? {
          ctrlIfname := tries[i].listed;
        }
        ReconnectKeepsConsistent(State(), ctrlIfname, tries[i].attempt);
        var _ := Reconnect(ctrlIfname, tries[i].attempt);
        assert tries[i..][1..] == tries[i + 1..];
        i := i + 1;
      }
    }

    /** The event loop, as far as its pings go. */
    method ServePings(pings: seq<Answer>)
      requires Consistent(State())
      modifies this
      ensures State() == Served(old(State()), pings)
      ensures Consistent(State())
    {
      for j := 0 to |pings|
        invariant Consistent(State())
        invariant State() == Served(old(State()), pings[..j])
      {
        assert pings[..j + 1][..j] == pings[..j];
        HandlePing(pings[j].answered, pings[j].attempt);
      }
      assert pings[..|pings|] == pings;
    }

    /** The clean-up behind the event loop. */
    method Finish()
      requires Consistent(State())
      modifies this
      ensures State() == Closed(old(State())) && Balanced(State())
    {
      UnregisterEventHandler();
      CloseConnection();
    }

    /** `ap_interface_init`: attempts until one succeeds, the post that tells the main thread, pings
        until the event loop is terminated, and the clean-up. Without a success it is still trying. */
    method ApInterfaceInit(tries: seq<Try>, pings: seq<Answer>) returns (posted: bool)
      requires State() == Unconnected
      modifies this
      ensures posted == Established(Unconnected, tries).conn.Some?
      ensures posted ==> State() == Closed(Served(Established(Unconnected, tries), pings))
      ensures !posted ==> State() == Established(Unconnected, tries)
      ensures Balanced(State())
    {
      Establish(tries);
      if ctrlConn.None? {
        return false;
      }
      ServePings(pings);
      Finish();
      return true;
    }
  }

  function Established(l: Link, tries: seq<Try>): (r: Link)
    decreases |tries|
  {
    if tries == [] || l.conn.Some? then l
    else
      var named := if l.name.None? then l.(name := tries[0].listed) else l;
      Established(Reconnected(named, named.name, tries[0].attempt), tries[1..])
  }

  /** The name in use at the `i`th try: the one found in the directory, kept from the try before for as
      long as it could be copied. */
  function NameAt(first: Option<string>, tries: seq<Try>, i: nat): (name: Option<string>)
    requires i < |tries|
  {
    var before := if i == 0 then first
                  else if NameAt(first, tries, i - 1).Some? && tries[i - 1].attempt.copied
                  then NameAt(first, tries, i - 1) else None;
    if before.Some? then before else tries[i].listed
  }

  lemma {:induction false} NameShift(first: Option<string>, tries: seq<Try>, i: nat)
    requires 1 <= i < |tries|
    ensures NameAt(first, tries, i)
         == NameAt(if tries[0].attempt.copied then NameAt(first, tries, 0) else None, tries[1..], i - 1)
  {
    if i > 1 {
      NameShift(first, tries, i - 1);
    }
  }

  /** The first connection comes with the first try that can connect, and there are no others: from an
      unconnected link, a connection is up in the end exactly when one of the tries connects. */
  lemma {:induction false} EstablishedIff(l: Link, tries: seq<Try>)
    requires Consistent(l) && l.conn.None?
    ensures Established(l, tries).conn.Some? <==>
            exists i :: 0 <= i < |tries| && Connects(NameAt(l.name, tries, i), tries[i].attempt)
    ensures Established(l, tries).opens == l.opens + if Established(l, tries).conn.Some? then 1 else 0
    decreases |tries|
  {
    if tries != [] {
      var named := if l.name.None? then l.(name := tries[0].listed) else l;
      var r := Reconnected(named, named.name, tries[0].attempt);
      ReconnectKeepsConsistent(named, named.name, tries[0].attempt);
      if r.conn.None? {
        EstablishedIff(r, tries[1..]);
        forall i | 1 <= i < |tries|
          ensures NameAt(l.name, tries, i) == NameAt(r.name, tries[1..], i - 1)
        {
          NameShift(l.name, tries, i);
        }
        assert forall i :: 0 <= i < |tries| - 1 ==> tries[1..][i] == tries[i + 1];
      }
    }
  }

  function Served(l: Link, pings: seq<Answer>): (r: Link) {
    if pings == [] then l
    else Pinged(Served(l, pings[..|pings| - 1]), pings[|pings| - 1].answered, pings[|pings| - 1].attempt)
  }
}
