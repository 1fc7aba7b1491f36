/** The three threads of the transmitter as one machine: `main` with the requests it makes, the event
    loop of `ap_interface.c`, and `gps_loop`. They share the semaphore, the connection, `kill_program`
    and the location; an event is one step of one of them, and a run is any order of events that the
    machine allows. */
module Threads {
  import opened Octets
  import opened Carriers
  import opened Config
  import opened Transmit
  import Dispatch
  import WifiBeacon
  import Gps

  // ----- The program of the main thread

  /** The steps of one round of `main`'s loop. A beacon step makes two requests: the element is set,
      then the beacon is updated. */
  datatype Instr = Encode(slot: nat) | BuildPack | Beacon | Bluetooth

  function SingleProgram(config: Config, slots: nat): (p: seq<Instr>)
    requires slots <= 9
  {
    if slots == 0 then []
    else SingleProgram(config, slots - 1) + [Encode(slots - 1)]
         + (if UsesBluetooth(config) then [Bluetooth] else [])
         + (if config.useBeacon then [Beacon] else [])
  }

  function Rounds(config: Config, n: nat): (p: seq<Instr>) {
    if n == 0 then []
    else Rounds(config, n - 1)
         + (if config.useBeacon then [Beacon] else [])
         + (if config.useBt5 then [Bluetooth] else [])
  }

  function Program(config: Config): (p: seq<Instr>) {
    if config.usePacks
    then [Encode(0), Encode(1), Encode(2), Encode(3), Encode(4), Encode(5), Encode(6), Encode(7), Encode(8),
          BuildPack]
         + Rounds(config, 10)
    else SingleProgram(config, 9)
  }

  lemma {:induction false} ProgramShape(config: Config)
    ensures Beacon in Program(config) ==> config.useBeacon
    ensures forall i :: 0 <= i < |Program(config)| && Program(config)[i].Encode? ==> Program(config)[i].slot < 9
    ensures config.usePacks ==>
              && |Program(config)| >= 10
              && (forall i :: 0 <= i < 9 ==> Program(config)[i] == Encode(i))
              && Program(config)[9] == BuildPack
              && (forall i :: 10 <= i < |Program(config)| ==> Program(config)[i] in {Beacon, Bluetooth})
  {
    RoundsShape(config, 10);
    SingleShape(config, 9);
  }

  lemma {:induction false} RoundsShape(config: Config, n: nat)
    ensures forall i :: 0 <= i < |Rounds(config, n)| ==>
              Rounds(config, n)[i] == Bluetooth || (Rounds(config, n)[i] == Beacon && config.useBeacon)
  {
    if n > 0 {
      RoundsShape(config, n - 1);
    }
  }

  lemma {:induction false} SingleShape(config: Config, slots: nat)
    requires slots <= 9
    ensures forall i :: 0 <= i < |SingleProgram(config, slots)| ==>
              var c := SingleProgram(config, slots)[i];
              c == Bluetooth || (c == Beacon && config.useBeacon) || (c.Encode? && c.slot < 9)
  {
    if slots > 0 {
      SingleShape(config, slots - 1);
    }
  }

  // ----- States

  /** Where a request stands: not made yet, answered but not yet posted, or waited for. */
  datatype Call = Idle | Posting | Waiting

  datatype Main =
    | Boot
    | AwaitConnection
    | Setup
    | LoopTop
    | Sending(pc: nat, update: bool, call: Call)
    | Cleanup
    | Quitting(call: Call)
    | JoinAp
    | DestroySemaphore
    | JoinGps
    | Done

  datatype Ap =
    | NotStarted
    | Opening
    | Announcing
    | Loop
    | Selecting
    | PingPosting
    | PingAnswered
    | Reopening
    | Leaving
    | Exited

  datatype GpsThread =
    | NoThread
    | Looking(loop: Gps.Loop)
    | Polling(loop: Gps.Loop)
    | Storing(loop: Gps.Loop, fix: Gps.Fix, field: nat)
    | Ended(status: int)

  /** A transmission: the call it belongs to, the carrier, and the body it carries. */
  datatype Transmitted = Transmitted(call: nat, carrier: Instr, body: seq<byte>)

  /** What the main thread builds and transmits. `read` is, for each round of the loop so far, the
      location that went into it; `sent` is everything transmitted so far. */
  datatype Data = Data(buffer: Message, messages: seq<Message>, pack: Pack,
                       read: seq<Gps.Location>, sent: seq<Transmitted>)

  datatype State = State(main: Main, ap: Ap, gps: GpsThread, sem: nat, destroyed: bool, conn: bool,
                         terminate: bool, kill: bool, handlers: bool, location: Gps.Location, data: Data)

  datatype Env = Env(config: Config, build: Dispatch.Build, enc: Encoders, uas: Uas, ctx: Gps.Context)

  function Initial(env: Env): (s: State) {
    State(Boot, NotStarted, NoThread, 0, false, false, false, false, false, env.uas.location,
          Data(Zeros(25), [], Zeros(228), [], []))
  }

  /** The data the encoders see while the location is `l`. */
  function At(env: Env, l: Gps.Location): (uas: Uas) {
    env.uas.(location := l)
  }

  // ----- Events

  datatype Event =
    // main
    | Start | WaitDone | SetupDone | CheckKill | Advance
    | Issue(counter: byte) | Drop(counter: byte) | Lose(counter: byte) | CommandPost
    | EndRound | Finish | QuitIssue | QuitPost | JoinedAp | Destroy | JoinedGps
    // a signal, handled in any thread, by the handler of `main` or by that of the event loop
    | Signal | Interrupt
    // the event loop
    | Opened(ok: bool) | ConnectPost | Select | Woken | Timer | PingPost | Answered(ok: bool) | Reopened(ok: bool)
    | Leave | Closed
    // the GPS thread
    | Look | Poll(outcome: Gps.Outcome) | StoreField

  predicate IsPost(e: Event) {
    e.ConnectPost? || e.CommandPost? || e.PingPost? || e.QuitPost?
  }

  predicate IsRequest(e: Event) {
    e.Issue? || e.Drop? || e.Lose? || e.QuitIssue?
  }

  /** A step of a request: making it, its post, the wait for it. */
  predicate IsCall(e: Event) {
    IsRequest(e) || e.CommandPost? || e.QuitPost? || e.WaitDone?
  }

  predicate IsAp(e: Event) {
    || e.Opened? || e.ConnectPost? || e.Select? || e.Woken? || e.Timer?
    || e.PingPost? || e.Answered? || e.Reopened? || e.Leave? || e.Closed?
  }

  /** The event loop runs, with its signal handlers in place. */
  predicate Running(ap: Ap) {
    ap.Loop? || ap.Selecting? || ap.PingPosting? || ap.PingAnswered? || ap.Reopening?
  }

  predicate IsGps(e: Event) {
    e.Look? || e.Poll? || e.StoreField?
  }

  /** The body a transmission carries. */
  function CurrentBody(config: Config, d: Data): (body: seq<byte>) {
    if !config.usePacks then d.buffer else if d.pack[2] <= 9 then PackBody(d.pack) else []
  }

  /** The request the main thread is about to make. */
  function NextCommand(env: Env, s: State, counter: byte): (c: Dispatch.Command) {
    match s.main
    case Sending(_, false, _) => Dispatch.SetElement(WifiBeacon.ElementText(counter, CurrentBody(env.config, s.data)))
    case Sending(_, true, _) => Dispatch.Update
    case _ => Dispatch.Stop
  }

  ghost function EffectOf(env: Env, s: State, counter: byte): (e: Dispatch.Effect) {
    Dispatch.Request(env.build, Dispatch.Arguments(NextCommand(env, s, counter)), s.conn)
  }

  predicate AtBeacon(env: Env, s: State) {
    && s.main.Sending? && s.main.call == Idle
    && s.main.pc < |Program(env.config)| && Program(env.config)[s.main.pc] == Beacon
  }

  function Handed(config: Config, carrier: Instr, d: Data): (r: Data) {
    d.(sent := d.sent + [Transmitted(|d.read|, carrier, CurrentBody(config, d))])
  }

  /** Setting the element is the transmission, updating the beacon is not. */
  function Requested(config: Config, update: bool, d: Data): (r: Data) {
    if update then d else Handed(config, Beacon, d)
  }

  function BeginRound(l: Gps.Location, d: Data): (r: Data) {
    d.(buffer := Zeros(25), messages := [], pack := Zeros(228), read := d.read + [l])
  }

  /** One step of the program that makes no request, while the location is `l`. */
  function Work(env: Env, c: Instr, l: Gps.Location, d: Data): (r: Data) {
    match c
    case Encode(slot) =>
      if slot >= 9 then d
      else
        var m := EncodeSlot(env.enc, At(env, l), slot, d.buffer);
        d.(buffer := m, messages := d.messages + [m],
           read := if slot == 2 && d.read != [] then d.read[|d.read| - 1 := l] else d.read)
    case BuildPack => d.(pack := if |d.messages| == 9 then MakePack(env.enc, d.messages) else d.pack)
    case Bluetooth => Handed(env.config, Bluetooth, d)
    case Beacon => d
  }

  ghost function NextMain(env: Env, s: State, e: Event): (r: Option<State>) {
    var end := if env.config.useGps then JoinGps else Done;
    match e
    case Start =>
      if !s.main.Boot? then None
      else if env.config.useBeacon then Some(s.(main := AwaitConnection, ap := Opening))
      else Some(s.(main := Setup))
    case WaitDone =>
      if s.sem == 0 then None
      else if s.main == AwaitConnection then Some(s.(sem := s.sem - 1, main := Setup))
      else if s.main.Sending? && s.main.call == Waiting then
        Some(s.(sem := s.sem - 1,
                main := if s.main.update then Sending(s.main.pc + 1, false, Idle) else Sending(s.main.pc, true, Idle)))
      else if s.main == Quitting(Waiting) then Some(s.(sem := s.sem - 1, main := JoinAp))
      else None
    case SetupDone =>
      if !s.main.Setup? then None
      else if env.config.useGps
      then Some(s.(main := LoopTop, handlers := true, gps := Looking(Gps.Loop(0, 0, None))))
      else Some(s.(main := Sending(0, false, Idle), data := BeginRound(s.location, s.data)))
    case CheckKill =>
      if !s.main.LoopTop? then None
      else if s.kill then Some(s.(main := Cleanup))
      else Some(s.(main := Sending(0, false, Idle), data := BeginRound(s.location, s.data)))
    case Advance =>
      if s.main.Sending? && s.main.call == Idle && !s.main.update && s.main.pc < |Program(env.config)|
         && Program(env.config)[s.main.pc] != Beacon
      then Some(s.(main := Sending(s.main.pc + 1, false, Idle),
                   data := Work(env, Program(env.config)[s.main.pc], s.location, s.data)))
      else None
    case Issue(counter) =>
      if AtBeacon(env, s) && EffectOf(env, s, counter) == Dispatch.Posts
      then Some(s.(main := s.main.(call := Posting), data := Requested(env.config, s.main.update, s.data))) else None
    case Drop(counter) =>
      if AtBeacon(env, s) && EffectOf(env, s, counter) == Dispatch.Dropped
      then Some(s.(main := s.main.(call := Waiting), data := Requested(env.config, s.main.update, s.data))) else None
    case Lose(counter) =>
      if AtBeacon(env, s) && EffectOf(env, s, counter) in {Dispatch.NotSent, Dispatch.Unmodelled}
      then Some(s.(main := s.main.(call := Waiting), data := Requested(env.config, s.main.update, s.data))) else None
    case CommandPost =>
      if s.main.Sending? && s.main.call == Posting
      then Some(s.(sem := s.sem + 1, main := s.main.(call := Waiting))) else None
    case EndRound =>
      if s.main != Sending(|Program(env.config)|, false, Idle) then None
      else Some(s.(main := if env.config.useGps then LoopTop else Cleanup))
    case Finish =>
      if !s.main.Cleanup? then None
      else Some(s.(main := if env.config.useBeacon then Quitting(Idle) else end))
    case QuitIssue =>
      if s.main == Quitting(Idle) && EffectOf(env, s, 0) == Dispatch.Posts
      then Some(s.(main := Quitting(Posting), terminate := true)) else None
    case QuitPost =>
      if s.main != Quitting(Posting) then None else Some(s.(sem := s.sem + 1, main := Quitting(Waiting)))
    case JoinedAp => if s.main.JoinAp? && s.ap.Exited? then Some(s.(main := DestroySemaphore)) else None
    case Destroy => if s.main.DestroySemaphore? then Some(s.(destroyed := true, main := end)) else None
    case JoinedGps => if s.main.JoinGps? && s.gps.Ended? then Some(s.(main := Done)) else None
    case Signal => if s.handlers then Some(s.(kill := true)) else None
    case Interrupt => if Running(s.ap) then Some(s.(terminate := true)) else None
    case _ => None
  }

  function NextAp(s: State, e: Event): (r: Option<State>) {
    match e
    case Opened(ok) =>
      if !s.ap.Opening? then None else if ok then Some(s.(conn := true, ap := Announcing)) else Some(s)
    case ConnectPost => if s.ap.Announcing? then Some(s.(sem := s.sem + 1, ap := Loop)) else None
    case Select => if s.ap.Loop? && !s.terminate then Some(s.(ap := Selecting)) else None
    case Woken => if s.ap.Selecting? then Some(s.(ap := Loop)) else None
    case Timer => if s.ap.Selecting? then Some(s.(ap := if s.conn then PingPosting else Reopening)) else None
    case PingPost => if s.ap.PingPosting? then Some(s.(sem := s.sem + 1, ap := PingAnswered)) else None
    case Answered(ok) =>
      if !s.ap.PingAnswered? then None
      else if ok then Some(s.(ap := Loop)) else Some(s.(conn := false, ap := Reopening))
    case Reopened(ok) => if s.ap.Reopening? then Some(s.(conn := ok, ap := Loop)) else None
    case Leave => if s.ap.Loop? && s.terminate then Some(s.(ap := Leaving)) else None
    case Closed => if s.ap.Leaving? then Some(s.(conn := false, ap := Exited)) else None
    case _ => None
  }

  function NextGps(env: Env, s: State, e: Event): (r: Option<State>) {
    match e
    case Look =>
      if !s.gps.Looking? then None
      else if s.kill then Some(s.(gps := Ended(0))) else Some(s.(gps := Polling(s.gps.loop)))
    case Poll(outcome) =>
      if !s.gps.Polling? then None
      else
        var l := Gps.Iterate(s.gps.loop, Gps.Poll(false, outcome));
        if l.status.Some? then Some(s.(gps := Ended(l.status.value), kill := true))
        else if outcome.Read? then Some(s.(gps := Storing(l, outcome.fix, 0)))
        else Some(s.(gps := Looking(l)))
    case StoreField =>
      if !s.gps.Storing? || s.gps.field >= Gps.FIELDS then None
      else
        var g := s.gps;
        Some(s.(location := Gps.Store(s.location, g.fix, env.ctx, g.field),
                gps := if g.field + 1 == Gps.FIELDS then Looking(g.loop) else g.(field := g.field + 1)))
    case _ => None
  }

  ghost function Next(env: Env, s: State, e: Event): (r: Option<State>) {
    if IsAp(e) then NextAp(s, e) else if IsGps(e) then NextGps(env, s, e) else NextMain(env, s, e)
  }

  /** The `i`th event takes the `i`th state to the next. */
  ghost predicate StepAt(env: Env, es: seq<Event>, ss: seq<State>, i: nat)
    requires |ss| == |es| + 1 && i < |es|
  {
    Next(env, ss[i], es[i]) == Some(ss[i + 1])
  }

  /** A run: events the machine allows, in any order, and the states they lead through. */
  ghost predicate IsRun(env: Env, es: seq<Event>, ss: seq<State>) {
    && |ss| == |es| + 1 && ss[0] == Initial(env)
    && forall i :: 0 <= i < |es| ==> StepAt(env, es, ss, i)
  }
}
