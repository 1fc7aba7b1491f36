/** What holds in every run of the three threads, whatever the order of their steps. */
module ThreadSafety {
  import opened Octets
  import opened Config
  import opened Threads
  import Dispatch
  import WifiBeacon
  import Gps

  // ----- What each thread leaves alone

  /** The main thread only starts the other two, and sets flags it never clears. */
  lemma MainFrame(env: Env, s: State, e: Event)
    requires NextMain(env, s, e).Some?
    ensures NextMain(env, s, e).value.ap == s.ap || (e.Start? && s.main.Boot? && NextMain(env, s, e).value.ap.Opening?)
    ensures NextMain(env, s, e).value.gps == s.gps
            || (e.SetupDone? && s.main.Setup? && NextMain(env, s, e).value.gps.Looking?)
    ensures NextMain(env, s, e).value.terminate == (s.terminate || e.QuitIssue? || e.Interrupt?)
    ensures s.kill ==> NextMain(env, s, e).value.kill
    ensures s.destroyed ==> NextMain(env, s, e).value.destroyed
  {
    MainLeavesAp(env, s, e);
    MainLeavesGps(env, s, e);
    MainTerminates(env, s, e);
    MainKeepsFlags(env, s, e);
    hide NextMain;
  }

  lemma MainLeavesAp(env: Env, s: State, e: Event)
    requires NextMain(env, s, e).Some?
    ensures NextMain(env, s, e).value.ap == s.ap || (e.Start? && s.main.Boot? && NextMain(env, s, e).value.ap.Opening?)
  {
    hide Program, EffectOf, Requested, BeginRound, Work, AtBeacon;
  }

  lemma MainLeavesGps(env: Env, s: State, e: Event)
    requires NextMain(env, s, e).Some?
    ensures NextMain(env, s, e).value.gps == s.gps
            || (e.SetupDone? && s.main.Setup? && NextMain(env, s, e).value.gps.Looking?)
  {
    hide Program, EffectOf, Requested, BeginRound, Work, AtBeacon;
  }

  lemma MainTerminates(env: Env, s: State, e: Event)
    requires NextMain(env, s, e).Some?
    ensures NextMain(env, s, e).value.terminate == (s.terminate || e.QuitIssue? || e.Interrupt?)
  {
    hide Program, EffectOf, Requested, BeginRound, Work, AtBeacon;
  }

  lemma MainKeepsFlags(env: Env, s: State, e: Event)
    requires NextMain(env, s, e).Some?
    ensures s.kill ==> NextMain(env, s, e).value.kill
    ensures s.destroyed ==> NextMain(env, s, e).value.destroyed
  {
    hide Program, EffectOf, Requested, BeginRound, Work, AtBeacon;
  }

  /** The event loop only posts and keeps the connection; the GPS thread only keeps the location and
      sets `kill_program`. */
  lemma ApFrame(s: State, e: Event)
    requires IsAp(e) && NextAp(s, e).Some?
    ensures NextAp(s, e).value.sem == s.sem + Change(e) && NextAp(s, e).value.gps == s.gps
    ensures NextAp(s, e).value.kill == s.kill && NextAp(s, e).value.terminate == s.terminate
    ensures NextAp(s, e).value.destroyed == s.destroyed
  {
  }

  lemma GpsFrame(env: Env, s: State, e: Event)
    requires NextGps(env, s, e).Some?
    ensures NextGps(env, s, e).value
         == s.(gps := NextGps(env, s, e).value.gps, location := NextGps(env, s, e).value.location,
               kill := NextGps(env, s, e).value.kill)
    ensures s.kill ==> NextGps(env, s, e).value.kill
  {
    hide Gps.Store, Gps.Iterate;
  }

  /** What an event does to the semaphore. */
  function Change(e: Event): (n: int) {
    if IsPost(e) then 1 else if e.WaitDone? then -1 else 0
  }

  // ----- Which phases go together

  predicate Starting(m: Main) {
    m.Boot? || m.AwaitConnection? || m.Setup?
  }

  predicate Ending(m: Main) {
    m.Cleanup? || m.Quitting? || m.JoinAp? || m.DestroySemaphore? || m.JoinGps? || m.Done?
  }

  /** The quit request was made. */
  predicate Quit(m: Main) {
    (m.Quitting? && m.call != Idle) || m.JoinAp? || m.DestroySemaphore? || m.JoinGps? || m.Done?
  }

  predicate ApPhases(beacon: bool, s: State) {
    && (s.ap.NotStarted? <==> s.main.Boot? || !beacon)
    && (s.ap.NotStarted? ==> s.sem == 0)
    && (s.ap.Opening? || s.ap.Announcing? ==> s.main.AwaitConnection? && s.sem == 0)
    && (s.main.AwaitConnection? || s.main.Quitting? || s.main.JoinAp? || s.main.DestroySemaphore? ==> beacon)
    && (s.main.Sending? && (s.main.update || s.main.call != Idle) ==> beacon)
    && (beacon && Quit(s.main) ==> s.terminate)
    && (s.terminate ==> Running(s.ap) || s.ap.Leaving? || s.ap.Exited?)
    && (s.ap.Leaving? || s.ap.Exited? ==> s.terminate)
    && (beacon && (s.main.DestroySemaphore? || s.main.JoinGps? || s.main.Done?) ==> s.ap.Exited?)
    && (s.destroyed <==> beacon && (s.main.JoinGps? || s.main.Done?))
  }

  predicate GpsPhases(gps: bool, s: State) {
    && (s.gps.NoThread? <==> !gps || Starting(s.main))
    && (s.handlers <==> gps && !Starting(s.main))
    && (s.main.LoopTop? || s.main.JoinGps? ==> gps)
    && (gps && Ending(s.main) ==> s.kill)
    && (s.kill ==> gps && !Starting(s.main))
    && (gps && s.main.Done? ==> s.gps.Ended?)
    && (s.gps.Storing? ==> s.gps.field < Gps.FIELDS)
    && (s.gps.Looking? || s.gps.Polling? || s.gps.Storing? ==> s.gps.loop.status.None?)
  }

  predicate Phases(env: Env, s: State) {
    ApPhases(env.config.useBeacon, s) && GpsPhases(env.config.useGps, s)
  }

  lemma CallKeepsStarting(env: Env, s: State, e: Event)
    requires IsCall(e) && NextMain(env, s, e).Some?
    ensures Starting(NextMain(env, s, e).value.main) == Starting(s.main)
  {
    hide Program, EffectOf, Requested, BeginRound, Work;
  }

  lemma RoundKeepsStarting(env: Env, s: State, e: Event)
    requires !IsCall(e) && NextMain(env, s, e).Some?
    ensures Starting(NextMain(env, s, e).value.main) == (Starting(s.main) && !e.SetupDone?)
  {
    hide Program, EffectOf, Requested, BeginRound, Work, AtBeacon;
  }

  lemma BeaconNeedsOption(env: Env, s: State)
    requires AtBeacon(env, s)
    ensures env.config.useBeacon
  {
    ProgramShape(env.config);
  }

  lemma CallKeepsApPhases(env: Env, s: State, e: Event)
    requires ApPhases(env.config.useBeacon, s) && IsCall(e) && NextMain(env, s, e).Some?
    ensures ApPhases(env.config.useBeacon, NextMain(env, s, e).value)
  {
    hide Program, EffectOf, Requested, BeginRound, Work;
    if e.Issue? || e.Drop? || e.Lose? {
      BeaconNeedsOption(env, s);
    }
    hide AtBeacon;
  }

  lemma OtherKeepsApPhases(env: Env, s: State, e: Event)
    requires ApPhases(env.config.useBeacon, s) && !IsCall(e) && NextMain(env, s, e).Some?
    ensures ApPhases(env.config.useBeacon, NextMain(env, s, e).value)
  {
    hide Program, EffectOf, Requested, BeginRound, Work, AtBeacon;
  }

  lemma MainKeepsApPhases(env: Env, s: State, e: Event)
    requires ApPhases(env.config.useBeacon, s) && NextMain(env, s, e).Some?
    ensures ApPhases(env.config.useBeacon, NextMain(env, s, e).value)
  {
    hide NextMain, ApPhases;
    if IsCall(e) {
      CallKeepsApPhases(env, s, e);
    } else {
      OtherKeepsApPhases(env, s, e);
    }
  }

  lemma MainKeepsGpsPhases(env: Env, s: State, e: Event)
    requires GpsPhases(env.config.useGps, s) && NextMain(env, s, e).Some?
    ensures GpsPhases(env.config.useGps, NextMain(env, s, e).value)
  {
    hide Program, EffectOf, Requested, BeginRound, Work;
  }

  lemma ApKeepsPhases(env: Env, s: State, e: Event)
    requires Phases(env, s) && NextAp(s, e).Some?
    ensures Phases(env, NextAp(s, e).value)
  {
  }

  lemma GpsKeepsPhases(env: Env, s: State, e: Event)
    requires Phases(env, s) && NextGps(env, s, e).Some?
    ensures Phases(env, NextGps(env, s, e).value)
  {
    hide Gps.Store;
  }

  lemma NextKeepsPhases(env: Env, s: State, e: Event)
    requires Phases(env, s) && Next(env, s, e).Some?
    ensures Phases(env, Next(env, s, e).value)
  {
    hide NextMain, NextAp, NextGps, ApPhases, GpsPhases;
    if IsAp(e) {
      ApKeepsPhases(env, s, e);
    } else if IsGps(e) {
      GpsKeepsPhases(env, s, e);
    } else {
      MainKeepsApPhases(env, s, e);
      MainKeepsGpsPhases(env, s, e);
    }
  }

  lemma {:induction false} RunsKeepPhases(env: Env, es: seq<Event>, ss: seq<State>, i: nat)
    requires IsRun(env, es, ss) && i <= |es|
    ensures Phases(env, ss[i])
  {
    hide Next, Phases;
    if i > 0 {
      RunsKeepPhases(env, es, ss, i - 1);
      assert StepAt(env, es, ss, i - 1);
      NextKeepsPhases(env, ss[i - 1], es[i - 1]);
    } else {
      InitialPhases(env);
    }
  }

  lemma InitialPhases(env: Env)
    ensures Phases(env, Initial(env))
  {
  }

  // ----- The semaphore

  /** How often the events that touch the semaphore, or fail to, occur in a run. */
  datatype Tally = Tally(connects: nat, commands: nat, pings: nat, quits: nat, waits: nat, drops: nat)

  function Counted(t: Tally, e: Event): (r: Tally) {
    match e
    case ConnectPost => t.(connects := t.connects + 1)
    case CommandPost => t.(commands := t.commands + 1)
    case PingPost => t.(pings := t.pings + 1)
    case QuitPost => t.(quits := t.quits + 1)
    case WaitDone => t.(waits := t.waits + 1)
    case Drop(_) => t.(drops := t.drops + 1)
    case _ => t
  }

  /** The counts for the first `i` events. */
  function TallyOf(es: seq<Event>, i: nat): (t: Tally)
    requires i <= |es|
  {
    if i == 0 then Tally(0, 0, 0, 0, 0, 0) else Counted(TallyOf(es, i - 1), es[i - 1])
  }

  /** The value of the semaphore is what was posted less what was waited for, at every point of every
      run. */
  lemma {:induction false} SemaphoreIsConserved(env: Env, es: seq<Event>, ss: seq<State>, i: nat)
    requires IsRun(env, es, ss) && i <= |es|
    ensures var t := TallyOf(es, i); ss[i].sem + t.waits == t.connects + t.commands + t.pings + t.quits
  {
    hide Next;
    if i > 0 {
      SemaphoreIsConserved(env, es, ss, i - 1);
      assert StepAt(env, es, ss, i - 1);
      NextConserves(env, ss[i - 1], es[i - 1]);
    }
  }

  lemma MainConserves(env: Env, s: State, e: Event)
    requires NextMain(env, s, e).Some?
    ensures NextMain(env, s, e).value.sem == s.sem + Change(e)
  {
    hide Program, EffectOf, Requested, BeginRound, Work, AtBeacon;
    match e
    case WaitDone =>
    case CommandPost =>
    case QuitPost =>
    case _ =>
  }

  lemma NextConserves(env: Env, s: State, e: Event)
    requires Next(env, s, e).Some?
    ensures Next(env, s, e).value.sem == s.sem + Change(e)
  {
    hide NextMain, NextAp, NextGps;
    if IsAp(e) {
      ApFrame(s, e);
    } else if IsGps(e) {
      GpsFrame(env, s, e);
    } else {
      MainConserves(env, s, e);
    }
  }

  /** Waiting for a request of its own to be answered. */
  predicate WaitsForRequest(m: Main) {
    (m.Sending? || m.Quitting?) && m.call == Waiting
  }

  /** Past the wait for the first connection. */
  predicate Connected(beacon: bool, m: Main) {
    beacon && !m.Boot? && !m.AwaitConnection?
  }

  /** Every request resolved, posted or dropped, was waited for, but for the one waited for now. */
  predicate Accounted(beacon: bool, s: State, t: Tally) {
    && t.connects == (if s.ap.NotStarted? || s.ap.Opening? || s.ap.Announcing? then 0 else 1)
    && t.commands + t.quits + t.drops + (if Connected(beacon, s.main) then 1 else 0)
       == t.waits + (if WaitsForRequest(s.main) then 1 else 0)
    && (s.main.Quitting? ==> t.drops <= t.pings)
  }

  lemma NothingIsLost(env: Env, s: State, counter: byte)
    ensures EffectOf(env, s, counter) == Dispatch.Posts || EffectOf(env, s, counter) == Dispatch.Dropped
    ensures EffectOf(env, s, counter) == Dispatch.Dropped ==> !s.conn
    ensures s.main.Quitting? ==> EffectOf(env, s, counter) == Dispatch.Posts
  {
    hide Dispatch.Request, WifiBeacon.ElementText;
    Dispatch.RequestsArrive(env.build, NextCommand(env, s, counter), s.conn);
  }

  lemma MainAccounts(env: Env, s: State, e: Event, t: Tally)
    requires ApPhases(env.config.useBeacon, s) && Accounted(env.config.useBeacon, s, t)
    requires s.sem + t.waits == t.connects + t.commands + t.pings + t.quits
    requires NextMain(env, s, e).Some?
    ensures Accounted(env.config.useBeacon, NextMain(env, s, e).value, Counted(t, e))
    ensures !e.Lose?
  {
    if e.Lose? {
      NothingIsLost(env, s, e.counter);
    } else if e.WaitDone? {
      WaitAccounts(env, s, t);
    } else if e.Finish? {
      FinishAccounts(env, s, t);
    } else if e.Drop? || e.Issue? || IsPost(e) {
      RequestAccounts(env, s, e, t);
    } else {
      hide NextMain, Accounted, ApPhases;
      OtherAccounts(env, s, e, t);
    }
  }

  lemma RequestAccounts(env: Env, s: State, e: Event, t: Tally)
    requires Accounted(env.config.useBeacon, s, t) && NextMain(env, s, e).Some?
    requires e.Drop? || e.Issue? || IsPost(e)
    ensures Accounted(env.config.useBeacon, NextMain(env, s, e).value, Counted(t, e))
  {
    hide Program, EffectOf, Requested;
  }

  lemma OtherAccounts(env: Env, s: State, e: Event, t: Tally)
    requires ApPhases(env.config.useBeacon, s) && Accounted(env.config.useBeacon, s, t)
    requires NextMain(env, s, e).Some?
    requires !e.Lose? && !e.WaitDone? && !e.Finish? && !e.Drop? && !e.Issue? && !IsPost(e)
    ensures Accounted(env.config.useBeacon, NextMain(env, s, e).value, Counted(t, e))
  {
    hide Program, EffectOf, BeginRound, Work, AtBeacon;
  }

  lemma WaitAccounts(env: Env, s: State, t: Tally)
    requires ApPhases(env.config.useBeacon, s) && Accounted(env.config.useBeacon, s, t)
    requires NextMain(env, s, WaitDone).Some?
    ensures Accounted(env.config.useBeacon, NextMain(env, s, WaitDone).value, Counted(t, WaitDone))
  {
  }

  lemma FinishAccounts(env: Env, s: State, t: Tally)
    requires ApPhases(env.config.useBeacon, s) && Accounted(env.config.useBeacon, s, t)
    requires s.sem + t.waits == t.connects + t.commands + t.pings + t.quits
    requires NextMain(env, s, Finish).Some?
    ensures Accounted(env.config.useBeacon, NextMain(env, s, Finish).value, Counted(t, Finish))
  {
  }

  lemma ApAccounts(beacon: bool, s: State, e: Event, t: Tally)
    requires Accounted(beacon, s, t) && IsAp(e) && NextAp(s, e).Some?
    ensures Accounted(beacon, NextAp(s, e).value, Counted(t, e))
  {
  }

  lemma NextAccounts(env: Env, s: State, e: Event, t: Tally)
    requires Phases(env, s) && Accounted(env.config.useBeacon, s, t)
    requires s.sem + t.waits == t.connects + t.commands + t.pings + t.quits
    requires Next(env, s, e).Some?
    ensures Accounted(env.config.useBeacon, Next(env, s, e).value, Counted(t, e))
    ensures !e.Lose?
  {
    hide NextMain, NextAp, NextGps, ApPhases, GpsPhases;
    if IsAp(e) {
      ApAccounts(env.config.useBeacon, s, e, t);
    } else if IsGps(e) {
      GpsFrame(env, s, e);
    } else {
      MainAccounts(env, s, e, t);
    }
  }

  lemma {:induction false} RunsAccount(env: Env, es: seq<Event>, ss: seq<State>, i: nat)
    requires IsRun(env, es, ss) && i <= |es|
    ensures Accounted(env.config.useBeacon, ss[i], TallyOf(es, i))
    ensures forall j :: 0 <= j < i ==> !es[j].Lose?
  {
    hide Next, Phases, Accounted;
    if i > 0 {
      RunsAccount(env, es, ss, i - 1);
      RunsKeepPhases(env, es, ss, i - 1);
      SemaphoreIsConserved(env, es, ss, i - 1);
      assert StepAt(env, es, ss, i - 1);
      NextAccounts(env, ss[i - 1], es[i - 1], TallyOf(es, i - 1));
    } else {
      InitialAccounts(env);
    }
  }

  lemma InitialAccounts(env: Env)
    ensures Accounted(env.config.useBeacon, Initial(env), Tally(0, 0, 0, 0, 0, 0))
  {
  }

  /** Waiting, the main thread can go on exactly when the semaphore is not zero. */
  lemma WaitBlocksAtZero(env: Env, s: State)
    requires WaitsForRequest(s.main) || s.main.AwaitConnection?
    ensures Next(env, s, WaitDone).None? <==> s.sem == 0
  {
    hide Program, EffectOf, Requested, BeginRound, Work;
  }

  /** At a wait for one of its requests, the main thread is blocked exactly when more commands were
      dropped for want of a connection than pings were posted. */
  lemma BlockedIffDropsOutnumberPings(env: Env, es: seq<Event>, ss: seq<State>, i: nat)
    requires IsRun(env, es, ss) && i <= |es| && WaitsForRequest(ss[i].main)
    ensures ss[i].sem == 1 + TallyOf(es, i).pings - TallyOf(es, i).drops
    ensures ss[i].sem == 0 <==> TallyOf(es, i).drops > TallyOf(es, i).pings
  {
    hide Next, TallyOf;
    RunsAccount(env, es, ss, i);
    RunsKeepPhases(env, es, ss, i);
    SemaphoreIsConserved(env, es, ss, i);
  }

  /** No request is lost in the lookup or for its length, and the wait for the quit request never
      blocks. */
  lemma QuitNeverBlocks(env: Env, es: seq<Event>, ss: seq<State>, i: nat)
    requires IsRun(env, es, ss) && i <= |es|
    ensures WaitsForRequest(ss[i].main) && ss[i].main.Quitting? ==> ss[i].sem > 0
    ensures forall j :: 0 <= j < i ==> !es[j].Lose?
  {
    hide Next, TallyOf;
    RunsAccount(env, es, ss, i);
    RunsKeepPhases(env, es, ss, i);
    SemaphoreIsConserved(env, es, ss, i);
  }

  // ----- A run that blocks

  /** Wi-Fi alone, single messages, no GPS. */
  predicate OnlyBeacon(c: Config) {
    c.useBeacon && !UsesBluetooth(c) && !c.useGps && !c.usePacks
  }

  lemma {:induction false} FirstIsSent(config: Config, slots: nat)
    requires OnlyBeacon(config) && 1 <= slots <= 9
    ensures |SingleProgram(config, slots)| >= 2
    ensures SingleProgram(config, slots)[0] == Encode(0) && SingleProgram(config, slots)[1] == Beacon
  {
    if slots > 1 {
      FirstIsSent(config, slots - 1);
    } else {
      assert SingleProgram(config, 0) == [];
    }
  }

  const STALL: seq<Event> :=
    [Start, Opened(true), ConnectPost, WaitDone, SetupDone, Advance, Select, Timer, PingPost, Answered(false),
     Drop(0), WaitDone, Drop(0)]

  /** The states `STALL` leads through: a ping fails before the first message is set, its post serves
      the first wait, and nothing serves the second. */
  function Stalled(env: Env, i: nat): (s: State)
    requires i <= 13
  {
    var s := Initial(env);
    var begun := BeginRound(s.location, s.data);
    var encoded := Work(env, Encode(0), s.location, begun);
    var up := s.(conn := true, ap := Loop);
    match i
    case 0 => s
    case 1 => s.(main := AwaitConnection, ap := Opening)
    case 2 => s.(main := AwaitConnection, ap := Announcing, conn := true)
    case 3 => up.(main := AwaitConnection, sem := 1)
    case 4 => up.(main := Setup)
    case 5 => up.(main := Sending(0, false, Idle), data := begun)
    case 6 => up.(main := Sending(1, false, Idle), data := encoded)
    case 7 => up.(main := Sending(1, false, Idle), data := encoded, ap := Selecting)
    case 8 => up.(main := Sending(1, false, Idle), data := encoded, ap := PingPosting)
    case 9 => up.(main := Sending(1, false, Idle), data := encoded, ap := PingAnswered, sem := 1)
    case 10 => s.(main := Sending(1, false, Idle), data := encoded, ap := Reopening, sem := 1)
    case 11 => s.(main := Sending(1, false, Waiting), data := Requested(env.config, false, encoded),
                  ap := Reopening, sem := 1)
    case 12 => s.(main := Sending(1, true, Idle), data := Requested(env.config, false, encoded), ap := Reopening)
    case _ => s.(main := Sending(1, true, Waiting), data := Requested(env.config, false, encoded), ap := Reopening)
  }

  lemma StallConnects(env: Env, i: nat)
    requires OnlyBeacon(env.config) && i < 5
    ensures Next(env, Stalled(env, i), STALL[i]) == Some(Stalled(env, i + 1))
  {
    hide Program, EffectOf, BeginRound, Work, Requested, AtBeacon;
  }

  lemma StallEncodes(env: Env)
    requires OnlyBeacon(env.config)
    ensures Next(env, Stalled(env, 5), Advance) == Some(Stalled(env, 6))
  {
    FirstIsSent(env.config, 9);
    hide SingleProgram, EffectOf, BeginRound, Work, Requested, AtBeacon, NextAp, NextGps;
  }

  lemma StallPings(env: Env, i: nat)
    requires 6 <= i < 10
    ensures Next(env, Stalled(env, i), STALL[i]) == Some(Stalled(env, i + 1))
  {
    hide NextMain, NextGps, BeginRound, Work, Requested;
  }

  lemma DropStep(env: Env, s: State)
    requires AtBeacon(env, s) && !s.conn
    ensures Next(env, s, Drop(0))
         == Some(s.(main := s.main.(call := Waiting), data := Requested(env.config, s.main.update, s.data)))
  {
    hide Dispatch.Request, WifiBeacon.ElementText, Program, Requested;
    Dispatch.RequestsArrive(env.build, NextCommand(env, s, 0), s.conn);
  }

  lemma WaitStep(env: Env, s: State)
    requires s.main.Sending? && s.main.call == Waiting && !s.main.update && s.sem > 0
    ensures Next(env, s, WaitDone) == Some(s.(sem := s.sem - 1, main := Sending(s.main.pc, true, Idle)))
  {
  }

  lemma StallDrops(env: Env, i: nat)
    requires OnlyBeacon(env.config) && 10 <= i < 13
    ensures Next(env, Stalled(env, i), STALL[i]) == Some(Stalled(env, i + 1))
  {
    FirstIsSent(env.config, 9);
    hide Next, SingleProgram, BeginRound, Work, Handed;
    if i == 11 {
      WaitStep(env, Stalled(env, 11));
    } else {
      DropStep(env, Stalled(env, i));
    }
  }

  /** Waits that block do happen: there is a run whose main thread waits for a request while the
      semaphore is zero. */
  lemma WaitsCanBlock(env: Env)
    requires OnlyBeacon(env.config)
    ensures exists es: seq<Event>, ss: seq<State> ::
              IsRun(env, es, ss) && WaitsForRequest(ss[|es|].main) && ss[|es|].sem == 0
  {
    hide Next, Stalled;
    var ss := seq(14, i requires 0 <= i < 14 => Stalled(env, i));
    forall i | 0 <= i < 13
      ensures StepAt(env, STALL, ss, i)
    {
      if i < 5 {
        StallConnects(env, i);
      } else if i == 5 {
        StallEncodes(env);
      } else if i < 10 {
        StallPings(env, i);
      } else {
        StallDrops(env, i);
      }
    }
    StallEnds(env);
    assert IsRun(env, STALL, ss);
  }

  lemma StallEnds(env: Env)
    ensures Stalled(env, 0) == Initial(env)
    ensures WaitsForRequest(Stalled(env, 13).main) && Stalled(env, 13).sem == 0
  {
  }

  // ----- The order of events

  /** The first wait: no request is made before a connection was opened and announced. */
  lemma NoRequestBeforeConnection(env: Env, es: seq<Event>, ss: seq<State>, i: nat)
    requires IsRun(env, es, ss) && i < |es| && IsRequest(es[i])
    ensures exists j :: 0 <= j < i && es[j] == ConnectPost
    ensures exists j :: 0 <= j < i && es[j] == Opened(true)
  {
    hide Next, Phases;
    RunsKeepPhases(env, es, ss, i);
    assert StepAt(env, es, ss, i);
    RequestNeedsConnection(env, ss[i], es[i]);
    AnnouncedBefore(env, es, ss, i);
  }

  lemma RequestNeedsConnection(env: Env, s: State, e: Event)
    requires Phases(env, s) && Next(env, s, e).Some? && IsRequest(e)
    ensures !s.ap.NotStarted? && !s.ap.Opening? && !s.ap.Announcing?
  {
    hide Program, EffectOf, Requested, BeginRound, Work;
    if AtBeacon(env, s) {
      BeaconNeedsOption(env, s);
    }
  }

  lemma {:induction false} AnnouncedBefore(env: Env, es: seq<Event>, ss: seq<State>, i: nat)
    requires IsRun(env, es, ss) && i <= |es|
    ensures !ss[i].ap.NotStarted? && !ss[i].ap.Opening? ==> exists j :: 0 <= j < i && es[j] == Opened(true)
    ensures !ss[i].ap.NotStarted? && !ss[i].ap.Opening? && !ss[i].ap.Announcing? ==>
              exists j :: 0 <= j < i && es[j] == ConnectPost
  {
    hide Next, Phases;
    if i > 0 {
      AnnouncedBefore(env, es, ss, i - 1);
      RunsKeepPhases(env, es, ss, i - 1);
      assert StepAt(env, es, ss, i - 1);
      ApAdvances(env, ss[i - 1], es[i - 1]);
    }
  }

  lemma ApAdvances(env: Env, s: State, e: Event)
    requires Phases(env, s) && Next(env, s, e).Some?
    ensures var ap := Next(env, s, e).value.ap;
            && (s.ap.NotStarted? ==> ap.NotStarted? || ap.Opening?)
            && (s.ap.Opening? ==> ap.Opening? || (ap.Announcing? && e == Opened(true)))
            && (s.ap.Announcing? ==> ap.Announcing? || e == ConnectPost)
            && (!s.ap.NotStarted? && !s.ap.Opening? && !s.ap.Announcing? ==>
                  !ap.NotStarted? && !ap.Opening? && !ap.Announcing?)
  {
    hide NextMain, NextGps, GpsPhases;
    if IsGps(e) {
      GpsFrame(env, s, e);
    } else if !IsAp(e) {
      MainFrame(env, s, e);
    }
  }

  // ----- Shutting down

  /** What never reverts. */
  predicate Latches(s: State, r: State) {
    && (s.kill ==> r.kill) && (s.terminate ==> r.terminate) && (s.destroyed ==> r.destroyed)
    && (s.ap.Exited? ==> r.ap.Exited?) && (s.gps.Ended? ==> r.gps.Ended?)
  }

  lemma EndedStays(env: Env, s: State, e: Event)
    requires NextGps(env, s, e).Some?
    ensures !s.gps.Ended?
  {
  }

  lemma ExitedStays(s: State, e: Event)
    requires NextAp(s, e).Some?
    ensures !s.ap.Exited?
  {
  }

  lemma NextLatches(env: Env, s: State, e: Event)
    requires Phases(env, s) && Next(env, s, e).Some?
    ensures Latches(s, Next(env, s, e).value)
  {
    hide NextMain, NextAp, NextGps;
    if IsGps(e) {
      GpsFrame(env, s, e);
      EndedStays(env, s, e);
    } else if IsAp(e) {
      ApFrame(s, e);
      ExitedStays(s, e);
    } else {
      MainFrame(env, s, e);
    }
  }

  lemma {:induction false} RunLatches(env: Env, es: seq<Event>, ss: seq<State>, i: nat, j: nat)
    requires IsRun(env, es, ss) && i <= j <= |es|
    ensures Latches(ss[i], ss[j])
  {
    hide Next, Phases;
    if i < j {
      RunLatches(env, es, ss, i, j - 1);
      RunsKeepPhases(env, es, ss, j - 1);
      assert StepAt(env, es, ss, j - 1);
      NextLatches(env, ss[j - 1], es[j - 1]);
    }
  }

  /** Nothing posts the semaphore, or waits for it, once it is destroyed. */
  lemma NoPostAfterDestroy(env: Env, es: seq<Event>, ss: seq<State>, i: nat, j: nat)
    requires IsRun(env, es, ss) && i < j < |es| && es[i] == Destroy
    ensures !IsPost(es[j]) && es[j] != WaitDone
  {
    hide Next, Phases;
    assert StepAt(env, es, ss, i) && StepAt(env, es, ss, j);
    DestroyDestroys(env, ss[i]);
    RunLatches(env, es, ss, i + 1, j);
    RunsKeepPhases(env, es, ss, j);
    DestroyedIsFinal(env, ss[j], es[j]);
  }

  lemma DestroyDestroys(env: Env, s: State)
    requires Next(env, s, Destroy).Some?
    ensures Next(env, s, Destroy).value.destroyed
  {
  }

  lemma DestroyedIsFinal(env: Env, s: State, e: Event)
    requires Phases(env, s) && s.destroyed && Next(env, s, e).Some?
    ensures !IsPost(e) && e != WaitDone
  {
    hide Program, EffectOf, Requested, BeginRound, Work;
  }

  /** The event loop takes no step once it was joined, and the GPS thread none once it was. */
  lemma NoStepAfterJoin(env: Env, es: seq<Event>, ss: seq<State>, i: nat, j: nat)
    requires IsRun(env, es, ss) && i < j < |es|
    ensures es[i] == JoinedAp ==> !IsAp(es[j])
    ensures es[i] == JoinedGps ==> !IsGps(es[j])
  {
    hide Next, IsAp, IsGps;
    assert StepAt(env, es, ss, i) && StepAt(env, es, ss, j);
    RunLatches(env, es, ss, i, j);
    JoinsNeedEnds(env, ss[i]);
    NoStepAtEnd(env, ss[j], es[j]);
  }

  lemma JoinsNeedEnds(env: Env, s: State)
    ensures Next(env, s, JoinedAp).Some? ==> s.ap.Exited?
    ensures Next(env, s, JoinedGps).Some? ==> s.gps.Ended?
  {
  }

  lemma NoStepAtEnd(env: Env, s: State, e: Event)
    requires Next(env, s, e).Some?
    ensures s.ap.Exited? ==> !IsAp(e)
    ensures s.gps.Ended? ==> !IsGps(e)
  {
    hide NextMain, Gps.Store, Gps.Iterate;
  }

  /** `kill_program` never reverts, and the main thread comes to wait for the GPS thread only once it
      is set. */
  lemma KillIsFinal(env: Env, es: seq<Event>, ss: seq<State>, i: nat, j: nat)
    requires IsRun(env, es, ss) && i <= j <= |es|
    ensures ss[i].kill ==> ss[j].kill
    ensures ss[j].main.JoinGps? ==> ss[j].kill
  {
    RunLatches(env, es, ss, i, j);
    RunsKeepPhases(env, es, ss, j);
  }

  /** The steps the GPS thread has left once the program is killed. */
  function GpsRank(g: GpsThread): (n: int) {
    match g
    case NoThread => 13
    case Ended(_) => 0
    case Looking(_) => 1
    case Storing(_, _, field) => Gps.FIELDS + 1 - field
    case Polling(_) => 13
  }

  /** The steps the event loop has left once it is told to terminate. */
  function ApRank(a: Ap): (n: int) {
    match a
    case Exited => 0
    case Leaving => 1
    case Loop => 2
    case Reopening => 3
    case PingAnswered => 4
    case PingPosting => 5
    case Selecting => 6
    case _ => 7
  }

  lemma GpsStepsRunOut(env: Env, s: State, e: Event)
    requires Phases(env, s) && s.kill && !s.gps.NoThread? && Next(env, s, e).Some?
    ensures 0 <= GpsRank(Next(env, s, e).value.gps) <= GpsRank(s.gps) - if IsGps(e) then 1 else 0
    ensures !Next(env, s, e).value.gps.NoThread?
  {
    hide NextMain, NextAp, Gps.Store, ApPhases;
    if IsAp(e) {
      ApFrame(s, e);
    } else if !IsGps(e) {
      MainFrame(env, s, e);
    }
  }

  lemma ApStepsRunOut(env: Env, s: State, e: Event)
    requires Phases(env, s) && s.terminate && Next(env, s, e).Some?
    ensures 0 <= ApRank(Next(env, s, e).value.ap) <= ApRank(s.ap) - if IsAp(e) then 1 else 0
    ensures ApRank(s.ap) <= 6
  {
    hide NextMain, NextGps, GpsPhases;
    if IsGps(e) {
      GpsFrame(env, s, e);
    } else if !IsAp(e) {
      MainFrame(env, s, e);
    }
  }

  /** How many of the events from the `i`th to the `j`th are steps of the GPS thread, or of the event
      loop. */
  function GpsSteps(es: seq<Event>, i: nat, j: nat): (n: nat)
    requires j <= |es|
  {
    if j <= i then 0 else GpsSteps(es, i, j - 1) + if IsGps(es[j - 1]) then 1 else 0
  }

  function ApSteps(es: seq<Event>, i: nat, j: nat): (n: nat)
    requires j <= |es|
  {
    if j <= i then 0 else ApSteps(es, i, j - 1) + if IsAp(es[j - 1]) then 1 else 0
  }

  lemma {:induction false} GpsStepsAreBounded(env: Env, es: seq<Event>, ss: seq<State>, i: nat, j: nat)
    requires IsRun(env, es, ss) && i <= j <= |es|
    requires ss[i].kill && !ss[i].gps.NoThread?
    ensures !ss[j].gps.NoThread?
    ensures 0 <= GpsRank(ss[j].gps) <= GpsRank(ss[i].gps) - GpsSteps(es, i, j)
  {
    hide Next, Phases, GpsRank;
    RunsKeepPhases(env, es, ss, i);
    GpsRankIsNat(env, ss[i]);
    if i < j {
      GpsStepsAreBounded(env, es, ss, i, j - 1);
      RunLatches(env, es, ss, i, j - 1);
      RunsKeepPhases(env, es, ss, j - 1);
      assert StepAt(env, es, ss, j - 1);
      GpsStepsRunOut(env, ss[j - 1], es[j - 1]);
    }
  }

  lemma GpsRankIsNat(env: Env, s: State)
    requires Phases(env, s)
    ensures 0 <= GpsRank(s.gps) <= 13
  {
  }

  lemma {:induction false} ApStepsAreBounded(env: Env, es: seq<Event>, ss: seq<State>, i: nat, j: nat)
    requires IsRun(env, es, ss) && i <= j <= |es|
    requires ss[i].terminate
    ensures 0 <= ApRank(ss[j].ap) <= ApRank(ss[i].ap) - ApSteps(es, i, j)
  {
    hide Next, Phases, ApRank;
    ApRankIsNat(ss[i].ap);
    if i < j {
      ApStepsAreBounded(env, es, ss, i, j - 1);
      RunLatches(env, es, ss, i, j - 1);
      RunsKeepPhases(env, es, ss, j - 1);
      assert StepAt(env, es, ss, j - 1);
      ApStepsRunOut(env, ss[j - 1], es[j - 1]);
    }
  }

  lemma ApRankIsNat(a: Ap)
    ensures 0 <= ApRank(a)
  {
  }

  /** Neither join waits for ever. From the moment the main thread waits for the GPS thread, that
      thread makes at most 13 more steps, and it is never stuck until it has ended. */
  lemma GpsJoinIsBounded(env: Env, es: seq<Event>, ss: seq<State>, i: nat, j: nat)
    requires IsRun(env, es, ss) && i <= j <= |es| && ss[i].main.JoinGps?
    ensures GpsSteps(es, i, j) <= 13
  {
    hide Next, GpsRank;
    RunsKeepPhases(env, es, ss, i);
    GpsStepsAreBounded(env, es, ss, i, j);
    GpsRankIsNat(env, ss[i]);
  }

  lemma GpsIsNeverStuck(env: Env, s: State)
    requires Phases(env, s) && !s.gps.NoThread? && !s.gps.Ended?
    ensures exists e :: IsGps(e) && Next(env, s, e).Some?
  {
    hide NextMain, NextAp;
    if s.gps.Polling? {
      assert IsGps(Poll(Gps.NotReady)) && Next(env, s, Poll(Gps.NotReady)).Some?;
    } else if s.gps.Looking? {
      assert IsGps(Look) && Next(env, s, Look).Some?;
    } else {
      assert IsGps(StoreField) && Next(env, s, StoreField).Some?;
    }
  }

  /** The same for the event loop, with at most 6 more steps. */
  lemma ApJoinIsBounded(env: Env, es: seq<Event>, ss: seq<State>, i: nat, j: nat)
    requires IsRun(env, es, ss) && i <= j <= |es| && ss[i].main.JoinAp?
    ensures ApSteps(es, i, j) <= 6
  {
    hide Next;
    RunsKeepPhases(env, es, ss, i);
    ApStepsAreBounded(env, es, ss, i, j);
  }

  lemma ApIsNeverStuck(env: Env, s: State)
    requires Phases(env, s) && s.terminate && !s.ap.Exited?
    ensures exists e :: IsAp(e) && Next(env, s, e).Some?
  {
    hide NextMain, NextGps;
    match s.ap
    case Selecting => assert IsAp(Woken) && Next(env, s, Woken).Some?;
    case PingPosting => assert IsAp(PingPost) && Next(env, s, PingPost).Some?;
    case PingAnswered => assert IsAp(Answered(true)) && Next(env, s, Answered(true)).Some?;
    case Reopening => assert IsAp(Reopened(true)) && Next(env, s, Reopened(true)).Some?;
    case Loop => assert IsAp(Leave) && Next(env, s, Leave).Some?;
    case Leaving => assert IsAp(Closed) && Next(env, s, Closed).Some?;
    case _ =>
  }
}
