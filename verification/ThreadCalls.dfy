/** What each round of the main loop transmits, in every interleaving: which messages, how often, on
    which carriers, and from which location. */
module ThreadCalls {
  import opened Octets
  import opened Carriers
  import opened Config
  import opened Threads
  import opened ThreadSafety
  import ThreadPacks
  import T = Transmit
  import Gps

  // ----- The program of a round

  predicate IsCarrier(c: Instr) {
    c == Beacon || c == Bluetooth
  }

  function Encodes(p: seq<Instr>): (n: nat) {
    if p == [] then 0 else Encodes(p[..|p| - 1]) + if p[|p| - 1].Encode? then 1 else 0
  }

  /** The body handed over once `p` was carried out from the data with location `l`. */
  function BodyAfter(env: Env, l: Gps.Location, p: seq<Instr>): (body: seq<byte>) {
    if env.config.usePacks then ThreadPacks.BodyOf(env, l)
    else if Encodes(p) <= 9 then T.Buffer(env.enc, At(env, l), Encodes(p)) else []
  }

  /** What carrying out `p` hands to a carrier. */
  function Emitted(env: Env, l: Gps.Location, p: seq<Instr>, carrier: Instr): (bodies: seq<seq<byte>>) {
    if p == [] then []
    else
      var front := p[..|p| - 1];
      Emitted(env, l, front, carrier) + if p[|p| - 1] == carrier then [BodyAfter(env, l, front)] else []
  }

  lemma EmittedOne(env: Env, l: Gps.Location, p: seq<Instr>, c: Instr, carrier: Instr)
    ensures Emitted(env, l, p + [c], carrier)
         == Emitted(env, l, p, carrier) + if c == carrier then [BodyAfter(env, l, p)] else []
    ensures Encodes(p + [c]) == Encodes(p) + if c.Encode? then 1 else 0
  {
    assert (p + [c])[..|p|] == p;
    hide BodyAfter;
  }

  /** Whether a configuration transmits on a carrier. */
  predicate Uses(config: Config, carrier: Instr) {
    || (carrier == Beacon && config.useBeacon)
    || (carrier == Bluetooth && if config.usePacks then config.useBt5 else UsesBluetooth(config))
  }

  function Copies(body: seq<byte>, n: nat): (bodies: seq<seq<byte>>)
    ensures |bodies| == n
  {
    seq(n, _ => body)
  }

  /** What one round hands to a carrier it uses: the nine messages, or the pack ten times. */
  function WholeCall(env: Env, l: Gps.Location): (bodies: seq<seq<byte>>) {
    if env.config.usePacks then Copies(ThreadPacks.BodyOf(env, l), 10)
    else T.Messages(env.enc, At(env, l))
  }

  /** One slot of single mode. */
  lemma SlotEmits(env: Env, l: Gps.Location, p: seq<Instr>, slot: nat, carrier: Instr)
    requires !env.config.usePacks && slot < 9 && Encodes(p) == slot && IsCarrier(carrier)
    ensures var q := p + [Encode(slot)]
                     + (if UsesBluetooth(env.config) then [Bluetooth] else [])
                     + (if env.config.useBeacon then [Beacon] else []);
            && Encodes(q) == slot + 1
            && Emitted(env, l, q, carrier)
               == Emitted(env, l, p, carrier)
                  + if Uses(env.config, carrier) then [T.Buffer(env.enc, At(env, l), slot + 1)] else []
  {
    hide T.Buffer, Emitted, Encodes;
    var q := p + [Encode(slot)];
    EmittedOne(env, l, p, Encode(slot), carrier);
    EmittedOne(env, l, q, Bluetooth, carrier);
    EmittedOne(env, l, q, Beacon, carrier);
    EmittedOne(env, l, q + [Bluetooth], Beacon, carrier);
    assert q + [] == q && q + [Bluetooth] + [] == q + [Bluetooth];
  }

  lemma {:induction false} SinglesEmit(env: Env, l: Gps.Location, slots: nat, carrier: Instr)
    requires !env.config.usePacks && slots <= 9 && IsCarrier(carrier)
    ensures Encodes(SingleProgram(env.config, slots)) == slots
    ensures Emitted(env, l, SingleProgram(env.config, slots), carrier)
         == if Uses(env.config, carrier) then T.Messages(env.enc, At(env, l))[..slots] else []
  {
    hide Emitted, Encodes, T.Buffer;
    if slots > 0 {
      SinglesEmit(env, l, slots - 1, carrier);
      SlotEmits(env, l, SingleProgram(env.config, slots - 1), slots - 1, carrier);
      ThreadPacks.MessagesGrow(env, l, slots - 1);
    } else {
      NothingEmits(env, l, carrier);
    }
  }

  lemma NothingEmits(env: Env, l: Gps.Location, carrier: Instr)
    ensures Emitted(env, l, [], carrier) == [] && Encodes([]) == 0
  {
  }

  lemma {:induction false} SilentEmits(env: Env, l: Gps.Location, p: seq<Instr>, carrier: Instr)
    requires carrier !in p
    ensures Emitted(env, l, p, carrier) == []
  {
    if p != [] {
      SilentEmits(env, l, p[..|p| - 1], carrier);
    }
  }

  /** One round of pack mode. */
  lemma RoundEmits(env: Env, l: Gps.Location, p: seq<Instr>, carrier: Instr)
    requires env.config.usePacks && IsCarrier(carrier)
    ensures Emitted(env, l, p + (if env.config.useBeacon then [Beacon] else [])
                            + (if env.config.useBt5 then [Bluetooth] else []), carrier)
         == Emitted(env, l, p, carrier)
            + if Uses(env.config, carrier) then [ThreadPacks.BodyOf(env, l)] else []
  {
    hide Emitted, ThreadPacks.BodyOf;
    EmittedOne(env, l, p, Beacon, carrier);
    EmittedOne(env, l, p, Bluetooth, carrier);
    EmittedOne(env, l, p + [Beacon], Bluetooth, carrier);
    assert p + [] == p && p + [Beacon] + [] == p + [Beacon];
  }

  lemma RoundsGrow(config: Config, p: seq<Instr>, n: nat)
    requires n > 0
    ensures p + Rounds(config, n)
         == (p + Rounds(config, n - 1)) + (if config.useBeacon then [Beacon] else [])
            + (if config.useBt5 then [Bluetooth] else [])
  {
  }

  lemma {:induction false} RoundsEmit(env: Env, l: Gps.Location, p: seq<Instr>, n: nat, carrier: Instr)
    requires env.config.usePacks && IsCarrier(carrier) && Emitted(env, l, p, carrier) == []
    ensures Emitted(env, l, p + Rounds(env.config, n), carrier)
         == if Uses(env.config, carrier) then Copies(ThreadPacks.BodyOf(env, l), n) else []
  {
    hide Emitted, ThreadPacks.BodyOf, Rounds, Uses;
    if n > 0 {
      RoundsEmit(env, l, p, n - 1, carrier);
      RoundsGrow(env.config, p, n);
      RoundEmits(env, l, p + Rounds(env.config, n - 1), carrier);
      assert Copies(ThreadPacks.BodyOf(env, l), n)
          == Copies(ThreadPacks.BodyOf(env, l), n - 1) + [ThreadPacks.BodyOf(env, l)];
    } else {
      NoRounds(env.config);
      assert p + [] == p;
    }
  }

  lemma NoRounds(config: Config)
    ensures Rounds(config, 0) == []
  {
  }

  /** The whole program of a round. */
  lemma ProgramEmits(env: Env, l: Gps.Location, carrier: Instr)
    requires IsCarrier(carrier)
    ensures Emitted(env, l, Program(env.config), carrier) == if Uses(env.config, carrier) then WholeCall(env, l) else []
  {
    hide Emitted, T.Buffer, ThreadPacks.BodyOf;
    if env.config.usePacks {
      var p := [Encode(0), Encode(1), Encode(2), Encode(3), Encode(4), Encode(5), Encode(6), Encode(7), Encode(8),
                BuildPack];
      SilentEmits(env, l, p, carrier);
      RoundsEmit(env, l, p, 10, carrier);
    } else {
      SinglesEmit(env, l, 9, carrier);
      assert T.Messages(env.enc, At(env, l))[..9] == T.Messages(env.enc, At(env, l));
    }
  }

  lemma EncodesOne(p: seq<Instr>, c: Instr)
    ensures Encodes(p + [c]) == Encodes(p) + if c.Encode? then 1 else 0
  {
    assert (p + [c])[..|p|] == p;
  }

  /** The part of single mode that belongs to one slot. */
  function Slot(config: Config, slot: nat): (p: seq<Instr>) {
    [Encode(slot)] + (if UsesBluetooth(config) then [Bluetooth] else []) + (if config.useBeacon then [Beacon] else [])
  }

  lemma SingleGrows(config: Config, slots: nat)
    requires 1 <= slots <= 9
    ensures SingleProgram(config, slots) == SingleProgram(config, slots - 1) + Slot(config, slots - 1)
  {
  }

  lemma SlotEncodes(config: Config, p: seq<Instr>, slot: nat)
    ensures Encodes(p + Slot(config, slot)) == Encodes(p) + 1
  {
    hide Encodes;
    var q := p + [Encode(slot)];
    EncodesOne(p, Encode(slot));
    EncodesOne(q, Bluetooth);
    EncodesOne(q, Beacon);
    EncodesOne(q + [Bluetooth], Beacon);
    if UsesBluetooth(config) && config.useBeacon {
      assert p + Slot(config, slot) == q + [Bluetooth] + [Beacon];
    } else if UsesBluetooth(config) {
      assert p + Slot(config, slot) == q + [Bluetooth];
    } else if config.useBeacon {
      assert p + Slot(config, slot) == q + [Beacon];
    } else {
      assert p + Slot(config, slot) == q;
    }
  }

  lemma {:induction false} SinglesEncode(config: Config, slots: nat)
    requires slots <= 9
    ensures Encodes(SingleProgram(config, slots)) == slots
  {
    if slots > 0 {
      SinglesEncode(config, slots - 1);
      SingleGrows(config, slots);
      SlotEncodes(config, SingleProgram(config, slots - 1), slots - 1);
    }
  }

  /** In single mode the encoders come in order. */
  lemma {:induction false} SinglesInOrder(config: Config, slots: nat, i: nat)
    requires slots <= 9 && i < |SingleProgram(config, slots)|
    ensures Encodes(SingleProgram(config, slots)[..i]) <= 9
    ensures SingleProgram(config, slots)[i].Encode? ==>
              SingleProgram(config, slots)[i].slot == Encodes(SingleProgram(config, slots)[..i]) < slots
  {
    hide Encodes;
    var front := SingleProgram(config, slots - 1);
    SingleGrows(config, slots);
    if i < |front| {
      SinglesInOrder(config, slots - 1, i);
      assert SingleProgram(config, slots)[..i] == front[..i];
    } else if i == |front| {
      SinglesEncode(config, slots - 1);
      assert SingleProgram(config, slots)[..i] == front;
    } else {
      SinglesEncode(config, slots);
      EncodesGrow(SingleProgram(config, slots), i);
    }
  }

  lemma {:induction false} EncodesGrow(p: seq<Instr>, i: nat)
    requires i <= |p|
    ensures Encodes(p[..i]) <= Encodes(p)
  {
    if i < |p| {
      EncodesGrow(p[..|p| - 1], i);
      assert p[..|p| - 1][..i] == p[..i];
    } else {
      assert p[..i] == p;
    }
  }

  // ----- What a step of the main thread does to the round

  predicate Begins(s: State, r: State) {
    !s.main.Sending? && r.main == Sending(0, false, Idle) && r.data == BeginRound(s.location, s.data)
  }

  predicate Works(env: Env, s: State, r: State) {
    && s.main.Sending? && !s.main.update && s.main.call == Idle && s.main.pc < |Program(env.config)|
    && Program(env.config)[s.main.pc] != Beacon
    && r.main == Sending(s.main.pc + 1, false, Idle)
    && r.data == Work(env, Program(env.config)[s.main.pc], s.location, s.data)
  }

  predicate Requests(env: Env, s: State, r: State) {
    && AtBeacon(env, s)
    && (r.main == s.main.(call := Posting) || r.main == s.main.(call := Waiting))
    && r.data == Requested(env.config, s.main.update, s.data)
  }

  predicate Resumes(s: State, r: State) {
    && s.main.Sending? && s.main.call != Idle && r.data == s.data
    && (|| r.main == s.main.(call := Waiting)
        || (!s.main.update && r.main == Sending(s.main.pc, true, Idle))
        || (s.main.update && r.main == Sending(s.main.pc + 1, false, Idle)))
  }

  predicate Ends(env: Env, s: State, r: State) {
    s.main == Sending(|Program(env.config)|, false, Idle) && !r.main.Sending? && r.data == s.data
  }

  predicate Elsewhere(s: State, r: State) {
    r.data == s.data && (r.main == s.main || (!s.main.Sending? && !r.main.Sending?))
  }

  predicate Moves(env: Env, s: State, r: State) {
    Begins(s, r) || Works(env, s, r) || Requests(env, s, r) || Resumes(s, r) || Ends(env, s, r) || Elsewhere(s, r)
  }

  lemma CallMoves(env: Env, s: State, e: Event)
    requires IsCall(e) && NextMain(env, s, e).Some?
    ensures Moves(env, s, NextMain(env, s, e).value)
  {
    hide Program, EffectOf, Requested, BeginRound, Work, AtBeacon;
    if e.Issue? || e.Drop? || e.Lose? {
      assert AtBeacon(env, s);
    }
    RequestsSend(env, s);
  }

  lemma RequestsSend(env: Env, s: State)
    ensures AtBeacon(env, s) ==> s.main.Sending?
  {
  }

  lemma RoundMoves(env: Env, s: State, e: Event)
    requires !IsCall(e) && NextMain(env, s, e).Some?
    ensures Moves(env, s, NextMain(env, s, e).value)
  {
    hide Program, EffectOf, Requested, BeginRound, Work, AtBeacon;
  }

  lemma NextMoves(env: Env, s: State, e: Event)
    requires Next(env, s, e).Some?
    ensures Moves(env, s, Next(env, s, e).value)
  {
    hide NextMain, NextAp, NextGps, Begins, Works, Requests, Resumes, Ends;
    if IsAp(e) || IsGps(e) {
      ThreadPacks.OthersKeepData(env, s, e);
    } else if IsCall(e) {
      CallMoves(env, s, e);
    } else {
      RoundMoves(env, s, e);
    }
  }

  // ----- The buffer

  /** Where the round stands: requests are made at beacon steps, and in single mode the buffer is what
      the encoders so far made of the data with the location read. */
  predicate Going(env: Env, s: State) {
    s.main.Sending? ==>
      && s.main.pc <= |Program(env.config)| && s.data.read != []
      && (s.main.update || s.main.call != Idle ==>
            s.main.pc < |Program(env.config)| && Program(env.config)[s.main.pc] == Beacon)
      && (!env.config.usePacks ==> Buffered(env, s.data, Program(env.config)[..s.main.pc]))
  }

  predicate Buffered(env: Env, d: Data, p: seq<Instr>) {
    d.read != [] && Encodes(p) <= 9
    && d.buffer == T.Buffer(env.enc, At(env, d.read[|d.read| - 1]), Encodes(p))
  }

  /** The location does not show before the third message. */
  lemma BufferIgnoresLocation(env: Env, a: Gps.Location, b: Gps.Location, n: nat)
    requires n <= 2
    ensures T.Buffer(env.enc, At(env, a), n) == T.Buffer(env.enc, At(env, b), n)
  {
    ThreadPacks.LocationComesThird(env, a, b, n);
  }

  lemma EncodeBuffers(env: Env, l: Gps.Location, d: Data, p: seq<Instr>, slot: nat)
    requires Buffered(env, d, p) && slot == Encodes(p) < 9
    ensures Buffered(env, Work(env, Encode(slot), l, d), p + [Encode(slot)])
  {
    EncodesOne(p, Encode(slot));
    var last := d.read[|d.read| - 1];
    hide T.EncodeSlot, At, Encodes;
    if slot == 2 {
      BufferIgnoresLocation(env, last, l, 2);
    } else {
      ThreadPacks.OtherDataIgnoresLocation(env, l, last, slot, d.buffer);
    }
  }

  lemma OtherBuffers(env: Env, c: Instr, l: Gps.Location, d: Data, p: seq<Instr>)
    requires Buffered(env, d, p) && !c.Encode?
    ensures Buffered(env, Work(env, c, l, d), p + [c])
  {
    EncodesOne(p, c);
    hide T.Buffer, Encodes, At, T.MakePack;
  }

  lemma WorksGoing(env: Env, s: State, r: State)
    requires Going(env, s) && Works(env, s, r)
    ensures Going(env, r)
  {
    var p, pc := Program(env.config), s.main.pc;
    assert p[..pc + 1] == p[..pc] + [p[pc]];
    ThreadPacks.WorkReads(env, p[pc], s.location, s.data);
    if !env.config.usePacks {
      if p[pc].Encode? {
        SinglesInOrder(env.config, 9, pc);
        EncodeBuffers(env, s.location, s.data, p[..pc], p[pc].slot);
      } else {
        OtherBuffers(env, p[pc], s.location, s.data, p[..pc]);
      }
    }
    hide Work, Buffered, Program;
  }

  lemma BeginsGoing(env: Env, s: State, r: State)
    requires Begins(s, r)
    ensures Going(env, r)
  {
    hide Program, At;
  }

  lemma RequestsGoing(env: Env, s: State, r: State)
    requires Going(env, s) && (Requests(env, s, r) || Resumes(s, r))
    ensures Going(env, r)
  {
    hide Program, T.Buffer, Encodes;
    if s.main.pc < |Program(env.config)| && Program(env.config)[s.main.pc] == Beacon {
      var p, pc := Program(env.config), s.main.pc;
      assert p[..pc + 1] == p[..pc] + [Beacon];
      EncodesOne(p[..pc], Beacon);
    }
  }

  lemma MovesGoing(env: Env, s: State, r: State)
    requires Going(env, s) && Moves(env, s, r)
    ensures Going(env, r)
  {
    if Begins(s, r) {
      BeginsGoing(env, s, r);
    } else if Works(env, s, r) {
      WorksGoing(env, s, r);
    } else if Requests(env, s, r) || Resumes(s, r) {
      RequestsGoing(env, s, r);
    }
    hide Program, Buffered, Begins, Works, Requests, Resumes;
  }

  lemma {:induction false} RunsGoing(env: Env, es: seq<Event>, ss: seq<State>, i: nat)
    requires IsRun(env, es, ss) && i <= |es|
    ensures Going(env, ss[i])
  {
    hide Next, Going, Moves;
    if i > 0 {
      RunsGoing(env, es, ss, i - 1);
      assert StepAt(env, es, ss, i - 1);
      NextMoves(env, ss[i - 1], es[i - 1]);
      MovesGoing(env, ss[i - 1], ss[i]);
    } else {
      InitiallyGoing(env);
    }
  }

  lemma InitiallyGoing(env: Env)
    ensures Going(env, Initial(env))
  {
  }

  // ----- What was transmitted

  /** The bodies one round handed to one carrier, in order. */
  function Bodies(sent: seq<Transmitted>, call: nat, carrier: Instr): (bodies: seq<seq<byte>>) {
    if sent == [] then []
    else
      var front, t := sent[..|sent| - 1], sent[|sent| - 1];
      Bodies(front, call, carrier) + if t.call == call && t.carrier == carrier then [t.body] else []
  }

  lemma BodiesOne(sent: seq<Transmitted>, t: Transmitted, call: nat, carrier: Instr)
    ensures Bodies(sent + [t], call, carrier)
         == Bodies(sent, call, carrier) + if t.call == call && t.carrier == carrier then [t.body] else []
  {
    assert (sent + [t])[..|sent|] == sent;
  }

  /** How much of the program the round has handed over: a beacon step has when its request is made. */
  function Reached(m: Main): (n: nat)
    requires m.Sending?
  {
    if m.update || m.call != Idle then m.pc + 1 else m.pc
  }

  /** What a round has handed to a carrier so far: everything when it is over, otherwise what the
      program has up to where it stands. */
  predicate Handing(env: Env, s: State, c: nat, carrier: Instr) {
    var bodies := Bodies(s.data.sent, c, carrier);
    if c == 0 || c > |s.data.read| then bodies == []
    else if c == |s.data.read| && s.main.Sending? then
      && Reached(s.main) <= |Program(env.config)|
      && bodies == Emitted(env, s.data.read[c - 1], Program(env.config)[..Reached(s.main)], carrier)
    else bodies == Emitted(env, s.data.read[c - 1], Program(env.config), carrier)
  }

  lemma BeginsHanding(env: Env, s: State, r: State, c: nat, carrier: Instr)
    requires Handing(env, s, c, carrier) && Begins(s, r)
    ensures Handing(env, r, c, carrier)
  {
    hide Bodies, Program, BodyAfter;
    if c == |r.data.read| {
      assert Program(env.config)[..0] == [];
    } else if 1 <= c <= |s.data.read| {
      assert r.data.read[c - 1] == s.data.read[c - 1];
    }
  }

  lemma {:induction false} EarlyEmits(env: Env, a: Gps.Location, b: Gps.Location, p: seq<Instr>, carrier: Instr)
    requires !env.config.usePacks && Encodes(p) <= 2
    ensures Emitted(env, a, p, carrier) == Emitted(env, b, p, carrier)
  {
    hide T.Buffer, At;
    if p != [] {
      var front := p[..|p| - 1];
      EarlyEmits(env, a, b, front, carrier);
      BufferIgnoresLocation(env, a, b, Encodes(front));
    }
  }

  /** Reading the location changes nothing about what was handed over before. */
  lemma ReadingIsEarly(env: Env, a: Gps.Location, b: Gps.Location, pc: nat, carrier: Instr)
    requires pc < |Program(env.config)| && Program(env.config)[pc] == Encode(2) && IsCarrier(carrier)
    ensures Emitted(env, a, Program(env.config)[..pc], carrier) == Emitted(env, b, Program(env.config)[..pc], carrier)
  {
    hide Emitted, Encodes;
    if env.config.usePacks {
      ProgramShape(env.config);
      SilentEmits(env, a, Program(env.config)[..pc], carrier);
      SilentEmits(env, b, Program(env.config)[..pc], carrier);
    } else {
      SinglesInOrder(env.config, 9, pc);
      EarlyEmits(env, a, b, Program(env.config)[..pc], carrier);
    }
  }

  lemma EncodeHands(env: Env, s: State, r: State, c: nat, carrier: Instr)
    requires Going(env, s) && Handing(env, s, c, carrier) && Works(env, s, r) && IsCarrier(carrier)
    requires !IsCarrier(Program(env.config)[s.main.pc])
    ensures Handing(env, r, c, carrier)
  {
    var p, pc := Program(env.config), s.main.pc;
    assert p[..pc + 1] == p[..pc] + [p[pc]];
    SilentWork(env, p[pc], s.location, s.data);
    if c == |s.data.read| {
      EmittedOne(env, r.data.read[c - 1], p[..pc], p[pc], carrier);
      if p[pc] == Encode(2) {
        ReadingIsEarly(env, s.data.read[c - 1], r.data.read[c - 1], pc, carrier);
      }
    }
    hide Program, Work, Bodies, Emitted, Buffered;
  }

  lemma SilentWork(env: Env, c: Instr, l: Gps.Location, d: Data)
    requires !IsCarrier(c)
    ensures Work(env, c, l, d).sent == d.sent
    ensures |Work(env, c, l, d).read| == |d.read|
    ensures d.read != [] ==> Work(env, c, l, d).read[..|d.read| - 1] == d.read[..|d.read| - 1]
    ensures c != Encode(2) ==> Work(env, c, l, d).read == d.read
  {
    ThreadPacks.WorkReads(env, c, l, d);
    hide T.EncodeSlot, T.MakePack;
  }

  /** The body handed over is the one meant for this place in the program. */
  lemma BodyIsMeant(env: Env, s: State)
    requires Going(env, s) && (env.config.usePacks ==> ThreadPacks.PackInvariant(env, s))
    requires s.main.Sending? && s.main.pc < |Program(env.config)| && IsCarrier(Program(env.config)[s.main.pc])
    ensures s.data.read != []
    ensures CurrentBody(env.config, s.data)
         == BodyAfter(env, s.data.read[|s.data.read| - 1], Program(env.config)[..s.main.pc])
  {
    hide T.MakePack, T.Messages, T.Buffer, Encodes, ThreadPacks.Recorded;
    if env.config.usePacks {
      ProgramShape(env.config);
    }
  }

  /** Handing over at the place where the program stands. */
  lemma HandedHands(env: Env, s: State, here: Instr, c: nat, carrier: Instr)
    requires Going(env, s) && (env.config.usePacks ==> ThreadPacks.PackInvariant(env, s))
    requires s.main.Sending? && s.main.pc < |Program(env.config)| && Program(env.config)[s.main.pc] == here
    requires !s.main.update && s.main.call == Idle
    requires IsCarrier(here) && Handing(env, s, c, carrier)
    ensures var d := Handed(env.config, here, s.data);
            && d.read == s.data.read
            && (c == |d.read| ==>
                  Bodies(d.sent, c, carrier)
                  == Emitted(env, d.read[c - 1], Program(env.config)[..s.main.pc + 1], carrier))
            && (c != |d.read| ==> Bodies(d.sent, c, carrier) == Bodies(s.data.sent, c, carrier))
  {
    var p, pc := Program(env.config), s.main.pc;
    assert p[..pc + 1] == p[..pc] + [here];
    BodyIsMeant(env, s);
    BodiesOne(s.data.sent, Transmitted(|s.data.read|, here, CurrentBody(env.config, s.data)), c, carrier);
    if c == |s.data.read| {
      EmittedOne(env, s.data.read[c - 1], p[..pc], here, carrier);
    }
    hide Program, Bodies, Emitted, BodyAfter, CurrentBody, Buffered, ThreadPacks.PackInvariant;
  }

  lemma WorksHanding(env: Env, s: State, r: State, c: nat, carrier: Instr)
    requires Going(env, s) && (env.config.usePacks ==> ThreadPacks.PackInvariant(env, s))
    requires Handing(env, s, c, carrier) && Works(env, s, r) && IsCarrier(carrier)
    ensures Handing(env, r, c, carrier)
  {
    if IsCarrier(Program(env.config)[s.main.pc]) {
      HandedHands(env, s, Bluetooth, c, carrier);
      ThreadPacks.WorkHands(env, s.location, s.data);
      hide Program, Bodies, Emitted, Handed, Going, ThreadPacks.PackInvariant, Work;
    } else {
      EncodeHands(env, s, r, c, carrier);
    }
  }

  lemma RequestsHanding(env: Env, s: State, r: State, c: nat, carrier: Instr)
    requires Going(env, s) && (env.config.usePacks ==> ThreadPacks.PackInvariant(env, s))
    requires Handing(env, s, c, carrier) && Requests(env, s, r)
    ensures Handing(env, r, c, carrier)
  {
    if !s.main.update {
      HandedHands(env, s, Beacon, c, carrier);
    }
    hide Program, Bodies, Emitted, Handed, Going, ThreadPacks.PackInvariant;
  }

  lemma ResumesHanding(env: Env, s: State, r: State, c: nat, carrier: Instr)
    requires Handing(env, s, c, carrier) && (Resumes(s, r) || Elsewhere(s, r))
    ensures Handing(env, r, c, carrier)
  {
    hide Program, Bodies, Emitted;
  }

  lemma EndsHanding(env: Env, s: State, r: State, c: nat, carrier: Instr)
    requires Handing(env, s, c, carrier) && Ends(env, s, r)
    ensures Handing(env, r, c, carrier)
  {
    assert Program(env.config)[..|Program(env.config)|] == Program(env.config);
    hide Program, Bodies, Emitted;
  }

  lemma MovesHanding(env: Env, s: State, r: State, c: nat, carrier: Instr)
    requires Going(env, s) && (env.config.usePacks ==> ThreadPacks.PackInvariant(env, s))
    requires Handing(env, s, c, carrier) && Moves(env, s, r) && IsCarrier(carrier)
    ensures Handing(env, r, c, carrier)
  {
    hide Begins, Works, Requests, Resumes, Ends, Elsewhere, Handing, Going, ThreadPacks.PackInvariant;
    if Begins(s, r) {
      BeginsHanding(env, s, r, c, carrier);
    } else if Works(env, s, r) {
      WorksHanding(env, s, r, c, carrier);
    } else if Requests(env, s, r) {
      RequestsHanding(env, s, r, c, carrier);
    } else if Ends(env, s, r) {
      EndsHanding(env, s, r, c, carrier);
    } else {
      ResumesHanding(env, s, r, c, carrier);
    }
  }

  lemma {:induction false} RunsHand(env: Env, es: seq<Event>, ss: seq<State>, i: nat, c: nat, carrier: Instr)
    requires IsRun(env, es, ss) && i <= |es| && IsCarrier(carrier)
    ensures Handing(env, ss[i], c, carrier)
  {
    hide Next, Going, Moves, Handing, ThreadPacks.PackInvariant;
    if i > 0 {
      RunsHand(env, es, ss, i - 1, c, carrier);
      RunsGoing(env, es, ss, i - 1);
      if env.config.usePacks {
        ThreadPacks.RunsKeepPacks(env, es, ss, i - 1);
      }
      assert StepAt(env, es, ss, i - 1);
      NextMoves(env, ss[i - 1], es[i - 1]);
      MovesHanding(env, ss[i - 1], ss[i], c, carrier);
    } else {
      InitiallyHanding(env, c, carrier);
    }
  }

  lemma InitiallyHanding(env: Env, c: nat, carrier: Instr)
    ensures Handing(env, Initial(env), c, carrier)
  {
  }

  /** In every interleaving, a round that is over has handed to each carrier it uses exactly the nine
      messages, in order, or the pack ten times, all made from the one location the round read, and
      nothing to a carrier it does not use. */
  lemma CallsAreComplete(env: Env, es: seq<Event>, ss: seq<State>, i: nat, c: nat, carrier: Instr)
    requires IsRun(env, es, ss) && i <= |es| && IsCarrier(carrier)
    requires 1 <= c <= |ss[i].data.read| && (c < |ss[i].data.read| || !ss[i].main.Sending?)
    ensures Bodies(ss[i].data.sent, c, carrier)
         == if Uses(env.config, carrier) then WholeCall(env, ss[i].data.read[c - 1]) else []
  {
    hide Program, Bodies, Emitted, WholeCall, Uses;
    RunsHand(env, es, ss, i, c, carrier);
    ProgramEmits(env, ss[i].data.read[c - 1], carrier);
  }

  // ----- Where the location comes from

  lemma {:induction false} SinglesRead(config: Config, slots: nat)
    requires 3 <= slots <= 9
    ensures Encode(2) in SingleProgram(config, slots)
  {
    SingleGrows(config, slots);
    if slots > 3 {
      SinglesRead(config, slots - 1);
    } else {
      assert Slot(config, 2)[0] == Encode(2);
    }
    hide SingleProgram;
  }

  lemma ProgramReads(config: Config)
    ensures Encode(2) in Program(config)
  {
    if config.usePacks {
      ProgramShape(config);
      assert Program(config)[2] == Encode(2);
    } else {
      SinglesRead(config, 9);
    }
  }

  /** The main thread is about to read the location for round `c`. */
  predicate ReadsHere(env: Env, s: State, c: nat) {
    && s.main.Sending? && |s.data.read| == c
    && s.main.pc < |Program(env.config)| && Program(env.config)[s.main.pc] == Encode(2)
  }

  /** Round `c` has not come that far. */
  predicate NotYet(env: Env, s: State, c: nat) {
    && s.main.Sending? && |s.data.read| == c
    && s.main.pc <= |Program(env.config)| && Encode(2) !in Program(env.config)[..s.main.pc]
  }

  lemma WorksReads(env: Env, s: State, r: State, c: nat)
    requires Going(env, s) && Works(env, s, r) && 1 <= c <= |r.data.read|
    ensures |r.data.read| == |s.data.read|
    ensures || (r.data.read[c - 1] == s.data.read[c - 1] && (NotYet(env, s, c) ==> NotYet(env, r, c)))
            || (ReadsHere(env, s, c) && r.data.read[c - 1] == s.location)
  {
    var p, pc := Program(env.config), s.main.pc;
    assert p[..pc + 1] == p[..pc] + [p[pc]];
    ThreadPacks.WorkReads(env, p[pc], s.location, s.data);
    if p[pc] == Encode(2) {
      LocationReads(env, s.location, s.data);
    }
    if c < |s.data.read| {
      assert r.data.read[c - 1] == r.data.read[..|s.data.read| - 1][c - 1];
    }
    hide Program, Work, Buffered;
  }

  lemma LocationReads(env: Env, l: Gps.Location, d: Data)
    requires d.read != []
    ensures Work(env, Encode(2), l, d).read == d.read[|d.read| - 1 := l]
  {
  }

  lemma MovesReads(env: Env, s: State, r: State, c: nat)
    requires Going(env, s) && Moves(env, s, r) && 1 <= c <= |r.data.read|
    ensures || NotYet(env, r, c)
            || (c <= |s.data.read| && r.data.read[c - 1] == s.data.read[c - 1] && !NotYet(env, s, c))
            || (ReadsHere(env, s, c) && r.data.read[c - 1] == s.location)
  {
    ProgramReads(env.config);
    var p := Program(env.config);
    if Works(env, s, r) {
      WorksReads(env, s, r, c);
    } else if s.main.Sending? && s.main.pc < |p| {
      assert p[..s.main.pc + 1] == p[..s.main.pc] + [p[s.main.pc]];
    }
    assert p[..|p|] == p;
    if Requests(env, s, r) {
      ThreadPacks.RequestReads(env.config, s.main.update, s.data);
    }
    hide Program, Works, Buffered, Requested;
  }

  ghost predicate WasRead(env: Env, ss: seq<State>, i: nat, c: nat)
    requires i < |ss| && 1 <= c <= |ss[i].data.read|
  {
    exists t :: 0 <= t < i && ReadsHere(env, ss[t], c) && ss[i].data.read[c - 1] == ss[t].location
  }

  /** The location a round is made from is the one the shared location held at a moment within that
      round, when its encoder read it. */
  lemma {:induction false} LocationWasRead(env: Env, es: seq<Event>, ss: seq<State>, i: nat, c: nat)
    requires IsRun(env, es, ss) && i <= |es| && 1 <= c <= |ss[i].data.read|
    ensures WasRead(env, ss, i, c) || NotYet(env, ss[i], c)
  {
    hide Next, Going, Moves, NotYet, ReadsHere;
    if i > 0 {
      RunsGoing(env, es, ss, i - 1);
      assert StepAt(env, es, ss, i - 1);
      NextMoves(env, ss[i - 1], es[i - 1]);
      MovesReads(env, ss[i - 1], ss[i], c);
      if c <= |ss[i - 1].data.read| {
        LocationWasRead(env, es, ss, i - 1, c);
      }
    } else {
      NothingRead(env);
    }
  }

  lemma NothingRead(env: Env)
    ensures Initial(env).data.read == []
  {
  }

  // ----- How many rounds

  lemma MainBegins(env: Env, s: State, e: Event)
    requires NextMain(env, s, e).Some? && !IsCall(e) && !e.Advance?
    ensures NextMain(env, s, e).value.data.read
         == if (e.CheckKill? && !s.kill) || (e.SetupDone? && !env.config.useGps) then s.data.read + [s.location]
            else s.data.read
  {
    ThreadPacks.BeginReads(s.location, s.data);
    hide Program, EffectOf, Requested, BeginRound, Work, AtBeacon;
  }

  lemma NextBegins(env: Env, s: State, e: Event)
    requires Phases(env, s) && Next(env, s, e).Some?
    ensures |Next(env, s, e).value.data.read| == |s.data.read|
            || (!s.kill && |Next(env, s, e).value.data.read| == |s.data.read| + 1)
  {
    hide NextMain, NextAp, NextGps, ApPhases;
    if IsAp(e) || IsGps(e) {
      ThreadPacks.OthersKeepData(env, s, e);
    } else if e.Advance? {
      AdvanceReads(env, s);
    } else if IsCall(e) {
      CallKeepsRead(env, s, e);
    } else {
      SetupIsEarly(env, s, e);
      MainBegins(env, s, e);
    }
  }

  lemma AdvanceReads(env: Env, s: State)
    requires NextMain(env, s, Advance).Some?
    ensures |NextMain(env, s, Advance).value.data.read| == |s.data.read|
  {
    ThreadPacks.WorkReads(env, Program(env.config)[s.main.pc], s.location, s.data);
    hide Program, Work;
  }

  lemma CallKeepsRead(env: Env, s: State, e: Event)
    requires IsCall(e) && NextMain(env, s, e).Some?
    ensures NextMain(env, s, e).value.data.read == s.data.read
  {
    hide Program, EffectOf, Requested;
    if s.main.Sending? {
      ThreadPacks.RequestReads(env.config, s.main.update, s.data);
    }
  }

  lemma SetupIsEarly(env: Env, s: State, e: Event)
    requires NextMain(env, s, e).Some?
    ensures e.SetupDone? ==> s.main.Setup?
  {
  }

  /** Once the program is killed no round begins; the one under way is finished. */
  lemma {:induction false} NoRoundAfterKill(env: Env, es: seq<Event>, ss: seq<State>, i: nat, j: nat)
    requires IsRun(env, es, ss) && i <= j <= |es| && ss[i].kill
    ensures |ss[j].data.read| == |ss[i].data.read|
  {
    hide Next, Phases;
    if i < j {
      NoRoundAfterKill(env, es, ss, i, j - 1);
      KillIsFinal(env, es, ss, i, j - 1);
      RunsKeepPhases(env, es, ss, j - 1);
      assert StepAt(env, es, ss, j - 1);
      NextBegins(env, ss[j - 1], es[j - 1]);
    }
  }

  lemma NextOnce(env: Env, s: State, e: Event)
    requires !env.config.useGps && Phases(env, s) && Next(env, s, e).Some?
    requires |s.data.read| == if Starting(s.main) then 0 else 1
    ensures |Next(env, s, e).value.data.read| == if Starting(Next(env, s, e).value.main) then 0 else 1
  {
    hide NextMain, NextAp, NextGps, ApPhases;
    if IsAp(e) || IsGps(e) {
      ThreadPacks.OthersKeepData(env, s, e);
    } else {
      if IsCall(e) {
        CallKeepsRead(env, s, e);
        CallKeepsStarting(env, s, e);
      } else if e.Advance? {
        AdvanceReads(env, s);
        RoundKeepsStarting(env, s, e);
      } else {
        RoundKeepsStarting(env, s, e);
        SetupIsEarly(env, s, e);
        LoopTopChecks(env, s, e);
        MainBegins(env, s, e);
      }
    }
  }

  lemma LoopTopChecks(env: Env, s: State, e: Event)
    requires NextMain(env, s, e).Some?
    ensures e.CheckKill? ==> s.main.LoopTop?
  {
  }

  /** Without GPS there is exactly one round. */
  lemma {:induction false} OneRoundWithoutGps(env: Env, es: seq<Event>, ss: seq<State>, i: nat)
    requires !env.config.useGps && IsRun(env, es, ss) && i <= |es|
    ensures |ss[i].data.read| == if Starting(ss[i].main) then 0 else 1
  {
    hide Next, Phases;
    if i > 0 {
      OneRoundWithoutGps(env, es, ss, i - 1);
      RunsKeepPhases(env, es, ss, i - 1);
      assert StepAt(env, es, ss, i - 1);
      NextOnce(env, ss[i - 1], es[i - 1]);
    }
  }
}
