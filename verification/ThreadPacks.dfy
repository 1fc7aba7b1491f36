/** Pack mode under GPS updates: what one call of `send_packs` transmits while another thread writes
    the location. */
module ThreadPacks {
  import opened Octets
  import opened Carriers
  import opened Config
  import opened Threads
  import T = Transmit
  import Gps

  /** The body of a pack made from the data with location `l`. */
  function BodyOf(env: Env, l: Gps.Location): (body: seq<byte>) {
    PackBody(T.MakePack(env.enc, T.Messages(env.enc, At(env, l))))
  }

  /** Everything transmitted carries the pack of its call. */
  predicate Recorded(env: Env, d: Data) {
    forall i :: 0 <= i < |d.sent| ==>
      && 1 <= d.sent[i].call <= |d.read|
      && d.sent[i].body == BodyOf(env, d.read[d.sent[i].call - 1])
  }

  /** Nothing of the current call was transmitted yet. */
  predicate Unsent(d: Data) {
    forall i :: 0 <= i < |d.sent| ==> d.sent[i].call < |d.read|
  }

  /** How far the pack of the current call is when the program stands at `pc`. */
  predicate Building(env: Env, d: Data, pc: nat) {
    && d.read != []
    && (pc < 10 ==> Unsent(d))
    && (pc <= 9 ==> d.buffer == T.Buffer(env.enc, At(env, d.read[|d.read| - 1]), pc))
    && (pc <= 9 ==> d.messages == T.Messages(env.enc, At(env, d.read[|d.read| - 1]))[..pc])
    && (pc >= 10 ==> d.pack == T.MakePack(env.enc, T.Messages(env.enc, At(env, d.read[|d.read| - 1]))))
  }

  predicate PackInvariant(env: Env, s: State) {
    && Recorded(env, s.data)
    && (s.main.Sending? ==>
          && Building(env, s.data, s.main.pc)
          && (s.main.pc < 10 ==> !s.main.update && s.main.call == Idle))
  }

  // ----- One step of the program

  lemma BeginBuilds(env: Env, l: Gps.Location, d: Data)
    requires Recorded(env, d)
    ensures Recorded(env, BeginRound(l, d)) && Building(env, BeginRound(l, d), 0)
  {
    hide BodyOf, T.MakePack;
  }

  /** The first two encoders do not look at the location. */
  lemma LocationComesThird(env: Env, a: Gps.Location, b: Gps.Location, n: nat)
    requires n <= 2
    ensures T.Buffer(env.enc, At(env, a), n) == T.Buffer(env.enc, At(env, b), n)
    ensures T.Messages(env.enc, At(env, a))[..n] == T.Messages(env.enc, At(env, b))[..n]
  {
    assert T.Buffer(env.enc, At(env, a), 1) == T.Buffer(env.enc, At(env, b), 1);
    assert T.Buffer(env.enc, At(env, a), 2) == T.Buffer(env.enc, At(env, b), 2);
  }

  lemma OtherDataIgnoresLocation(env: Env, a: Gps.Location, b: Gps.Location, slot: nat, m: Message)
    requires slot < 9 && slot != 2
    ensures T.EncodeSlot(env.enc, At(env, a), slot, m) == T.EncodeSlot(env.enc, At(env, b), slot, m)
  {
  }

  lemma EncodeBuilds(env: Env, l: Gps.Location, d: Data, slot: nat)
    requires slot < 9 && Recorded(env, d) && Building(env, d, slot)
    ensures Recorded(env, Work(env, Encode(slot), l, d)) && Building(env, Work(env, Encode(slot), l, d), slot + 1)
  {
    hide BodyOf, T.MakePack, T.EncodeSlot, At;
    var last := d.read[|d.read| - 1];
    if slot == 2 {
      LocationComesThird(env, last, l, 2);
      MessagesGrow(env, l, 2);
    } else {
      OtherDataIgnoresLocation(env, l, last, slot, d.buffer);
      MessagesGrow(env, last, slot);
    }
  }

  lemma MessagesGrow(env: Env, l: Gps.Location, n: nat)
    requires n < 9
    ensures T.Messages(env.enc, At(env, l))[..n + 1]
         == T.Messages(env.enc, At(env, l))[..n] + [T.Buffer(env.enc, At(env, l), n + 1)]
  {
    hide T.EncodeSlot, At, T.Buffer;
  }

  lemma PackBuilds(env: Env, l: Gps.Location, d: Data)
    requires Recorded(env, d) && Building(env, d, 9)
    ensures Recorded(env, Work(env, BuildPack, l, d)) && Building(env, Work(env, BuildPack, l, d), 10)
  {
    hide BodyOf, T.MakePack, At, T.Buffer;
    var ms := T.Messages(env.enc, At(env, d.read[|d.read| - 1]));
    assert ms[..9] == ms;
  }

  lemma HandedIsRecorded(env: Env, carrier: Instr, d: Data, pc: nat)
    requires env.config.usePacks && pc >= 10 && Recorded(env, d) && Building(env, d, pc)
    ensures Recorded(env, Handed(env.config, carrier, d))
    ensures Building(env, Handed(env.config, carrier, d), pc) && Building(env, Handed(env.config, carrier, d), pc + 1)
  {
    hide T.MakePack, T.Messages, At;
    assert CurrentBody(env.config, d) == BodyOf(env, d.read[|d.read| - 1]);
  }

  // ----- Every run

  lemma AdvanceKeepsPacks(env: Env, s: State)
    requires env.config.usePacks && PackInvariant(env, s) && NextMain(env, s, Advance).Some?
    ensures PackInvariant(env, NextMain(env, s, Advance).value)
  {
    ProgramShape(env.config);
    var pc := s.main.pc;
    if pc < 9 {
      EncodeBuilds(env, s.location, s.data, pc);
    } else if pc == 9 {
      PackBuilds(env, s.location, s.data);
    } else {
      HandedIsRecorded(env, Bluetooth, s.data, pc);
    }
    WorkHands(env, s.location, s.data);
    hide Program, Handed, Recorded, Building, Work;
  }

  lemma WorkHands(env: Env, l: Gps.Location, d: Data)
    ensures Work(env, Bluetooth, l, d) == Handed(env.config, Bluetooth, d)
  {
  }

  lemma RequestKeepsPacks(env: Env, s: State, e: Event)
    requires env.config.usePacks && PackInvariant(env, s) && NextMain(env, s, e).Some?
    requires e.Issue? || e.Drop? || e.Lose?
    ensures PackInvariant(env, NextMain(env, s, e).value)
  {
    ProgramShape(env.config);
    HandedIsRecorded(env, Beacon, s.data, s.main.pc);
    hide Program, EffectOf, Handed, Recorded, Building;
  }

  lemma MainKeepsPacks(env: Env, s: State, e: Event)
    requires env.config.usePacks && PackInvariant(env, s) && NextMain(env, s, e).Some?
    ensures PackInvariant(env, NextMain(env, s, e).value)
  {
    hide Program, EffectOf, BeginRound, Recorded, Building, Work, Requested;
    if e.Advance? {
      AdvanceKeepsPacks(env, s);
    } else if e.Issue? || e.Drop? || e.Lose? {
      RequestKeepsPacks(env, s, e);
    } else {
      BeginBuilds(env, s.location, s.data);
      if s.main.Sending? && s.main.pc >= 10 {
        NextBuilding(env, s.data, s.main.pc);
      }
    }
  }

  /** Behind the packing, the place in the program makes no difference. */
  lemma NextBuilding(env: Env, d: Data, pc: nat)
    requires pc >= 10 && Building(env, d, pc)
    ensures Building(env, d, pc + 1)
  {
  }

  lemma OthersKeepData(env: Env, s: State, e: Event)
    ensures NextAp(s, e).Some? ==> NextAp(s, e).value.data == s.data && NextAp(s, e).value.main == s.main
    ensures NextGps(env, s, e).Some? ==>
              NextGps(env, s, e).value.data == s.data && NextGps(env, s, e).value.main == s.main
  {
    hide Gps.Store, Gps.Iterate;
  }

  lemma {:induction false} RunsKeepPacks(env: Env, es: seq<Event>, ss: seq<State>, i: nat)
    requires env.config.usePacks && IsRun(env, es, ss) && i <= |es|
    ensures PackInvariant(env, ss[i])
  {
    hide Next, PackInvariant;
    if i > 0 {
      RunsKeepPacks(env, es, ss, i - 1);
      assert StepAt(env, es, ss, i - 1);
      NextKeepsPacks(env, ss[i - 1], es[i - 1]);
    } else {
      InitialPacks(env);
    }
  }

  lemma NextKeepsPacks(env: Env, s: State, e: Event)
    requires env.config.usePacks && PackInvariant(env, s) && Next(env, s, e).Some?
    ensures PackInvariant(env, Next(env, s, e).value)
  {
    hide NextMain, NextAp, NextGps, PackInvariant;
    if IsAp(e) || IsGps(e) {
      OthersKeepData(env, s, e);
      SameDataKeepsPacks(env, s, Next(env, s, e).value);
    } else {
      MainKeepsPacks(env, s, e);
    }
  }

  lemma SameDataKeepsPacks(env: Env, s: State, r: State)
    requires PackInvariant(env, s) && r.data == s.data && r.main == s.main
    ensures PackInvariant(env, r)
  {
  }

  lemma InitialPacks(env: Env)
    ensures PackInvariant(env, Initial(env))
  {
  }

  /** In every run, whatever the GPS thread writes meanwhile, all transmissions of one call carry the
      same body, on both carriers: the pack made from the location the call's encoder read. */
  lemma PackBodiesAgree(env: Env, es: seq<Event>, ss: seq<State>, i: nat, a: nat, b: nat)
    requires env.config.usePacks && IsRun(env, es, ss) && i <= |es|
    requires a < |ss[i].data.sent| && b < |ss[i].data.sent| && ss[i].data.sent[a].call == ss[i].data.sent[b].call
    ensures ss[i].data.sent[a].body == ss[i].data.sent[b].body
    ensures 1 <= ss[i].data.sent[a].call <= |ss[i].data.read|
    ensures ss[i].data.sent[a].body == BodyOf(env, ss[i].data.read[ss[i].data.sent[a].call - 1])
  {
    hide Next, BodyOf;
    RunsKeepPacks(env, es, ss, i);
  }

  /** The locations read so far are settled: the current round is past its location encoder. */
  predicate Settled(read: seq<Gps.Location>, s: State) {
    && read <= s.data.read
    && (|s.data.read| == |read| && s.main.Sending? ==> s.main.pc > 2)
  }

  lemma MainStaysSettled(env: Env, read: seq<Gps.Location>, s: State, e: Event)
    requires env.config.usePacks && Settled(read, s) && NextMain(env, s, e).Some?
    ensures Settled(read, NextMain(env, s, e).value)
  {
    hide NextMain, Settled;
    if e.Advance? {
      AdvanceStaysSettled(env, read, s);
    } else {
      OtherStaysSettled(env, read, s, e);
    }
  }

  lemma OtherStaysSettled(env: Env, read: seq<Gps.Location>, s: State, e: Event)
    requires Settled(read, s) && !e.Advance? && NextMain(env, s, e).Some?
    ensures Settled(read, NextMain(env, s, e).value)
  {
    hide NextMain;
    OtherReads(env, s, e);
  }

  /** Any other step leaves what was read alone and does not go back, or begins the next round. */
  predicate ReadsOn(s: State, r: State) {
    || r.data.read == s.data.read + [s.location]
    || (r.data.read == s.data.read && (r.main.Sending? ==> s.main.Sending? && s.main.pc <= r.main.pc))
  }

  lemma OtherReads(env: Env, s: State, e: Event)
    requires !e.Advance? && NextMain(env, s, e).Some?
    ensures ReadsOn(s, NextMain(env, s, e).value)
  {
    hide NextMain, ReadsOn;
    if IsCall(e) {
      CallReads(env, s, e);
    } else {
      RoundReads(env, s, e);
    }
  }

  lemma CallReads(env: Env, s: State, e: Event)
    requires IsCall(e) && NextMain(env, s, e).Some?
    ensures ReadsOn(s, NextMain(env, s, e).value)
  {
    hide Program, EffectOf, Requested, BeginRound, Work;
    if s.main.Sending? {
      RequestReads(env.config, s.main.update, s.data);
    }
  }

  lemma RoundReads(env: Env, s: State, e: Event)
    requires !IsCall(e) && !e.Advance? && NextMain(env, s, e).Some?
    ensures ReadsOn(s, NextMain(env, s, e).value)
  {
    hide Program, EffectOf, Requested, BeginRound, Work, AtBeacon;
    BeginReads(s.location, s.data);
  }

  lemma BeginReads(l: Gps.Location, d: Data)
    ensures BeginRound(l, d).read == d.read + [l]
  {
  }

  lemma RequestReads(config: Config, update: bool, d: Data)
    ensures Requested(config, update, d).read == d.read
  {
  }

  lemma AdvanceStaysSettled(env: Env, read: seq<Gps.Location>, s: State)
    requires env.config.usePacks && Settled(read, s) && NextMain(env, s, Advance).Some?
    ensures Settled(read, NextMain(env, s, Advance).value)
  {
    ProgramShape(env.config);
    WorkReads(env, Program(env.config)[s.main.pc], s.location, s.data);
    hide Program, Work;
  }

  /** Only the third encoder changes what counts as read, and only for the current round. */
  lemma WorkReads(env: Env, c: Instr, l: Gps.Location, d: Data)
    ensures |Work(env, c, l, d).read| == |d.read|
    ensures d.read != [] ==> Work(env, c, l, d).read[..|d.read| - 1] == d.read[..|d.read| - 1]
    ensures c != Encode(2) ==> Work(env, c, l, d).read == d.read
  {
    hide CurrentBody, T.EncodeSlot, T.MakePack;
  }

  lemma NextStaysSettled(env: Env, read: seq<Gps.Location>, s: State, e: Event)
    requires env.config.usePacks && Settled(read, s) && Next(env, s, e).Some?
    ensures Settled(read, Next(env, s, e).value)
  {
    hide NextMain, NextAp, NextGps;
    if IsAp(e) || IsGps(e) {
      OthersKeepData(env, s, e);
    } else {
      MainStaysSettled(env, read, s, e);
    }
  }

  lemma {:induction false} StaysSettled(env: Env, es: seq<Event>, ss: seq<State>, i: nat, j: nat)
    requires env.config.usePacks && IsRun(env, es, ss) && i <= j <= |es|
    requires Settled(ss[i].data.read, ss[i])
    ensures Settled(ss[i].data.read, ss[j])
  {
    hide Next, Settled;
    if i < j {
      StaysSettled(env, es, ss, i, j - 1);
      assert StepAt(env, es, ss, j - 1);
      NextStaysSettled(env, ss[i].data.read, ss[j - 1], es[j - 1]);
    }
  }

  /** Once the pack of a call is built, nothing written to the location afterwards shows in what that
      call transmits. */
  lemma LaterFixesAreInvisible(env: Env, es: seq<Event>, ss: seq<State>, i: nat, j: nat, k: nat)
    requires env.config.usePacks && IsRun(env, es, ss) && i <= j <= |es|
    requires ss[i].main.Sending? && ss[i].main.pc >= 10
    requires k < |ss[j].data.sent| && ss[j].data.sent[k].call == |ss[i].data.read|
    ensures ss[i].data.pack[2] <= 9
    ensures ss[j].data.sent[k].body == PackBody(ss[i].data.pack)
  {
    hide Next, T.MakePack, T.Messages;
    RunsKeepPacks(env, es, ss, i);
    RunsKeepPacks(env, es, ss, j);
    StaysSettled(env, es, ss, i, j);
  }
}
