/** The GPS thread among the others: what reaches the shared location, and that the thread is the loop
    of `Gps` whatever the order of the steps. */
module ThreadGps {
  import opened Octets
  import opened Threads
  import opened ThreadSafety
  import Gps

  /** The fixes read by the first `i` events. */
  function FixesOf(es: seq<Event>, i: nat): (fixes: seq<Gps.Fix>)
    requires i <= |es|
  {
    if i == 0 then []
    else FixesOf(es, i - 1)
         + if es[i - 1].Poll? && es[i - 1].outcome.Read? then [es[i - 1].outcome.fix] else []
  }

  /** The answers the receiver gave in the first `i` events. */
  function PollsOf(es: seq<Event>, i: nat): (polls: seq<Gps.Poll>)
    requires i <= |es|
  {
    if i == 0 then []
    else PollsOf(es, i - 1) + if es[i - 1].Poll? then [Gps.Poll(false, es[i - 1].outcome)] else []
  }

  // ----- The location

  /** The location holds what the fixes read so far come to, or will once the fix being stored is. */
  predicate Locates(env: Env, s: State, fixes: seq<Gps.Fix>) {
    match s.gps
    case Storing(_, fix, field) =>
      && field <= Gps.FIELDS
      && Gps.StoreFrom(s.location, fix, env.ctx, field) == Gps.ApplyAll(env.uas.location, fixes, env.ctx)
    case _ => s.location == Gps.ApplyAll(env.uas.location, fixes, env.ctx)
  }

  lemma ApplyOne(env: Env, fixes: seq<Gps.Fix>, f: Gps.Fix)
    ensures Gps.StoreFrom(Gps.ApplyAll(env.uas.location, fixes, env.ctx), f, env.ctx, 0)
         == Gps.ApplyAll(env.uas.location, fixes + [f], env.ctx)
  {
    Gps.StoresApply(Gps.ApplyAll(env.uas.location, fixes, env.ctx), f, env.ctx);
    assert (fixes + [f])[..|fixes|] == fixes;
    hide Gps.Apply, Gps.StoreFrom;
  }

  lemma PollLocates(env: Env, s: State, outcome: Gps.Outcome, fixes: seq<Gps.Fix>)
    requires Phases(env, s) && Locates(env, s, fixes) && NextGps(env, s, Poll(outcome)).Some?
    ensures Locates(env, NextGps(env, s, Poll(outcome)).value, if outcome.Read? then fixes + [outcome.fix] else fixes)
  {
    hide Gps.ApplyAll, Gps.StoreFrom, ApPhases;
    if outcome.Read? {
      ApplyOne(env, fixes, outcome.fix);
    }
  }

  lemma StoreLocates(env: Env, s: State, fixes: seq<Gps.Fix>)
    requires Locates(env, s, fixes) && NextGps(env, s, StoreField).Some?
    ensures Locates(env, NextGps(env, s, StoreField).value, fixes)
  {
    hide Gps.ApplyAll, Gps.Store, Gps.StoreFrom;
    StoreStep(s.location, s.gps.fix, env.ctx, s.gps.field);
  }

  lemma StoreStep(l: Gps.Location, f: Gps.Fix, ctx: Gps.Context, i: nat)
    requires i < Gps.FIELDS
    ensures Gps.StoreFrom(l, f, ctx, i) == Gps.StoreFrom(Gps.Store(l, f, ctx, i), f, ctx, i + 1)
    ensures Gps.StoreFrom(l, f, ctx, Gps.FIELDS) == l
    ensures i + 1 == Gps.FIELDS ==> Gps.StoreFrom(l, f, ctx, i) == Gps.Store(l, f, ctx, i)
  {
    hide Gps.Store;
  }

  lemma LookLocates(env: Env, s: State, fixes: seq<Gps.Fix>)
    requires Locates(env, s, fixes) && NextGps(env, s, Look).Some?
    ensures Locates(env, NextGps(env, s, Look).value, fixes)
  {
    hide Gps.ApplyAll, Gps.StoreFrom;
  }

  /** The main thread and the event loop leave the location alone. */
  lemma ApKeepsLocation(s: State, e: Event)
    ensures NextAp(s, e).Some? ==> NextAp(s, e).value.location == s.location && NextAp(s, e).value.gps == s.gps
  {
  }

  lemma MainKeepsLocation(env: Env, s: State, e: Event)
    ensures NextMain(env, s, e).Some? ==> NextMain(env, s, e).value.location == s.location
  {
    hide Program, EffectOf, Requested, BeginRound, Work, AtBeacon;
  }

  lemma NextLocates(env: Env, s: State, e: Event, fixes: seq<Gps.Fix>)
    requires Phases(env, s) && Locates(env, s, fixes) && Next(env, s, e).Some?
    ensures Locates(env, Next(env, s, e).value,
                    if e.Poll? && e.outcome.Read? then fixes + [e.outcome.fix] else fixes)
  {
    hide NextMain, NextAp, NextGps, ApPhases, Gps.ApplyAll, Gps.StoreFrom;
    if e.Poll? {
      PollLocates(env, s, e.outcome, fixes);
    } else if e.StoreField? {
      StoreLocates(env, s, fixes);
    } else if e.Look? {
      LookLocates(env, s, fixes);
    } else if IsAp(e) {
      ApKeepsLocation(s, e);
    } else {
      MainKeepsLocation(env, s, e);
      MainFrame(env, s, e);
    }
  }

  lemma {:induction false} RunsLocate(env: Env, es: seq<Event>, ss: seq<State>, i: nat)
    requires IsRun(env, es, ss) && i <= |es|
    ensures Locates(env, ss[i], FixesOf(es, i))
  {
    hide Next, Phases, Locates;
    if i > 0 {
      RunsLocate(env, es, ss, i - 1);
      RunsKeepPhases(env, es, ss, i - 1);
      assert StepAt(env, es, ss, i - 1);
      NextLocates(env, ss[i - 1], es[i - 1], FixesOf(es, i - 1));
      assert FixesOf(es, i - 1) + [] == FixesOf(es, i - 1);
    } else {
      InitiallyLocated(env);
    }
  }

  lemma InitiallyLocated(env: Env)
    ensures Locates(env, Initial(env), [])
  {
  }

  /** At every point of every run the location is what the fixes read so far come to, one after the
      other; while a fix is being stored, it is what remains to be stored that is missing. */
  lemma LocationFollowsFixes(env: Env, es: seq<Event>, ss: seq<State>, i: nat)
    requires IsRun(env, es, ss) && i <= |es|
    ensures !ss[i].gps.Storing? ==> ss[i].location == Gps.ApplyAll(env.uas.location, FixesOf(es, i), env.ctx)
    ensures ss[i].gps.Storing? ==>
              && ss[i].gps.field <= Gps.FIELDS
              && Gps.StoreFrom(ss[i].location, ss[i].gps.fix, env.ctx, ss[i].gps.field)
                 == Gps.ApplyAll(env.uas.location, FixesOf(es, i), env.ctx)
  {
    RunsLocate(env, es, ss, i);
  }

  // ----- The loop

  /** The thread stands where the loop stands after these answers; ended with 0, it found the program
      killed. */
  predicate Loops(s: State, polls: seq<Gps.Poll>) {
    match s.gps
    case NoThread => polls == []
    case Looking(loop) => loop == Gps.After(polls)
    case Polling(loop) => loop == Gps.After(polls)
    case Storing(loop, _, _) => loop == Gps.After(polls)
    case Ended(status) => s.kill && Gps.After(polls).status == if status == 1 then Some(1) else None
  }

  lemma AfterOne(polls: seq<Gps.Poll>, p: Gps.Poll)
    ensures Gps.After(polls + [p]) == Gps.Iterate(Gps.After(polls), p)
    ensures Gps.FixesRead(polls + [p])
         == Gps.FixesRead(polls)
            + if Gps.After(polls).status.None? && !p.killed && p.outcome.Read? then [p.outcome.fix] else []
  {
    assert (polls + [p])[..|polls|] == polls;
  }

  lemma NextGpsLoops(env: Env, s: State, e: Event, polls: seq<Gps.Poll>)
    requires Phases(env, s) && Loops(s, polls) && NextGps(env, s, e).Some?
    ensures Loops(NextGps(env, s, e).value, if e.Poll? then polls + [Gps.Poll(false, e.outcome)] else polls)
  {
    hide Gps.After, Gps.Store, ApPhases;
    if e.Poll? {
      AfterOne(polls, Gps.Poll(false, e.outcome));
    }
  }

  lemma NextMainLoops(env: Env, s: State, e: Event, polls: seq<Gps.Poll>)
    requires GpsPhases(env.config.useGps, s) && Loops(s, polls) && NextMain(env, s, e).Some?
    ensures Loops(NextMain(env, s, e).value, polls)
  {
    MainFrame(env, s, e);
    if s.gps.NoThread? {
      MainStartsGps(env, s, e);
    }
    hide NextMain;
  }

  lemma MainStartsGps(env: Env, s: State, e: Event)
    requires NextMain(env, s, e).Some? && s.gps.NoThread?
    ensures e.SetupDone? && NextMain(env, s, e).value.gps.Looking? ==>
              NextMain(env, s, e).value.gps.loop == Gps.Loop(0, 0, None)
  {
  }

  lemma NextLoops(env: Env, s: State, e: Event, polls: seq<Gps.Poll>)
    requires Phases(env, s) && Loops(s, polls) && Next(env, s, e).Some?
    ensures Loops(Next(env, s, e).value, if e.Poll? then polls + [Gps.Poll(false, e.outcome)] else polls)
  {
    hide NextMain, NextAp, NextGps, ApPhases, GpsPhases;
    if IsGps(e) {
      NextGpsLoops(env, s, e, polls);
    } else if IsAp(e) {
      ApFrame(s, e);
    } else {
      NextMainLoops(env, s, e, polls);
    }
  }

  lemma {:induction false} RunsLoop(env: Env, es: seq<Event>, ss: seq<State>, i: nat)
    requires IsRun(env, es, ss) && i <= |es|
    ensures Loops(ss[i], PollsOf(es, i))
  {
    hide Next, Phases, Loops;
    if i > 0 {
      RunsLoop(env, es, ss, i - 1);
      RunsKeepPhases(env, es, ss, i - 1);
      assert StepAt(env, es, ss, i - 1);
      NextLoops(env, ss[i - 1], es[i - 1], PollsOf(es, i - 1));
      assert PollsOf(es, i - 1) + [] == PollsOf(es, i - 1);
    } else {
      InitiallyLoops(env);
    }
  }

  lemma InitiallyLoops(env: Env)
    ensures Loops(Initial(env), [])
  {
  }

  /** The fixes read are those the loop reads. */
  lemma {:induction false} FixesAreRead(env: Env, es: seq<Event>, ss: seq<State>, i: nat)
    requires IsRun(env, es, ss) && i <= |es|
    ensures FixesOf(es, i) == Gps.FixesRead(PollsOf(es, i))
  {
    hide Next, Phases, Loops;
    if i > 0 {
      FixesAreRead(env, es, ss, i - 1);
      if es[i - 1].Poll? {
        RunsLoop(env, es, ss, i - 1);
        RunsKeepPhases(env, es, ss, i - 1);
        assert StepAt(env, es, ss, i - 1);
        PollsWhileRunning(env, ss[i - 1], es[i - 1], PollsOf(es, i - 1));
        AfterOne(PollsOf(es, i - 1), Gps.Poll(false, es[i - 1].outcome));
      } else {
        assert PollsOf(es, i - 1) + [] == PollsOf(es, i - 1);
      }
    }
  }

  lemma PollsWhileRunning(env: Env, s: State, e: Event, polls: seq<Gps.Poll>)
    requires Phases(env, s) && Loops(s, polls) && e.Poll? && Next(env, s, e).Some?
    ensures Gps.After(polls).status.None?
  {
    hide NextMain, NextAp, ApPhases, Gps.After;
  }

  /** The thread ends the way the loop ends: with status 1 exactly when the loop gives up, otherwise
      with 0, and the program is killed then. */
  lemma GpsThreadEndsAsLoop(env: Env, es: seq<Event>, ss: seq<State>, i: nat)
    requires IsRun(env, es, ss) && i <= |es|
    ensures Gps.After(PollsOf(es, i)).status == Some(1) <==> ss[i].gps == Ended(1)
    ensures ss[i].gps.Ended? ==> ss[i].kill
  {
    hide Next, Gps.After, PollsOf;
    RunsLoop(env, es, ss, i);
    RunsKeepPhases(env, es, ss, i);
    NoPollsNoStatus();
  }

  lemma NoPollsNoStatus()
    ensures Gps.After([]).status == None
  {
  }

  // ----- The flag

  predicate Signalled(es: seq<Event>, i: nat)
    requires i <= |es|
  {
    exists j :: 0 <= j < i && es[j] == Signal
  }

  lemma MainKills(env: Env, s: State, e: Event)
    requires NextMain(env, s, e).Some?
    ensures NextMain(env, s, e).value.kill == (s.kill || e.Signal?)
  {
    hide Program, EffectOf, Requested, BeginRound, Work, AtBeacon;
  }

  lemma GpsKills(env: Env, s: State, e: Event)
    requires Phases(env, s) && NextGps(env, s, e).Some?
    ensures NextGps(env, s, e).value.kill == (s.kill || NextGps(env, s, e).value.gps == Ended(1))
    ensures s.gps != Ended(1)
  {
    hide Gps.Store, ApPhases;
  }

  lemma NextKills(env: Env, s: State, e: Event)
    requires Phases(env, s) && Next(env, s, e).Some?
    requires s.gps == Ended(1) ==> s.kill
    ensures Next(env, s, e).value.kill == (s.kill || e.Signal? || Next(env, s, e).value.gps == Ended(1))
    ensures s.gps == Ended(1) ==> Next(env, s, e).value.gps == Ended(1)
  {
    hide NextMain, NextAp, NextGps, ApPhases;
    if IsGps(e) {
      GpsKills(env, s, e);
    } else if IsAp(e) {
      ApFrame(s, e);
    } else {
      MainKills(env, s, e);
      MainFrame(env, s, e);
    }
  }

  lemma {:induction false} KilledBy(env: Env, es: seq<Event>, ss: seq<State>, i: nat)
    requires IsRun(env, es, ss) && i <= |es|
    ensures ss[i].kill <==> Signalled(es, i) || ss[i].gps == Ended(1)
  {
    hide Next, Phases;
    if i > 0 {
      KilledBy(env, es, ss, i - 1);
      RunsKeepPhases(env, es, ss, i - 1);
      assert StepAt(env, es, ss, i - 1);
      NextKills(env, ss[i - 1], es[i - 1]);
    }
  }

  /** `kill_program` is set exactly when a signal was handled or the GPS thread gave up. */
  lemma KilledIff(env: Env, es: seq<Event>, ss: seq<State>, i: nat)
    requires IsRun(env, es, ss) && i <= |es|
    ensures ss[i].kill <==> Signalled(es, i) || Gps.After(PollsOf(es, i)).status == Some(1)
  {
    KilledBy(env, es, ss, i);
    GpsThreadEndsAsLoop(env, es, ss, i);
  }
}
