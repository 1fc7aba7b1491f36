/** What the shared flags say about a run: each is a function of the events so far, whatever their order. */
module ThreadFlags {
  import opened Threads
  import opened ThreadSafety

  // ----- The connection

  /** Whether the events so far leave a connection: the last one that was opened is still there unless a
      ping failed on it or the event loop closed it. */
  function Connection(es: seq<Event>, i: nat): (up: bool)
    requires i <= |es|
  {
    if i == 0 then false
    else
      match es[i - 1]
      case Opened(ok) => ok || Connection(es, i - 1)
      case Reopened(ok) => ok
      case Answered(ok) => ok && Connection(es, i - 1)
      case Closed => false
      case _ => Connection(es, i - 1)
  }

  lemma MainKeepsConnection(env: Env, s: State, e: Event)
    requires NextMain(env, s, e).Some?
    ensures NextMain(env, s, e).value.conn == s.conn
  {
    hide Program, EffectOf, Requested, BeginRound, Work, AtBeacon;
  }

  /** Which states of the event loop have a connection. */
  predicate Connects(s: State) {
    && (s.ap.Announcing? || s.ap.PingPosting? || s.ap.PingAnswered? ==> s.conn)
    && (s.ap.NotStarted? || s.ap.Opening? || s.ap.Reopening? || s.ap.Exited? ==> !s.conn)
  }

  lemma ApConnects(s: State, e: Event)
    requires Connects(s) && IsAp(e) && NextAp(s, e).Some?
    ensures Connects(NextAp(s, e).value)
    ensures NextAp(s, e).value.conn
         == match e {
              case Opened(ok) => ok || s.conn
              case Reopened(ok) => ok
              case Answered(ok) => ok && s.conn
              case Closed => false
              case _ => s.conn
            }
  {
  }

  lemma NextConnects(env: Env, s: State, e: Event)
    requires Phases(env, s) && Connects(s) && Next(env, s, e).Some?
    ensures Connects(Next(env, s, e).value)
    ensures !IsAp(e) ==> Next(env, s, e).value.conn == s.conn
  {
    hide NextMain, NextAp, NextGps, GpsPhases;
    if IsAp(e) {
      ApConnects(s, e);
    } else if IsGps(e) {
      GpsFrame(env, s, e);
    } else {
      MainKeepsConnection(env, s, e);
      MainFrame(env, s, e);
    }
  }

  /** `ctrl_conn` is what the event loop's own events make it, and the main thread never changes it. */
  lemma {:induction false} ConnectionIs(env: Env, es: seq<Event>, ss: seq<State>, i: nat)
    requires IsRun(env, es, ss) && i <= |es|
    ensures ss[i].conn == Connection(es, i) && Connects(ss[i])
  {
    hide NextMain, NextAp, NextGps, Connects, Phases;
    if i > 0 {
      ConnectionIs(env, es, ss, i - 1);
      RunsKeepPhases(env, es, ss, i - 1);
      assert StepAt(env, es, ss, i - 1);
      NextConnects(env, ss[i - 1], es[i - 1]);
      if IsAp(es[i - 1]) {
        ApConnects(ss[i - 1], es[i - 1]);
      }
    } else {
      NotConnected(env);
    }
  }

  lemma NotConnected(env: Env)
    ensures !Initial(env).conn && Connects(Initial(env))
  {
  }

  lemma PingNeedsTurn(env: Env, s: State)
    requires Next(env, s, PingPost).Some?
    ensures s.ap.PingPosting?
  {
  }

  /** A ping is posted only while there is a connection. */
  lemma PingsNeedConnection(env: Env, es: seq<Event>, ss: seq<State>, i: nat)
    requires IsRun(env, es, ss) && i < |es| && es[i] == PingPost
    ensures Connection(es, i)
  {
    hide Next, Connection;
    ConnectionIs(env, es, ss, i);
    assert StepAt(env, es, ss, i);
    PingNeedsTurn(env, ss[i]);
  }

  // ----- Termination and the semaphore

  predicate Told(es: seq<Event>, i: nat)
    requires i <= |es|
  {
    exists j :: 0 <= j < i && (es[j] == QuitIssue || es[j] == Interrupt)
  }

  predicate WasDestroyed(es: seq<Event>, i: nat)
    requires i <= |es|
  {
    exists j :: 0 <= j < i && es[j] == Destroy
  }

  lemma MainMarks(env: Env, s: State, e: Event)
    requires NextMain(env, s, e).Some?
    ensures NextMain(env, s, e).value.destroyed == (s.destroyed || e.Destroy?)
  {
    hide Program, EffectOf, Requested, BeginRound, Work, AtBeacon;
  }

  lemma NextMarks(env: Env, s: State, e: Event)
    requires Next(env, s, e).Some?
    ensures Next(env, s, e).value.destroyed == (s.destroyed || e.Destroy?)
    ensures Next(env, s, e).value.terminate == (s.terminate || e.QuitIssue? || e.Interrupt?)
  {
    hide NextMain, NextAp, NextGps;
    if IsAp(e) {
      ApFrame(s, e);
    } else if IsGps(e) {
      GpsFrame(env, s, e);
    } else {
      MainMarks(env, s, e);
      MainFrame(env, s, e);
    }
  }

  /** The event loop is told to terminate exactly by the quit request or a signal, and the semaphore is
      destroyed exactly by the main thread's clean-up. */
  lemma {:induction false} FlagsAre(env: Env, es: seq<Event>, ss: seq<State>, i: nat)
    requires IsRun(env, es, ss) && i <= |es|
    ensures ss[i].terminate <==> Told(es, i)
    ensures ss[i].destroyed <==> WasDestroyed(es, i)
  {
    hide Next;
    if i > 0 {
      FlagsAre(env, es, ss, i - 1);
      assert StepAt(env, es, ss, i - 1);
      NextMarks(env, ss[i - 1], es[i - 1]);
    }
  }
}
