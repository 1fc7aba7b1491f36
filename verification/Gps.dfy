/** `gpsmod.c` and `gps_loop` of `transmit.c`: what the fixes of a GPS receiver do to the location
    that is transmitted, and when the thread that reads them gives up. */
module Gps {
  import opened Octets

  // ----- Fixes and the location

  /** A C `double` that may be a NaN or an infinity; finite ones are taken as exact. */
  datatype Num = Finite(value: real) | NonFinite

  datatype Fix = Fix(mode: int, latitude: Num, longitude: Num, track: Num, altMSL: Num, altitude: Num,
                     speed: Num, climb: Num, eph: Num, epy: Num, eps: Num)

  const MODE_2D := 2
  const MODE_3D := 3

  /** `others` are the fields no fix touches. */
  datatype Location = Location(latitude: Num, longitude: Num, direction: real, altitudeGeo: real,
                               altitudeBaro: real, height: real, speedHorizontal: real, speedVertical: real,
                               horizAccuracy: int, vertAccuracy: int, speedAccuracy: int, others: seq<int>)

  /** The enumerations core-c makes of accuracies, and the altitude heights are measured from. */
  datatype Context = Context(horizontal: real -> int, vertical: real -> int, speed: real -> int,
                             operatorAltitude: real)

  function Guarded(f: Fix, mode: int, n: Num): (r: Option<real>) {
    if f.mode >= mode && n.Finite? then Some(n.value) else None
  }

  function Map<A, B>(o: Option<A>, f: A -> B): (r: Option<B>) {
    match o case None => None case Some(v) => Some(f(v))
  }

  /** Coordinates are taken from every fix of sufficient mode, finite or not. */
  function Coordinate(f: Fix, n: Num): (r: Option<Num>) {
    if f.mode >= MODE_2D then Some(n) else None
  }

  /** The altitude a fix offers: above mean sea level if there is one. */
  function Altitude(f: Fix): (r: Option<real>) {
    if f.mode >= MODE_3D && f.altMSL.Finite? then Some(f.altMSL.value)
    else if f.mode >= MODE_3D && f.altitude.Finite? then Some(f.altitude.value)
    else None
  }

  function Or<T>(o: Option<T>, otherwise: T): (r: T) {
    match o case None => otherwise case Some(v) => v
  }

  class UasData {
    var latitude: Num
    var longitude: Num
    var direction: real
    var altitudeGeo: real
    var altitudeBaro: real
    var height: real
    var speedHorizontal: real
    var speedVertical: real
    var horizAccuracy: int
    var vertAccuracy: int
    var speedAccuracy: int
    var others: seq<int>

    function Where(): (l: Location)
      reads this
    {
      Location(latitude, longitude, direction, altitudeGeo, altitudeBaro,
               height, speedHorizontal, speedVertical, horizAccuracy,
               vertAccuracy, speedAccuracy, others)
    }

    constructor (l: Location)
      ensures Where() == l
    {
      latitude := l.latitude;
      longitude := l.longitude;
      direction := l.direction;
      altitudeGeo := l.altitudeGeo;
      altitudeBaro := l.altitudeBaro;
      height := l.height;
      speedHorizontal := l.speedHorizontal;
      speedVertical := l.speedVertical;
      horizAccuracy := l.horizAccuracy;
      vertAccuracy := l.vertAccuracy;
      speedAccuracy := l.speedAccuracy;
      others := l.others;
    }

    /** `process_gps_data`: the part a two-dimensional fix is enough for, then the rest. */
    method ProcessGpsData(f: Fix, ctx: Context)
      modifies this
      ensures Where() == Apply(old(Where()), f, ctx)
      ensures latitude == (if f.mode >= 2 then f.latitude else old(latitude))
      ensures longitude == (if f.mode >= 2 then f.longitude else old(longitude))
      ensures direction == (if f.mode >= 2 && f.track.Finite? then f.track.value else old(direction))
      ensures f.mode >= 3 && f.altMSL.Finite? ==>
                altitudeGeo == altitudeBaro == height + ctx.operatorAltitude == f.altMSL.value
      ensures f.mode >= 3 && !f.altMSL.Finite? && f.altitude.Finite? ==>
                altitudeGeo == altitudeBaro == height + ctx.operatorAltitude == f.altitude.value
      ensures f.mode < 3 || (!f.altMSL.Finite? && !f.altitude.Finite?) ==>
                unchanged(`altitudeGeo, `altitudeBaro, `height)
      ensures speedHorizontal == (if f.mode >= 3 && f.speed.Finite? then f.speed.value else old(speedHorizontal))
      ensures speedVertical == (if f.mode >= 3 && f.climb.Finite? then f.climb.value else old(speedVertical))
      ensures horizAccuracy
           == (if f.mode >= 3 && f.eph.Finite? then ctx.horizontal(f.eph.value) else old(horizAccuracy))
      ensures vertAccuracy
           == (if f.mode >= 3 && f.epy.Finite? then ctx.vertical(f.epy.value) else old(vertAccuracy))
      ensures speedAccuracy
           == (if f.mode >= 3 && f.eps.Finite? then ctx.speed(f.eps.value) else old(speedAccuracy))
      ensures unchanged(`others)
    {
      if f.mode >= MODE_2D {
        latitude := f.latitude;
        longitude := f.longitude;
        if f.track.Finite? {
          direction := f.track.value;
        }
      }
      if f.mode >= MODE_3D {
        ProcessAltitude(f, ctx);
        ProcessMotion(f, ctx);
      }
    }

    method ProcessAltitude(f: Fix, ctx: Context)
      requires f.mode >= MODE_3D
      modifies `altitudeGeo, `altitudeBaro, `height
      ensures altitudeGeo == Or(Altitude(f), old(altitudeGeo))
      ensures altitudeBaro == Or(Altitude(f), old(altitudeBaro))
      ensures height == Or(Map(Altitude(f), a => a - ctx.operatorAltitude), old(height))
    {
      if f.altMSL.Finite? {
        altitudeGeo := f.altMSL.value;
        altitudeBaro := f.altMSL.value;
        height := f.altMSL.value - ctx.operatorAltitude;
      } else if f.altitude.Finite? {
        altitudeGeo := f.altitude.value;
        altitudeBaro := f.altitude.value;
        height := f.altitude.value - ctx.operatorAltitude;
      }
    }

    method ProcessMotion(f: Fix, ctx: Context)
      requires f.mode >= MODE_3D
      modifies `speedHorizontal, `speedVertical, `horizAccuracy, `vertAccuracy, `speedAccuracy
      ensures speedHorizontal == Or(Guarded(f, MODE_3D, f.speed), old(speedHorizontal))
      ensures speedVertical == Or(Guarded(f, MODE_3D, f.climb), old(speedVertical))
      ensures horizAccuracy == Or(Map(Guarded(f, MODE_3D, f.eph), ctx.horizontal), old(horizAccuracy))
      ensures vertAccuracy == Or(Map(Guarded(f, MODE_3D, f.epy), ctx.vertical), old(vertAccuracy))
      ensures speedAccuracy == Or(Map(Guarded(f, MODE_3D, f.eps), ctx.speed), old(speedAccuracy))
    {
      if f.speed.Finite? {
        speedHorizontal := f.speed.value;
      }
      if f.climb.Finite? {
        speedVertical := f.climb.value;
      }
      if f.eph.Finite? {
        horizAccuracy := ctx.horizontal(f.eph.value);
      }
      if f.epy.Finite? {
        vertAccuracy := ctx.vertical(f.epy.value);
      }
      if f.eps.Finite? {
        speedAccuracy := ctx.speed(f.eps.value);
      }
    }
  }

  /** One fix, field by field: what it offers for the field, otherwise the old value. */
  function Apply(l: Location, f: Fix, ctx: Context): (r: Location) {
    Location(Or(Coordinate(f, f.latitude), l.latitude),
             Or(Coordinate(f, f.longitude), l.longitude),
             Or(Guarded(f, MODE_2D, f.track), l.direction),
             Or(Altitude(f), l.altitudeGeo),
             Or(Altitude(f), l.altitudeBaro),
             Or(Map(Altitude(f), a => a - ctx.operatorAltitude), l.height),
             Or(Guarded(f, MODE_3D, f.speed), l.speedHorizontal),
             Or(Guarded(f, MODE_3D, f.climb), l.speedVertical),
             Or(Map(Guarded(f, MODE_3D, f.eph), ctx.horizontal), l.horizAccuracy),
             Or(Map(Guarded(f, MODE_3D, f.epy), ctx.vertical), l.vertAccuracy),
             Or(Map(Guarded(f, MODE_3D, f.eps), ctx.speed), l.speedAccuracy),
             l.others)
  }

  const FIELDS := 11

  /** The `i`th of the assignments `process_gps_data` makes, in its order; one that a fix does not
      reach leaves the field alone. */
  function Store(l: Location, f: Fix, ctx: Context, i: nat): (r: Location)
    requires i < FIELDS
  {
    var a := Apply(l, f, ctx);
    match i
    case 0 => l.(latitude := a.latitude)
    case 1 => l.(longitude := a.longitude)
    case 2 => l.(direction := a.direction)
    case 3 => l.(altitudeGeo := a.altitudeGeo)
    case 4 => l.(altitudeBaro := a.altitudeBaro)
    case 5 => l.(height := a.height)
    case 6 => l.(speedHorizontal := a.speedHorizontal)
    case 7 => l.(speedVertical := a.speedVertical)
    case 8 => l.(horizAccuracy := a.horizAccuracy)
    case 9 => l.(vertAccuracy := a.vertAccuracy)
    case _ => l.(speedAccuracy := a.speedAccuracy)
  }

  function StoreFrom(l: Location, f: Fix, ctx: Context, i: nat): (r: Location)
    requires i <= FIELDS
    decreases FIELDS - i
  {
    if i == FIELDS then l else StoreFrom(Store(l, f, ctx, i), f, ctx, i + 1)
  }

  /** Assignment by assignment comes to the same as the fix as a whole. */
  lemma StoresApply(l: Location, f: Fix, ctx: Context)
    ensures StoreFrom(l, f, ctx, 0) == Apply(l, f, ctx)
  {
    var l1 := Store(l, f, ctx, 0);
    var l2 := Store(l1, f, ctx, 1);
    var l3 := Store(l2, f, ctx, 2);
    var l4 := Store(l3, f, ctx, 3);
    var l5 := Store(l4, f, ctx, 4);
    var l6 := Store(l5, f, ctx, 5);
    var l7 := Store(l6, f, ctx, 6);
    var l8 := Store(l7, f, ctx, 7);
    var l9 := Store(l8, f, ctx, 8);
    var l10 := Store(l9, f, ctx, 9);
    assert StoreFrom(l9, f, ctx, 9) == StoreFrom(l10, f, ctx, 10) == Store(l10, f, ctx, 10);
    assert StoreFrom(l6, f, ctx, 6) == StoreFrom(l9, f, ctx, 9);
    assert StoreFrom(l3, f, ctx, 3) == StoreFrom(l6, f, ctx, 6);
    assert StoreFrom(l, f, ctx, 0) == StoreFrom(l3, f, ctx, 3);
  }

  function ApplyAll(l: Location, fixes: seq<Fix>, ctx: Context): (r: Location) {
    if fixes == [] then l
    else Apply(ApplyAll(l, fixes[..|fixes| - 1], ctx), fixes[|fixes| - 1], ctx)
  }

  /** `v` is what the last fix that offers anything offers, or `init` when none does. */
  ghost predicate LastOffer<T(!new)>(fixes: seq<Fix>, offer: Fix -> Option<T>, init: T, v: T) {
    || (v == init && forall i :: 0 <= i < |fixes| ==> offer(fixes[i]).None?)
    || (exists i :: 0 <= i < |fixes| && offer(fixes[i]) == Some(v)
                    && forall j :: i < j < |fixes| ==> offer(fixes[j]).None?)
  }

  lemma LastOfferStep<T(!new)>(fixes: seq<Fix>, offer: Fix -> Option<T>, init: T, v: T, f: Fix)
    requires LastOffer(fixes, offer, init, v)
    ensures LastOffer(fixes + [f], offer, init, Or(offer(f), v))
  {
    var all := fixes + [f];
    assert all[|fixes|] == f;
    if offer(f).None? && !(v == init && forall i :: 0 <= i < |fixes| ==> offer(fixes[i]).None?) {
      var i :| 0 <= i < |fixes| && offer(fixes[i]) == Some(v)
               && forall j :: i < j < |fixes| ==> offer(fixes[j]).None?;
      assert all[i] == fixes[i];
      assert forall j :: i < j < |all| ==> offer(all[j]).None?;
    }
  }

  /** The last finite value wins, field by field, over any sequence of fixes. */
  ghost predicate LastFixWins(l: Location, fixes: seq<Fix>, ctx: Context, r: Location) {
    && LastOffer(fixes, (f: Fix) => Coordinate(f, f.latitude), l.latitude, r.latitude)
    && LastOffer(fixes, (f: Fix) => Coordinate(f, f.longitude), l.longitude, r.longitude)
    && LastOffer(fixes, (f: Fix) => Guarded(f, MODE_2D, f.track), l.direction, r.direction)
    && LastOffer(fixes, Altitude, l.altitudeGeo, r.altitudeGeo)
    && LastOffer(fixes, Altitude, l.altitudeBaro, r.altitudeBaro)
    && LastOffer(fixes, (f: Fix) => Map(Altitude(f), a => a - ctx.operatorAltitude), l.height, r.height)
    && LastOffer(fixes, (f: Fix) => Guarded(f, MODE_3D, f.speed), l.speedHorizontal, r.speedHorizontal)
    && LastOffer(fixes, (f: Fix) => Guarded(f, MODE_3D, f.climb), l.speedVertical, r.speedVertical)
    && LastOffer(fixes, (f: Fix) => Map(Guarded(f, MODE_3D, f.eph), ctx.horizontal), l.horizAccuracy, r.horizAccuracy)
    && LastOffer(fixes, (f: Fix) => Map(Guarded(f, MODE_3D, f.epy), ctx.vertical), l.vertAccuracy, r.vertAccuracy)
    && LastOffer(fixes, (f: Fix) => Map(Guarded(f, MODE_3D, f.eps), ctx.speed), l.speedAccuracy, r.speedAccuracy)
    && r.others == l.others
  }

  lemma {:induction false} FixesAccumulate(l: Location, fixes: seq<Fix>, ctx: Context)
    ensures LastFixWins(l, fixes, ctx, ApplyAll(l, fixes, ctx))
  {
    if fixes != [] {
      var front, f := fixes[..|fixes| - 1], fixes[|fixes| - 1];
      FixesAccumulate(l, front, ctx);
      FixStep(l, front, f, ctx, ApplyAll(l, front, ctx));
      assert fixes == front + [f];
    }
  }

  lemma FixStep(l: Location, fixes: seq<Fix>, f: Fix, ctx: Context, r: Location)
    requires LastFixWins(l, fixes, ctx, r)
    ensures LastFixWins(l, fixes + [f], ctx, Apply(r, f, ctx))
  {
    LastOfferStep(fixes, (f: Fix) => Coordinate(f, f.latitude), l.latitude, r.latitude, f);
    LastOfferStep(fixes, (f: Fix) => Coordinate(f, f.longitude), l.longitude, r.longitude, f);
    LastOfferStep(fixes, (f: Fix) => Guarded(f, MODE_2D, f.track), l.direction, r.direction, f);
    LastOfferStep(fixes, Altitude, l.altitudeGeo, r.altitudeGeo, f);
    LastOfferStep(fixes, Altitude, l.altitudeBaro, r.altitudeBaro, f);
    LastOfferStep(fixes, (f: Fix) => Map(Altitude(f), a => a - ctx.operatorAltitude), l.height, r.height, f);
    LastOfferStep(fixes, (f: Fix) => Guarded(f, MODE_3D, f.speed), l.speedHorizontal, r.speedHorizontal, f);
    LastOfferStep(fixes, (f: Fix) => Guarded(f, MODE_3D, f.climb), l.speedVertical, r.speedVertical, f);
    LastOfferStep(fixes, (f: Fix) => Map(Guarded(f, MODE_3D, f.eph), ctx.horizontal),
                  l.horizAccuracy, r.horizAccuracy, f);
    LastOfferStep(fixes, (f: Fix) => Map(Guarded(f, MODE_3D, f.epy), ctx.vertical), l.vertAccuracy, r.vertAccuracy, f);
    LastOfferStep(fixes, (f: Fix) => Map(Guarded(f, MODE_3D, f.eps), ctx.speed), l.speedAccuracy, r.speedAccuracy, f);
  }

  /** Once a fix brought an altitude, the two altitudes agree and the height is measured from the
      operator's, whatever fixes follow. */
  lemma {:induction false} AltitudesAgree(l: Location, fixes: seq<Fix>, ctx: Context, i: nat)
    requires i < |fixes| && Altitude(fixes[i]).Some?
    ensures ApplyAll(l, fixes, ctx).altitudeGeo == ApplyAll(l, fixes, ctx).altitudeBaro
    ensures ApplyAll(l, fixes, ctx).height == ApplyAll(l, fixes, ctx).altitudeGeo - ctx.operatorAltitude
  {
    var front := fixes[..|fixes| - 1];
    if i < |front| {
      assert front[i] == fixes[i];
      AltitudesAgree(l, front, ctx, i);
    }
  }

  /** The altitude above mean sea level of a fix takes precedence over its other altitude; without
      either, or below mode 3, all three fields keep their values. */
  lemma AltitudePrecedence(l: Location, f: Fix, ctx: Context)
    ensures var r := Apply(l, f, ctx);
            && (f.mode >= 3 && f.altMSL.Finite? ==>
                  r.altitudeGeo == r.altitudeBaro == r.height + ctx.operatorAltitude == f.altMSL.value)
            && (f.mode >= 3 && !f.altMSL.Finite? && f.altitude.Finite? ==>
                  r.altitudeGeo == r.altitudeBaro == r.height + ctx.operatorAltitude == f.altitude.value)
            && (f.mode < 3 || (!f.altMSL.Finite? && !f.altitude.Finite?) ==>
                  r.altitudeGeo == l.altitudeGeo && r.altitudeBaro == l.altitudeBaro && r.height == l.height)
  {
  }

  /** A fix that brings an altitude of either kind. */
  predicate HasAltitude(f: Fix) {
    f.mode >= 3 && (f.altMSL.Finite? || f.altitude.Finite?)
  }

  /** Over any sequence of fixes it is the last one with an altitude that counts. */
  lemma {:induction false} LastAltitudeWins(l: Location, fixes: seq<Fix>, ctx: Context, i: nat)
    requires i < |fixes| && HasAltitude(fixes[i])
    requires forall j :: i < j < |fixes| ==> !HasAltitude(fixes[j])
    ensures var r := ApplyAll(l, fixes, ctx);
            r.altitudeGeo == r.altitudeBaro == r.height + ctx.operatorAltitude
            == if fixes[i].altMSL.Finite? then fixes[i].altMSL.value else fixes[i].altitude.value
  {
    var front, f := fixes[..|fixes| - 1], fixes[|fixes| - 1];
    AltitudePrecedence(ApplyAll(l, front, ctx), f, ctx);
    if i < |front| {
      LastAltitudeWins(l, front, ctx, i);
    }
  }

  lemma {:induction false} NoAltitudeKeeps(l: Location, fixes: seq<Fix>, ctx: Context)
    requires forall j :: 0 <= j < |fixes| ==> !HasAltitude(fixes[j])
    ensures var r := ApplyAll(l, fixes, ctx);
            r.altitudeGeo == l.altitudeGeo && r.altitudeBaro == l.altitudeBaro && r.height == l.height
  {
    if fixes != [] {
      var front := fixes[..|fixes| - 1];
      NoAltitudeKeeps(l, front, ctx);
      AltitudePrecedence(ApplyAll(l, front, ctx), fixes[|front|], ctx);
    }
  }

  // ----- The retry automaton

  const MAX_GPS_WAIT_RETRIES := 60
  const MAX_GPS_READ_RETRIES := 5

  datatype Outcome = NotReady | ReadFailed | Read(fix: Fix)

  /** One iteration of the loop: what it finds in `kill_program` and what the receiver answers. */
  datatype Poll = Poll(killed: bool, outcome: Outcome)

  datatype Loop = Loop(retries: nat, readRetries: nat, status: Option<int>)

  function Iterate(l: Loop, p: Poll): (r: Loop) {
    if l.status.Some? then l
    else if p.killed then l.(status := Some(0))
    else
      match p.outcome
      case NotReady =>
        Loop(l.retries + 1, l.readRetries, if l.retries > MAX_GPS_WAIT_RETRIES then Some(1) else None)
      case ReadFailed =>
        Loop(0, l.readRetries + 1, if l.readRetries > MAX_GPS_READ_RETRIES then Some(1) else None)
      case Read(_) => Loop(0, 0, None)
  }

  function After(polls: seq<Poll>): (l: Loop) {
    if polls == [] then Loop(0, 0, None) else Iterate(After(polls[..|polls| - 1]), polls[|polls| - 1])
  }

  /** The fixes read before the loop ended. */
  function FixesRead(polls: seq<Poll>): (fixes: seq<Fix>) {
    if polls == [] then []
    else
      var front, p := polls[..|polls| - 1], polls[|polls| - 1];
      FixesRead(front)
      + if After(front).status.None? && !p.killed && p.outcome.Read? then [p.outcome.fix] else []
  }

  lemma {:induction false} StaysEnded(polls: seq<Poll>, n: nat)
    requires n <= |polls| && After(polls[..n]).status.Some?
    ensures After(polls) == After(polls[..n]) && FixesRead(polls) == FixesRead(polls[..n])
  {
    if n < |polls| {
      var front := polls[..|polls| - 1];
      assert front[..n] == polls[..n];
      StaysEnded(front, n);
    } else {
      assert polls[..n] == polls;
    }
  }

  lemma FixesStep(polls: seq<Poll>, i: nat)
    requires i < |polls| && After(polls[..i]).status.None?
    ensures After(polls[..i + 1]) == Iterate(After(polls[..i]), polls[i])
    ensures FixesRead(polls[..i + 1])
         == if !polls[i].killed && polls[i].outcome.Read? then FixesRead(polls[..i]) + [polls[i].outcome.fix]
            else FixesRead(polls[..i])
  {
    assert polls[..i + 1][..i] == polls[..i];
  }

  /** `gps_loop`, for as many iterations as `polls` has answers; the thread is still running when
      no status comes back. */
  method GpsLoop(uas: UasData, ctx: Context, polls: seq<Poll>) returns (status: Option<int>, kill: bool)
    modifies uas
    ensures status == After(polls).status
    ensures kill <==> status == Some(1)
    ensures uas.Where() == ApplyAll(old(uas.Where()), FixesRead(polls), ctx)
  {
    var retries, readRetries := 0, 0;
    kill := false;
    var i := 0;
    while i < |polls|
      invariant 0 <= i <= |polls|
      invariant After(polls[..i]) == Loop(retries, readRetries, None)
      invariant uas.Where() == ApplyAll(old(uas.Where()), FixesRead(polls[..i]), ctx)
    {
      FixesStep(polls, i);
      var p := polls[i];
      i := i + 1;
      if p.killed {
        StaysEnded(polls, i);
        return Some(0), false;
      }
      if p.outcome.NotReady? {
        retries := retries + 1;
        if retries - 1 > MAX_GPS_WAIT_RETRIES {
          StaysEnded(polls, i);
          return Some(1), true;
        }
        continue;
      } else {
        retries := 0;
        if p.outcome.ReadFailed? {
          readRetries := readRetries + 1;
          if readRetries - 1 > MAX_GPS_READ_RETRIES {
            StaysEnded(polls, i);
            return Some(1), true;
          }
          continue;
        }
        readRetries := 0;
        uas.ProcessGpsData(p.outcome.fix, ctx);
        ghost var fixes := FixesRead(polls[..i - 1]);
        assert (fixes + [p.outcome.fix])[..|fixes|] == fixes;
      }
    }
    assert polls[..|polls|] == polls;
    return None, false;
  }

  /** How many of the last polls timed out, without a break. */
  function Timeouts(polls: seq<Poll>): (n: nat) {
    if polls == [] || !polls[|polls| - 1].outcome.NotReady? then 0 else 1 + Timeouts(polls[..|polls| - 1])
  }

  /** How many polls failed to read since the last successful read; timeouts do not matter. */
  function Failures(polls: seq<Poll>): (n: nat) {
    if polls == [] || polls[|polls| - 1].outcome.Read? then 0
    else (if polls[|polls| - 1].outcome.ReadFailed? then 1 else 0) + Failures(polls[..|polls| - 1])
  }

  /** While the loop runs, its counters are these two numbers. */
  lemma {:induction false} CountersMean(polls: seq<Poll>)
    requires After(polls).status.None?
    ensures After(polls).retries == Timeouts(polls) <= 61
    ensures After(polls).readRetries == Failures(polls) <= 6
  {
    if polls != [] {
      CountersMean(polls[..|polls| - 1]);
    }
  }

  /** The loop ends with status 1 exactly at the 62nd timeout in a row or at the 7th failed read with
      no successful one between, and with status 0 exactly when it finds the program killed. */
  lemma EndsExactly(polls: seq<Poll>, p: Poll)
    requires After(polls).status.None?
    ensures After(polls + [p]).status == Some(0) <==> p.killed
    ensures After(polls + [p]).status == Some(1) <==>
            && !p.killed
            && ((p.outcome.NotReady? && Timeouts(polls + [p]) == 62)
                || (p.outcome.ReadFailed? && Failures(polls + [p]) == 7))
    ensures After(polls + [p]).status in {None, Some(0), Some(1)}
  {
    CountersMean(polls);
    assert (polls + [p])[..|polls|] == polls;
  }

  predicate Unsuccessful(p: Poll) {
    !p.killed && !p.outcome.Read?
  }

  /** What is left of the retries: the measure that every unsuccessful iteration lowers. */
  function Budget(l: Loop): (n: int) {
    62 * (6 - l.readRetries) + (62 - l.retries)
  }

  lemma {:induction false} BudgetShrinks(polls: seq<Poll>, k: nat)
    requires k <= |polls| && After(polls).status.None?
    requires forall i :: |polls| - k <= i < |polls| ==> Unsuccessful(polls[i])
    ensures 1 <= Budget(After(polls)) <= 434 - k
  {
    CountersMean(polls);
    if k > 0 {
      var front := polls[..|polls| - 1];
      CountersMean(front);
      BudgetShrinks(front, k - 1);
    }
  }

  /** No run of the loop makes more than 434 unsuccessful iterations in a row, the one in which it
      gives up included. */
  lemma UnsuccessfulRunsAreBounded(polls: seq<Poll>, k: nat)
    requires 1 <= k <= |polls|
    requires After(polls[..|polls| - 1]).status.None?
    requires forall i :: |polls| - k <= i < |polls| ==> Unsuccessful(polls[i])
    ensures k <= 7 * 62
  {
    BudgetShrinks(polls[..|polls| - 1], k - 1);
  }

  /** Sixty-one timeouts and a failed read, over and over. */
  function Worst(n: nat): (polls: seq<Poll>)
    ensures |polls| == n
  {
    seq(n, i => Poll(false, if i % 62 == 61 then ReadFailed else NotReady))
  }

  lemma {:induction false} WorstRuns(n: nat)
    requires n <= 433
    ensures After(Worst(n)) == Loop(n % 62, n / 62, None)
  {
    if n > 0 {
      WorstRuns(n - 1);
      assert Worst(n)[..n - 1] == Worst(n - 1);
    }
  }

  /** The bound is reached. */
  lemma BoundIsReached()
    ensures After(Worst(433)).status == None && After(Worst(434)).status == Some(1)
    ensures forall i :: 0 <= i < 434 ==> Unsuccessful(Worst(434)[i])
  {
    WorstRuns(433);
    assert Worst(434)[..433] == Worst(433);
  }
}
