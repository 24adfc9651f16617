/** How far concurrent requests can overshoot a budget. */
module Overshoot {
  import opened Core
  import opened Clock
  import opened Tables
  import opened Admission
  import opened Engine

  /** One limit as one party meets it. */
  datatype Meter = Meter(party: Party, d: Dimension)

  predicate Meters(m: Meter) {
    Limited(m.d)
  }

  predicate Belongs(m: Meter, who: Identity) {
    match m.party
    case UserParty(org, user) => who.org == org && who.user == user
    case TeamParty(org, team) => who.org == org && who.team == Some(team)
  }

  /** Recorded usage of the party in the window starting at `start`. */
  function Used(s: State, m: Meter, start: int): int {
    RowSum(TableOf(s, m.d.kind), InWindow(m.party, start), m.d.measure)
  }

  /** The query result that is compared with this limit. */
  function ReadingOf(r: Request, m: Meter): Reading {
    var reader := if m.party.UserParty? then r.user else r.team;
    if m.d.kind.Hour? then reader.hour else reader.day
  }

  /** In flight for this limit: from the usage read that passed until the aggregate write has ended. */
  predicate InFlight(m: Meter, r: Request)
    requires Meters(m)
  {
    && Belongs(m, r.who)
    && !r.phase.Refused? && !r.phase.Done?
    && LandingOf(r, m.d.kind).NotYet?
    && r.policy.Resolved? && LimitOf(r.policy.limits, m.d).Some?
    && ReadingOf(r, m).Got? && UseOf(ReadingOf(r, m).use, m.d.measure) < LimitOf(r.policy.limits, m.d).value
  }

  function InFlightCount(m: Meter): Request -> int
    requires Meters(m)
  {
    (r: Request) => if InFlight(m, r) then 1 else 0
  }

  function Pending(s: State, m: Meter): int
    requires Meters(m)
  {
    Total(s.reqs, InFlightCount(m))
  }

  /** A request without a read error whose policy sets this limit to at most `limit`, charging between 0 and `charge`.
      */
  predicate Conforms(m: Meter, r: Request, limit: int, charge: int)
    requires Meters(m)
  {
    Belongs(m, r.who) ==>
      && (!r.policy.Unresolved? ==> r.policy.Resolved?)
      && (r.policy.Resolved? ==> LimitOf(r.policy.limits, m.d).Some? && LimitOf(r.policy.limits, m.d).value <= limit)
      && !AnyReaderLost(r)
      && (r.charge.Some? ==> 0 <= ChargeAmount(r.charge.value, m.d.measure) <= charge)
  }

  ghost predicate Disciplined(s: State, m: Meter, limit: int, inFlight: int, charge: int)
    requires Meters(m)
  {
    && Pending(s, m) <= inFlight
    && forall i :: 0 <= i < |s.reqs| ==> Conforms(m, s.reqs[i], limit, charge)
  }

  function Current(s: State, m: Meter): int {
    WindowStart(m.d.kind, s.now)
  }

  /** No window above the bound, and in the current window room for every request in flight. */
  ghost predicate Bounded(s: State, m: Meter, charge: int, bound: int)
    requires Meters(m)
  {
    && (forall start :: Used(s, m, start) <= bound)
    && Used(s, m, Current(s, m)) + Pending(s, m) * charge <= bound
  }

  lemma CountUp(pending: int, inFlight: int, charge: int)
    requires pending <= inFlight && charge >= 0
    ensures pending * charge <= inFlight * charge
  {
  }

  lemma {:induction false} CountsAreNonNegative(reqs: seq<Request>, m: Meter)
    requires Meters(m)
    ensures Total(reqs, InFlightCount(m)) >= 0
  {
    if reqs != [] {
      CountsAreNonNegative(reqs[1..], m);
    }
  }

  /** A request that is about to write this party's aggregate is in flight. */
  lemma WriterIsInFlight(m: Meter, r: Request, limit: int, charge: int)
    requires Meters(m) && WellPhased(r) && Conforms(m, r, limit, charge) && Belongs(m, r.who)
    requires if m.d.kind.Hour? then r.phase.WritingHour? else r.phase.WritingDay?
    ensures InFlight(m, r)
  {
    var team := if r.who.team.Some? then Some(WindowsOf(r.team)) else None;
    assert !Exhausted(r.policy.limits, m.d, WindowsOf(r.user), team) by {
      assert m.d == Dimension(m.d.kind, m.d.measure);
    }
  }

  /** The step records this party's charge. */
  predicate Writes(m: Meter, r: Request, a: Action) {
    Belongs(m, r.who) && Lands(r, a, m.d.kind)
  }

  /** Only an aggregate write of the meter's kind changes what is recorded for it: by its charge, in its own window. */
  lemma UsedAfterStep(s: State, r: Request, a: Action, m: Meter, start: int)
    requires Meters(m)
    ensures Used(StepTables(s, r, a), m, start) == Used(s, m, start)
      + if Writes(m, r, a) && start == Current(s, m) then ChargeAmount(r.charge.value, m.d.measure) else 0
  {
    if r.charge.Some? {
      var kind := m.d.kind;
      UpsertAddsOnce(TableOf(s, kind), KeyFor(r.who, r.charge.value, WindowStart(kind, s.now)), r.charge.value,
                     InWindow(m.party, start), m.d.measure);
    }
  }

  /** A step of one request either leaves it as much in flight as before, or takes it out, or is a read that passed. */
  lemma FlightAfterStep(s: State, r: Request, a: Action, m: Meter, limit: int, charge: int)
    requires Meters(m) && WellPhased(r)
    requires Conforms(m, StepRequest(s, r, a), limit, charge)
    requires InFlight(m, StepRequest(s, r, a)) && !InFlight(m, r)
    ensures StepTables(s, r, a) == s
    ensures Used(s, m, Current(s, m)) <= limit - 1
  {
  }

  lemma UsedAfterExec(s: State, i: nat, a: Action, m: Meter, start: int)
    requires Subject(a) == Some(i) && i < |s.reqs|
    ensures Used(Exec(s, a), m, start) == Used(StepTables(s, s.reqs[i], a), m, start)
  {
  }

  lemma PendingAfterExec(s: State, i: nat, a: Action, m: Meter)
    requires Meters(m) && Subject(a) == Some(i) && i < |s.reqs|
    ensures Pending(Exec(s, a), m) == Pending(s, m)
      - (if InFlight(m, s.reqs[i]) then 1 else 0) + (if InFlight(m, StepRequest(s, s.reqs[i], a)) then 1 else 0)
    ensures Exec(s, a).reqs[i] == StepRequest(s, s.reqs[i], a)
  {
    TotalUpdate(s.reqs, i, StepRequest(s, s.reqs[i], a), InFlightCount(m));
  }

  /** What one request's step does to the current window and to the count in flight: neither rises, or a read passed and
      nothing was written, or a request in flight wrote its charge and is done. */
  lemma StepCases(s: State, i: nat, a: Action, m: Meter, limit: int, charge: int)
    requires Meters(m) && Subject(a) == Some(i) && i < |s.reqs| && WellPhased(s.reqs[i])
    requires Conforms(m, s.reqs[i], limit, charge) && Conforms(m, StepRequest(s, s.reqs[i], a), limit, charge)
    ensures var used, used' := Used(s, m, Current(s, m)), Used(Exec(s, a), m, Current(s, m));
            var pending, pending' := Pending(s, m), Pending(Exec(s, a), m);
      || (used' == used && pending' <= pending)
      || used' == used <= limit - 1
      || (used' <= used + charge && pending' == pending - 1)
  {
    var r, now := s.reqs[i], Current(s, m);
    UsedAfterExec(s, i, a, m, now);
    UsedAfterStep(s, r, a, m, now);
    PendingAfterExec(s, i, a, m);
    if InFlight(m, StepRequest(s, r, a)) && !InFlight(m, r) {
      FlightAfterStep(s, r, a, m, limit, charge);
    } else if Writes(m, r, a) {
      WriterIsInFlight(m, r, limit, charge);
    }
  }

  /** What is recorded in the current window plus what may still come stays within the bound. */
  lemma RequestStepKeepsRoom(s: State, i: nat, a: Action, m: Meter, limit: int, charge: int, bound: int)
    requires Meters(m) && Subject(a) == Some(i) && i < |s.reqs| && WellPhased(s.reqs[i]) && charge >= 0
    requires Used(s, m, Current(s, m)) + Pending(s, m) * charge <= bound
    requires limit - 1 + Pending(Exec(s, a), m) * charge <= bound
    requires Conforms(m, s.reqs[i], limit, charge) && Conforms(m, StepRequest(s, s.reqs[i], a), limit, charge)
    ensures Used(Exec(s, a), m, Current(s, m)) + Pending(Exec(s, a), m) * charge <= bound
  {
    StepCases(s, i, a, m, limit, charge);
    Room(Used(s, m, Current(s, m)), Used(Exec(s, a), m, Current(s, m)), Pending(s, m), Pending(Exec(s, a), m), limit,
         charge, bound);
  }

  lemma Room(used: int, used': int, pending: int, pending': int, limit: int, charge: int, bound: int)
    requires charge >= 0 && used + pending * charge <= bound && limit - 1 + pending' * charge <= bound
    requires || (used' == used && pending' <= pending)
             || used' == used <= limit - 1
             || (used' <= used + charge && pending' == pending - 1)
    ensures used' + pending' * charge <= bound
  {
    if pending' <= pending {
      CountUp(pending', pending, charge);
    }
    if pending' == pending - 1 {
      assert pending' * charge == pending * charge - charge;
    }
  }

  lemma RequestStepKeepsBound(s: State, i: nat, a: Action, m: Meter, limit: int, charge: int, bound: int)
    requires Meters(m) && Inv(s) && Subject(a) == Some(i) && i < |s.reqs| && charge >= 0
    requires Bounded(s, m, charge, bound)
    requires limit - 1 + Pending(Exec(s, a), m) * charge <= bound
    requires Conforms(m, s.reqs[i], limit, charge) && Conforms(m, StepRequest(s, s.reqs[i], a), limit, charge)
    ensures Bounded(Exec(s, a), m, charge, bound)
  {
    RequestStepKeepsRoom(s, i, a, m, limit, charge, bound);
    CountsAreNonNegative(Exec(s, a).reqs, m);
    CountUp(0, Pending(Exec(s, a), m), charge);
    forall start
      ensures Used(Exec(s, a), m, start) <= bound
    {
      UsedAfterExec(s, i, a, m, start);
      UsedAfterStep(s, s.reqs[i], a, m, start);
    }
  }

  lemma EnvironmentKeepsBound(s: State, a: Action, m: Meter, limit: int, charge: int, bound: int)
    requires Meters(m) && Inv(s) && Subject(a).None? && limit >= 1 && charge >= 0
    requires Bounded(s, m, charge, bound) && limit - 1 + Pending(Exec(s, a), m) * charge <= bound
    ensures Bounded(Exec(s, a), m, charge, bound)
  {
    var s' := Environment(s, a);
    SameTables(s, s', m);
    WindowsAdvance(m.d.kind, s.now, s'.now);
    if Current(s', m) > Current(s, m) {
      NothingInLaterWindows(TableOf(s, m.d.kind), Current(s, m), m.party, Current(s', m), m.d.measure);
    } else if |s'.reqs| > |s.reqs| {
      TotalAppend(s.reqs, s'.reqs[|s.reqs|], InFlightCount(m));
    }
  }

  lemma StepKeepsBound(s: State, a: Action, m: Meter, limit: int, inFlight: int, charge: int)
    requires Meters(m) && Inv(s) && limit >= 1 && charge >= 0
    requires Bounded(s, m, charge, limit - 1 + inFlight * charge)
    requires Disciplined(s, m, limit, inFlight, charge) && Disciplined(Exec(s, a), m, limit, inFlight, charge)
    ensures Bounded(Exec(s, a), m, charge, limit - 1 + inFlight * charge)
  {
    CountUp(Pending(Exec(s, a), m), inFlight, charge);
    if Subject(a).None? {
      EnvironmentKeepsBound(s, a, m, limit, charge, limit - 1 + inFlight * charge);
    } else if Subject(a).value < |s.reqs| {
      PendingAfterExec(s, Subject(a).value, a, m);
      RequestStepKeepsBound(s, Subject(a).value, a, m, limit, charge, limit - 1 + inFlight * charge);
    }
  }

  lemma SameTables(s: State, s': State, m: Meter)
    requires s.hour == s'.hour && s.day == s'.day
    ensures forall start :: Used(s', m, start) == Used(s, m, start)
  {
  }

  /** Bounded overshoot. In every interleaving, if the party's requests meet no read error, resolve to limits of at
      most `limit`, charge at most `charge` each and are at most `inFlight` at any time, then no hour or day window
      ever records more than limit - 1 + inFlight * charge for it, across rollovers and stale reads. */
  lemma {:induction false} BoundedOvershoot(init: State, acts: seq<Action>, m: Meter, limit: int, inFlight: int,
                                            charge: int)
    requires Meters(m) && Init(init) && limit >= 1 && inFlight >= 0 && charge >= 0
    requires forall n :: 0 <= n <= |acts| ==> Disciplined(Run(init, acts[..n]), m, limit, inFlight, charge)
    ensures Bounded(Run(init, acts), m, charge, limit - 1 + inFlight * charge)
    ensures forall start :: Used(Run(init, acts), m, start) <= limit - 1 + inFlight * charge
  {
    assert acts[..|acts|] == acts;
    if acts == [] {
      CountUp(0, inFlight, charge);
    } else {
      var before := acts[..|acts| - 1];
      forall n | 0 <= n <= |before|
        ensures Disciplined(Run(init, before[..n]), m, limit, inFlight, charge)
      {
        PrefixOfRun(acts, n);
      }
      BoundedOvershoot(init, before, m, limit, inFlight, charge);
      RunKeepsInv(init, before);
      StepKeepsBound(Run(init, before), acts[|acts| - 1], m, limit, inFlight, charge);
    }
  }
}
