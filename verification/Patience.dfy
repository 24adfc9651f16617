/** Retry-After in the machine: what its interleaved steps decide for a request, and how a patient client fares. */
module Patience {
  import opened Core
  import opened Clock
  import opened Tables
  import opened Policies
  import opened Admission
  import opened Engine

  // ---- The machine decides like the middleware ----

  /** The budget stage is over for the request. */
  predicate Decided(p: Phase) {
    !p.Lookup? && !p.ReadingUsage?
  }

  /** How it ended: every decided phase but a refusal lies behind an admission. */
  function OutcomeOf(p: Phase): Outcome {
    if p.Refused? then Deny(p.window, p.retryAfter) else Pass
  }

  /** Which of the request's queries have not failed. */
  function HealthOf(r: Request): Health {
    Health(!r.policy.Unavailable?, !r.user.hour.Lost?, !r.user.day.Lost?, !r.team.hour.Lost?, !r.team.day.Lost?)
  }

  /** What the budget queries of one identity see is the same in both states; all other rows may differ. */
  ghost predicate SameFor(who: Identity, s: State, t: State) {
    && GetBudgetPolicy(t.policies, who) == GetBudgetPolicy(s.policies, who)
    && SameUsage(User(who), s, t)
    && (who.team.Some? ==> SameUsage(Team(who), s, t))
  }

  ghost predicate SameUsage(p: Party, s: State, t: State) {
    forall kind, start :: WindowUsage(TableOf(t, kind), p, start) == WindowUsage(TableOf(s, kind), p, start)
  }

  predicate Answers(x: Reading, use: Use) {
    x.Got? ==> x.use == use
  }

  /** What the request has read in the tables of s is what the statements of the attempt read there, and if it is
      decided, the middleware's outcome for that attempt is its own. */
  predicate Follows(s: State, r: Request, a: Attempt) {
    && (match r.policy
        case Unresolved => r.phase.Lookup?
        case Absent => GetBudgetPolicy(s.policies, r.who).None?
        case Unavailable => true
        case Resolved(limits) =>
          var found := GetBudgetPolicy(s.policies, r.who);
          found.Some? && found.value.limits == limits)
    && (var user := UserWindows(s.hour, s.day, r.who, a);
        Answers(r.user.hour, user.hour) && Answers(r.user.day, user.day))
    && (r.who.team.Some? ==>
        var team := TeamWindows(s.hour, s.day, r.who, a).value;
        Answers(r.team.hour, team.hour) && Answers(r.team.day, team.day))
    && (Decided(r.phase) ==> OutcomeOf(r.phase) == Admit(s.policies, s.hour, s.day, r.who, HealthOf(r), a))
  }

  /** Its statements run in order, between two instants. */
  predicate Between(a: Attempt, start: int, now: int) {
    InOrder(a) && start <= StartOf(a) && a.decided <= now
  }

  /** The attempt so far, with the step's instant for every statement that may still come. */
  function Proceed(r: Request, act: Action, a: Attempt, now: int): Attempt {
    if Decided(r.phase) then a
    else if act.ReadUser? && act.kind.Hour? && r.user.hour.Unread? then
      a.(userHour := now, userDay := now, decided := now)
    else if act.ReadUser? && act.kind.Day? && r.user.day.Unread? then a.(userDay := now, decided := now)
    else if act.ReadTeam? && act.kind.Hour? && r.team.hour.Unread? then
      a.(teamHour := now, teamDay := now, decided := now)
    else if act.ReadTeam? && act.kind.Day? && r.team.day.Unread? then a.(teamDay := now, decided := now)
    else a.(decided := now)
  }

  /** A reader's next answer is the attempt's. */
  lemma NextAnswers(s: State, t: State, r: Readings, p: Party, kind: WindowKind, ok: bool, hour: Use, day: Use)
    requires SameUsage(p, s, t) && Answers(r.hour, hour) && Answers(r.day, day)
    ensures var r' := ReadNext(t, r, p, kind, ok);
      && Answers(r'.hour,
                 if kind.Hour? && r.hour.Unread? then WindowUsage(s.hour, p, WindowStart(Hour, t.now)) else hour)
      && Answers(r'.day, if kind.Day? && r.day.Unread? then WindowUsage(s.day, p, WindowStart(Day, t.now)) else day)
  {
    assert TableOf(s, Hour) == s.hour && TableOf(s, Day) == s.day;
    assert TableOf(t, Hour) == t.hour && TableOf(t, Day) == t.day;
  }

  lemma UserReadFollows(s: State, t: State, r: Request, act: Action, a: Attempt)
    requires SameFor(r.who, s, t) && WellPhased(r) && Follows(s, r, a) && act.ReadUser?
    ensures Follows(s, StepRequest(t, r, act), Proceed(r, act, a, t.now))
  {
    var was := UserWindows(s.hour, s.day, r.who, a);
    NextAnswers(s, t, r.user, User(r.who), act.kind, act.ok, was.hour, was.day);
  }

  lemma TeamReadFollows(s: State, t: State, r: Request, act: Action, a: Attempt)
    requires SameFor(r.who, s, t) && WellPhased(r) && Follows(s, r, a) && act.ReadTeam?
    ensures Follows(s, StepRequest(t, r, act), Proceed(r, act, a, t.now))
  {
    if r.who.team.Some? {
      var was := TeamWindows(s.hour, s.day, r.who, a).value;
      NextAnswers(s, t, r.team, Team(r.who), act.kind, act.ok, was.hour, was.day);
    }
  }

  /** Readers that succeeded have read what the attempt reads. */
  lemma ReadingsAreTheAttempts(s: State, r: Request, a: Attempt)
    requires WellPhased(r) && Follows(s, r, a) && ReadersDone(r) && !AnyReaderLost(r)
    ensures WindowsOf(r.user) == UserWindows(s.hour, s.day, r.who, a)
    ensures (if r.who.team.Some? then Some(WindowsOf(r.team)) else None) == TeamWindows(s.hour, s.day, r.who, a)
  {
  }

  lemma VerdictIsTheMiddlewares(s: State, r: Request, a: Attempt, now: int)
    requires WellPhased(r) && Follows(s, r, a) && r.phase.ReadingUsage? && ReadersDone(r)
    ensures Admit(s.policies, s.hour, s.day, r.who, HealthOf(r), a.(decided := now))
         == if Verdict(r).None? then Pass else Deny(Verdict(r).value, RetryAfterSeconds(now, Verdict(r).value))
  {
    if !AnyReaderLost(r) {
      ReadingsAreTheAttempts(s, r, a);
    }
  }

  lemma DecisionFollows(s: State, t: State, r: Request, i: nat, a: Attempt)
    requires SameFor(r.who, s, t) && WellPhased(r) && Follows(s, r, a) && r.phase.ReadingUsage?
    ensures Follows(s, StepRequest(t, r, DecideAdmission(i)), a.(decided := t.now))
  {
    if ReadersDone(r) {
      VerdictIsTheMiddlewares(s, r, a, t.now);
    }
  }

  /** Once decided, a request keeps its outcome and its readings. */
  lemma DecidedForGood(t: State, r: Request, act: Action)
    requires WellPhased(r) && Decided(r.phase)
    ensures var r' := StepRequest(t, r, act);
      && Decided(r'.phase) && OutcomeOf(r'.phase) == OutcomeOf(r.phase)
      && r'.who == r.who && r'.policy == r.policy && r'.user == r.user && r'.team == r.team
  {
  }

  lemma LookupFollows(s: State, t: State, r: Request, act: Action, a: Attempt)
    requires SameFor(r.who, s, t) && WellPhased(r) && Follows(s, r, a) && r.phase.Lookup?
    requires !act.ReadUser? && !act.ReadTeam?
    ensures Follows(s, StepRequest(t, r, act), a.(decided := t.now))
  {
  }

  lemma WaitingFollows(s: State, t: State, r: Request, act: Action, a: Attempt)
    requires Follows(s, r, a) && r.phase.ReadingUsage? && !act.ReadUser? && !act.ReadTeam? && !act.DecideAdmission?
    ensures Follows(s, StepRequest(t, r, act), a.(decided := t.now))
  {
  }

  lemma BetweenGoesOn(r: Request, act: Action, a: Attempt, start: int, now: int)
    requires Between(a, start, now)
    ensures Between(Proceed(r, act, a, now), start, now)
    ensures !Decided(r.phase) ==> Proceed(r, act, a, now).decided == now
  {
  }

  lemma StepFollows(s: State, t: State, r: Request, act: Action, a: Attempt)
    requires SameFor(r.who, s, t) && WellPhased(r) && Follows(s, r, a)
    ensures Follows(s, StepRequest(t, r, act), Proceed(r, act, a, t.now))
  {
    if Decided(r.phase) {
      DecidedForGood(t, r, act);
    } else if act.ReadUser? {
      UserReadFollows(s, t, r, act, a);
    } else if act.ReadTeam? {
      TeamReadFollows(s, t, r, act, a);
    } else if r.phase.Lookup? {
      LookupFollows(s, t, r, act, a);
    } else if act.DecideAdmission? {
      DecisionFollows(s, t, r, act.i, a);
    } else {
      WaitingFollows(s, t, r, act, a);
    }
  }

  // ---- One visit in a run ----

  /** Position in the run, as a state. */
  ghost function At(init: State, acts: seq<Action>, n: nat): State
    requires n <= |acts|
  {
    Run(init, acts[..n])
  }

  lemma NextState(init: State, acts: seq<Action>, n: nat)
    requires n < |acts|
    ensures At(init, acts, n + 1) == Exec(At(init, acts, n), acts[n])
  {
    assert acts[..n + 1][..n] == acts[..n];
  }

  /** What the budget queries of one identity see stays as it is from position m to position n. */
  ghost predicate Still(init: State, acts: seq<Action>, m: nat, n: nat, who: Identity) {
    m <= n <= |acts| && forall k :: m <= k <= n ==> SameFor(who, At(init, acts, m), At(init, acts, k))
  }

  lemma {:induction false} ClockGoesOn(init: State, acts: seq<Action>, m: nat, n: nat)
    requires m <= n <= |acts|
    ensures At(init, acts, m).now <= At(init, acts, n).now
  {
    if m < n {
      ClockGoesOn(init, acts, m, n - 1);
      NextState(init, acts, n - 1);
      ClockStep(At(init, acts, n - 1), acts[n - 1]);
    }
  }

  lemma ClockStep(s: State, a: Action)
    ensures s.now <= Exec(s, a).now
  {
    if Subject(a).Some? && Subject(a).value < |s.reqs| {
      TablesFrame(s, s.reqs[Subject(a).value], a);
    }
  }

  /** A request that has just arrived, whatever else happens meanwhile, makes one attempt of the middleware. */
  lemma {:induction false} MachineAdmitsLikeTheMiddleware(init: State, acts: seq<Action>, m: nat, n: nat, i: nat,
                                                          who: Identity)
    returns (a: Attempt)
    requires Still(init, acts, m, n, who) && i < |At(init, acts, m).reqs| && At(init, acts, m).reqs[i] == Arrived(who)
    ensures i < |At(init, acts, n).reqs| && At(init, acts, n).reqs[i].who == who
    ensures WellPhased(At(init, acts, n).reqs[i])
    ensures Between(a, At(init, acts, m).now, At(init, acts, n).now)
    ensures Follows(At(init, acts, m), At(init, acts, n).reqs[i], a)
    decreases n
  {
    var s := At(init, acts, m);
    if m == n {
      a := Attempt(s.now, s.now, s.now, s.now, s.now);
    } else {
      a := MachineAdmitsLikeTheMiddleware(init, acts, m, n - 1, i, who);
      var t := At(init, acts, n - 1);
      NextState(init, acts, n - 1);
      a := OneMoreStep(s, t, acts[n - 1], i, a);
    }
  }

  lemma OneMoreStep(s: State, t: State, act: Action, i: nat, a: Attempt) returns (a': Attempt)
    requires i < |t.reqs| && WellPhased(t.reqs[i]) && SameFor(t.reqs[i].who, s, t)
    requires Follows(s, t.reqs[i], a) && Between(a, s.now, t.now)
    ensures var t' := Exec(t, act);
      && i < |t'.reqs| && t'.reqs[i].who == t.reqs[i].who && WellPhased(t'.reqs[i])
      && Follows(s, t'.reqs[i], a') && Between(a', s.now, t'.now)
      && (!Decided(t.reqs[i].phase) && Decided(t'.reqs[i].phase) ==> a'.decided == t.now)
  {
    a' := a;
    ClockStep(t, act);
    if Subject(act) == Some(i) {
      RequestFrame(t, i, act);
      StepKeepsPhases(t, t.reqs[i], act);
      StepFollows(s, t, t.reqs[i], act, a);
      BetweenGoesOn(t.reqs[i], act, a, s.now, t.now);
      a' := Proceed(t.reqs[i], act, a, t.now);
    } else {
      Bystander(t, act, i);
    }
  }

  lemma Bystander(t: State, act: Action, i: nat)
    requires i < |t.reqs| && Subject(act) != Some(i)
    ensures i < |Exec(t, act).reqs| && Exec(t, act).reqs[i] == t.reqs[i]
  {
    if Subject(act).Some? && Subject(act).value < |t.reqs| {
      RequestFrame(t, Subject(act).value, act);
    }
  }

  /** Request i arrives before action `arrived`, and action `decided` ends its budget stage. */
  datatype Visit = Visit(i: nat, arrived: nat, decided: nat)

  /** All its queries succeed. */
  ghost predicate Visits(init: State, acts: seq<Action>, v: Visit, who: Identity) {
    && v.arrived <= v.decided < |acts|
    && var s, t, t' := At(init, acts, v.arrived), At(init, acts, v.decided), At(init, acts, v.decided + 1);
       && v.i < |s.reqs| && v.i < |t.reqs| && v.i < |t'.reqs|
       && s.reqs[v.i] == Arrived(who) && !Decided(t.reqs[v.i].phase) && Decided(t'.reqs[v.i].phase)
       && HealthOf(t'.reqs[v.i]) == HEALTHY
  }

  ghost function VisitOutcome(init: State, acts: seq<Action>, v: Visit, who: Identity): Outcome
    requires Visits(init, acts, v, who)
  {
    OutcomeOf(At(init, acts, v.decided + 1).reqs[v.i].phase)
  }

  /** A visit is an attempt on the unchanging tables, decided when the visit is. */
  lemma VisitIsAttempt(init: State, acts: seq<Action>, from: nat, v: Visit, who: Identity) returns (a: Attempt)
    requires Still(init, acts, from, |acts|, who) && from <= v.arrived && Visits(init, acts, v, who)
    ensures InOrder(a) && a.decided == At(init, acts, v.decided).now && StartOf(a) >= At(init, acts, v.arrived).now
    ensures var s := At(init, acts, from);
      VisitOutcome(init, acts, v, who) == Admit(s.policies, s.hour, s.day, who, HEALTHY, a)
  {
    StillFromThere(init, acts, from, v.arrived, v.decided, who);
    a := VisitHere(init, acts, v, who);
    OutcomeThere(At(init, acts, from), At(init, acts, v.arrived), At(init, acts, v.decided + 1).reqs[v.i], a);
  }

  lemma VisitHere(init: State, acts: seq<Action>, v: Visit, who: Identity) returns (a: Attempt)
    requires Visits(init, acts, v, who) && Still(init, acts, v.arrived, v.decided, who)
    ensures InOrder(a) && a.decided == At(init, acts, v.decided).now && StartOf(a) >= At(init, acts, v.arrived).now
    ensures var r := At(init, acts, v.decided + 1).reqs[v.i];
      r.who == who && Follows(At(init, acts, v.arrived), r, a)
  {
    a := MachineAdmitsLikeTheMiddleware(init, acts, v.arrived, v.decided, v.i, who);
    NextState(init, acts, v.decided);
    a := OneMoreStep(At(init, acts, v.arrived), At(init, acts, v.decided), acts[v.decided], v.i, a);
  }

  lemma OutcomeThere(s: State, s': State, r: Request, a: Attempt)
    requires SameFor(r.who, s, s') && Follows(s', r, a) && Decided(r.phase) && HealthOf(r) == HEALTHY
    ensures OutcomeOf(r.phase) == Admit(s.policies, s.hour, s.day, r.who, HEALTHY, a)
  {
    SameWindows(r.who, s, s', a);
  }

  lemma SameWindows(who: Identity, s: State, t: State, a: Attempt)
    requires SameFor(who, s, t)
    ensures UserWindows(t.hour, t.day, who, a) == UserWindows(s.hour, s.day, who, a)
    ensures TeamWindows(t.hour, t.day, who, a) == TeamWindows(s.hour, s.day, who, a)
  {
    assert TableOf(s, Hour) == s.hour && TableOf(s, Day) == s.day;
    assert TableOf(t, Hour) == t.hour && TableOf(t, Day) == t.day;
  }

  lemma StillFromThere(init: State, acts: seq<Action>, from: nat, m: nat, n: nat, who: Identity)
    requires Still(init, acts, from, |acts|, who) && from <= m <= n <= |acts|
    ensures Still(init, acts, m, n, who) && SameFor(who, At(init, acts, from), At(init, acts, m))
  {
    forall k | m <= k <= n
      ensures SameFor(who, At(init, acts, m), At(init, acts, k))
    {
      assert SameFor(who, At(init, acts, from), At(init, acts, m)) && SameFor(who, At(init, acts, from),
                     At(init, acts, k));
    }
  }

  // ---- The patient client ----

  /** `next` arrives no earlier than the denial of `denied` asks for. */
  ghost predicate ComesBackAfter(init: State, acts: seq<Action>, denied: Visit, next: Visit, who: Identity)
    requires Visits(init, acts, denied, who) && Visits(init, acts, next, who)
    requires VisitOutcome(init, acts, denied, who).Deny?
  {
    At(init, acts, next.arrived).now
      >= At(init, acts, denied.decided).now + VisitOutcome(init, acts, denied, who).retryAfter * SECOND
  }

  /** No reachable table has a row in a window that has not begun. */
  lemma NoRowIsInTheFuture(init: State, acts: seq<Action>, n: nat, t: int)
    requires Init(init) && n <= |acts| && At(init, acts, n).now <= t
    ensures NoFutureRows(At(init, acts, n).hour, At(init, acts, n).day, t)
  {
    RunKeepsInv(init, acts[..n]);
    WindowsAdvance(Hour, At(init, acts, n).now, t);
    WindowsAdvance(Day, At(init, acts, n).now, t);
  }

  /** Retry-After works in every run: from any position on at which the policy of one identity and the recorded usage of
      its user and team stay as they are, with positive limits and whatever else happens, also to the rows of others, a
      client whose next request arrives after the advertised seconds is denied at most twice, the second time only for
      the day, and a denial for the day is followed by an admission. */
  lemma PatientClientIsServed(init: State, acts: seq<Action>, from: nat, who: Identity, first: Visit, second: Visit,
                              third: Visit)
    requires Init(init) && Still(init, acts, from, |acts|, who)
    requires var policy := GetBudgetPolicy(At(init, acts, from).policies, who);
      policy.Some? ==> AllPositive(policy.value.limits)
    requires Visits(init, acts, first, who) && from <= first.arrived
    requires VisitOutcome(init, acts, first, who).Deny?
    requires Visits(init, acts, second, who) && from <= second.arrived && ComesBackAfter(init, acts, first, second, who)
    ensures VisitOutcome(init, acts, first, who).window.Day? ==> VisitOutcome(init, acts, second, who).Pass?
    ensures VisitOutcome(init, acts, second, who).Deny? ==>
      VisitOutcome(init, acts, first, who).window.Hour? && VisitOutcome(init, acts, second, who).window.Day?
    ensures VisitOutcome(init, acts, second, who).Deny? && Visits(init, acts, third, who) && from <= third.arrived
              && ComesBackAfter(init, acts, second, third, who) ==>
            VisitOutcome(init, acts, third, who).Pass?
  {
    var s := At(init, acts, from);
    var a := VisitIsAttempt(init, acts, from, first, who);
    var b := VisitIsAttempt(init, acts, from, second, who);
    var c := b;
    if VisitOutcome(init, acts, second, who).Deny? && Visits(init, acts, third, who) && from <= third.arrived
       && ComesBackAfter(init, acts, second, third, who) {
      c := VisitIsAttempt(init, acts, from, third, who);
    } else if VisitOutcome(init, acts, second, who).Deny? {
      c := Later(b, VisitOutcome(init, acts, second, who).window);
    }
    ClockGoesOn(init, acts, from, first.arrived);
    NoRowIsInTheFuture(init, acts, from, StartOf(a));
    RetryAfterLeadsToAdmission(s.policies, s.hour, s.day, who, a, b, c);
  }

  /** Some attempt that is late enough. */
  lemma Later(denied: Attempt, w: WindowKind) returns (a: Attempt)
    ensures InOrder(a) && Patient(denied, w, a)
  {
    var t := denied.decided + RetryAfterSeconds(denied.decided, w) * SECOND;
    a := Attempt(t, t, t, t, t);
  }
}
