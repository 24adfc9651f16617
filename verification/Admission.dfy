/** The budget decision, and what a patient client sees of it over time. */
module Admission {
  import opened Clock
  import opened Core
  import opened Policies
  import opened Tables

  /** One party's usage in its hour window and in its day window. */
  datatype Windows = Windows(hour: Use, day: Use)

  /** The four limits a policy can set. */
  datatype Dimension = Dimension(kind: WindowKind, measure: Measure)

  predicate Limited(d: Dimension) {
    d.measure.Cost? || d.measure.Tokens?
  }

  function LimitOf(l: Limits, d: Dimension): Option<int>
    requires Limited(d)
  {
    match d.kind
    case Hour => if d.measure.Cost? then l.costHour else l.tokensHour
    case Day => if d.measure.Cost? then l.costDay else l.tokensDay
  }

  function UseOf(u: Use, m: Measure): int
    requires m.Cost? || m.Tokens?
  {
    if m.Cost? then u.cost else u.tokens
  }

  function UsedIn(w: Windows, d: Dimension): int
    requires Limited(d)
  {
    UseOf(if d.kind.Hour? then w.hour else w.day, d.measure)
  }

  /** One `if` of step 5: the limit is set and the user, or the team when there is one, has reached it. */
  predicate Exhausted(l: Limits, d: Dimension, user: Windows, team: Option<Windows>)
    requires Limited(d)
  {
    var limit := LimitOf(l, d);
    limit.Some? && (UsedIn(user, d) >= limit.value || (team.Some? && UsedIn(team.value, d) >= limit.value))
  }

  /** The limits in the order they are checked; None admits, Some names the window the denial reports. */
  function Decide(l: Limits, user: Windows, team: Option<Windows>): Option<WindowKind> {
    if Exhausted(l, Dimension(Hour, Cost), user, team) then Some(Hour)
    else if Exhausted(l, Dimension(Day, Cost), user, team) then Some(Day)
    else if Exhausted(l, Dimension(Hour, Tokens), user, team) then Some(Hour)
    else if Exhausted(l, Dimension(Day, Tokens), user, team) then Some(Day)
    else None
  }

  /** What is left of a limit for a user and its team: the smaller remainder counts. */
  function Remaining(limit: int, used: int, teamUsed: Option<int>): int {
    if teamUsed.Some? && limit - teamUsed.value < limit - used then limit - teamUsed.value else limit - used
  }

  /** Admitted exactly when every limit that is set has something remaining for both parties. */
  lemma SmallestRemainingWins(l: Limits, user: Windows, team: Option<Windows>)
    ensures Decide(l, user, team).None? <==>
      forall d: Dimension :: Limited(d) && LimitOf(l, d).Some? ==>
        Remaining(LimitOf(l, d).value, UsedIn(user, d), if team.Some? then Some(UsedIn(team.value, d)) else None) > 0
  {
    forall d: Dimension | Limited(d) && LimitOf(l, d).Some?
      ensures Exhausted(l, d, user, team) <==>
        Remaining(LimitOf(l, d).value, UsedIn(user, d), if team.Some? then Some(UsedIn(team.value, d)) else None) <= 0
    {
    }
    if forall d: Dimension :: Limited(d) && LimitOf(l, d).Some? ==> !Exhausted(l, d, user, team) {
      assert Limited(Dimension(Hour, Cost)) && Limited(Dimension(Day, Cost));
      assert Limited(Dimension(Hour, Tokens)) && Limited(Dimension(Day, Tokens));
    } else {
      var d: Dimension :| Limited(d) && LimitOf(l, d).Some? && Exhausted(l, d, user, team);
      assert d == Dimension(d.kind, d.measure);
    }
  }

  /** A limit that is set and that the user, or the team when there is one, has reached. */
  predicate Reached(limit: Option<int>, user: int, team: Option<int>) {
    limit.Some? && (user >= limit.value || (team.Some? && team.value >= limit.value))
  }

  /** Which window a denial names: the hour if the hour's cost limit is reached, or the day's is not but the hour's
      token limit is; the day if the day's cost limit is reached and the hour's is not, or only the day's token limit
      is. */
  lemma DenialNamesItsWindow(l: Limits, user: Windows, team: Option<Windows>)
    ensures
      var costHour := Reached(l.costHour, user.hour.cost, if team.Some? then Some(team.value.hour.cost) else None);
      var costDay := Reached(l.costDay, user.day.cost, if team.Some? then Some(team.value.day.cost) else None);
      var tokensHour := Reached(l.tokensHour, user.hour.tokens,
                                if team.Some? then Some(team.value.hour.tokens) else None);
      var tokensDay := Reached(l.tokensDay, user.day.tokens, if team.Some? then Some(team.value.day.tokens) else None);
      && (Decide(l, user, team) == Some(Hour) <==> costHour || (!costDay && tokensHour))
      && (Decide(l, user, team) == Some(Day) <==> !costHour && (costDay || (!tokensHour && tokensDay)))
      && (Decide(l, user, team).None? <==> !costHour && !costDay && !tokensHour && !tokensDay)
  {
  }

  predicate NoMoreUsed(a: Windows, b: Windows) {
    && a.hour.cost <= b.hour.cost && a.hour.tokens <= b.hour.tokens
    && a.day.cost <= b.day.cost && a.day.tokens <= b.day.tokens
  }

  predicate NoLower(a: Option<int>, b: Option<int>) {
    a.None? || (b.Some? && b.value <= a.value)
  }

  /** Less usage, no team or higher limits never turn an admission into a denial. */
  lemma AdmissionIsMonotone(l: Limits, user: Windows, team: Option<Windows>, l': Limits, user': Windows,
                            team': Option<Windows>)
    requires NoLower(l'.costHour, l.costHour) && NoLower(l'.costDay, l.costDay)
    requires NoLower(l'.tokensHour, l.tokensHour) && NoLower(l'.tokensDay, l.tokensDay)
    requires NoMoreUsed(user', user)
    requires team'.Some? ==> team.Some? && NoMoreUsed(team'.value, team.value)
    ensures Decide(l, user, team).None? ==> Decide(l', user', team').None?
  {
  }

  // ---- One pass through the middleware ----

  /** When each statement of one attempt runs; the two parties' readers interleave freely. */
  datatype Attempt = Attempt(userHour: int, userDay: int, teamHour: int, teamDay: int, decided: int)

  function Earlier(a: int, b: int): int { if a <= b then a else b }

  /** No reader starts before this instant. */
  function StartOf(a: Attempt): int {
    Earlier(a.userHour, a.teamHour)
  }

  /** Each reader asks for its hour before its day, and the decision waits for both. */
  predicate InOrder(a: Attempt) {
    a.userHour <= a.userDay <= a.decided && a.teamHour <= a.teamDay <= a.decided
  }

  /** Which of the middleware's queries succeed. */
  datatype Health = Health(policy: bool, userHour: bool, userDay: bool, teamHour: bool, teamDay: bool)

  datatype Outcome = Pass | Deny(window: WindowKind, retryAfter: int)

  predicate ReadersSucceed(who: Identity, h: Health) {
    h.userHour && h.userDay && (who.team.Some? ==> h.teamHour && h.teamDay)
  }

  function UserWindows(hour: seq<AggRow>, day: seq<AggRow>, who: Identity, a: Attempt): Windows {
    var p := UserParty(who.org, who.user);
    Windows(WindowUsage(hour, p, WindowStart(Hour, a.userHour)), WindowUsage(day, p, WindowStart(Day, a.userDay)))
  }

  function TeamWindows(hour: seq<AggRow>, day: seq<AggRow>, who: Identity, a: Attempt): Option<Windows> {
    if who.team.None? then None
    else
      var p := TeamParty(who.org, who.team.value);
      Some(Windows(WindowUsage(hour, p, WindowStart(Hour, a.teamHour)),
                   WindowUsage(day, p, WindowStart(Day, a.teamDay))))
  }

  /** The middleware on tables that stay as they are; a failed query and a missing policy both let the request pass. */
  function Admit(policies: seq<PolicyRow>, hour: seq<AggRow>, day: seq<AggRow>, who: Identity, h: Health,
                 a: Attempt): Outcome {
    var policy := GetBudgetPolicy(policies, who);
    if !h.policy || policy.None? || !ReadersSucceed(who, h) then Pass
    else
      match Decide(policy.value.limits, UserWindows(hour, day, who, a), TeamWindows(hour, day, who, a))
      case None => Pass
      case Some(w) => Deny(w, RetryAfterSeconds(a.decided, w))
  }

  /** The whole middleware in the rows and columns it reads: it denies exactly when the lookup and all its reads
      succeed, there is a policy, and a limit is reached by the usage that the user's or the team's queries return for
      the hour and the day of the instants they run at; the seconds are those of the instant of the decision. */
  lemma MiddlewareInQueries(policies: seq<PolicyRow>, hour: seq<AggRow>, day: seq<AggRow>, who: Identity, h: Health,
                            a: Attempt)
    ensures var policy := GetBudgetPolicy(policies, who);
      var user := UserParty(who.org, who.user);
      var healthy := h.policy && h.userHour && h.userDay && (who.team.Some? ==> h.teamHour && h.teamDay);
      var userUse := Windows(WindowUsage(hour, user, WindowStart(Hour, a.userHour)),
                             WindowUsage(day, user, WindowStart(Day, a.userDay)));
      var teamUse := if who.team.None? then None else
        Some(Windows(WindowUsage(hour, TeamParty(who.org, who.team.value), WindowStart(Hour, a.teamHour)),
                     WindowUsage(day, TeamParty(who.org, who.team.value), WindowStart(Day, a.teamDay))));
      && (Admit(policies, hour, day, who, h, a).Pass? <==>
            !healthy || policy.None? || Decide(policy.value.limits, userUse, teamUse).None?)
      && (forall w, n :: Admit(policies, hour, day, who, h, a) == Deny(w, n) <==>
            && healthy && policy.Some? && Decide(policy.value.limits, userUse, teamUse) == Some(w)
            && n == RetryAfterSeconds(a.decided, w))
  {
  }

  const HEALTHY := Health(true, true, true, true, true)

  predicate Positive(limit: Option<int>) {
    limit.Some? ==> limit.value > 0
  }

  predicate AllPositive(l: Limits) {
    Positive(l.costHour) && Positive(l.costDay) && Positive(l.tokensHour) && Positive(l.tokensDay)
  }

  /** Every row lies in a window that had begun at instant t. */
  ghost predicate NoFutureRows(hour: seq<AggRow>, day: seq<AggRow>, t: int) {
    && (forall row :: row in hour ==> row.key.start <= WindowStart(Hour, t))
    && (forall row :: row in day ==> row.key.start <= WindowStart(Day, t))
  }

  /** The next attempt begins no earlier than the denial's Retry-After asks for. */
  predicate Patient(denied: Attempt, window: WindowKind, next: Attempt) {
    StartOf(next) >= denied.decided + RetryAfterSeconds(denied.decided, window) * SECOND
  }

  /** What an attempt reads of a kind of window that is later, at its start, than every recorded one: nothing. */
  lemma FreshWindowsAreEmpty(hour: seq<AggRow>, day: seq<AggRow>, who: Identity, a: Attempt, latest: int, w: WindowKind)
    requires InOrder(a) && NoFutureRows(hour, day, latest)
    requires WindowStart(w, StartOf(a)) > WindowStart(w, latest)
    ensures forall d: Dimension :: Limited(d) && d.kind == w ==>
      && UsedIn(UserWindows(hour, day, who, a), d) == 0
      && (who.team.Some? ==> UsedIn(TeamWindows(hour, day, who, a).value, d) == 0)
  {
    var rows, past := if w.Hour? then hour else day, WindowStart(w, latest);
    var user := WindowStart(w, if w.Hour? then a.userHour else a.userDay);
    var team := WindowStart(w, if w.Hour? then a.teamHour else a.teamDay);
    WindowsAdvance(w, StartOf(a), if w.Hour? then a.userHour else a.userDay);
    WindowsAdvance(w, StartOf(a), if w.Hour? then a.teamHour else a.teamDay);
    forall p: Party, m: Measure
      ensures RowSum(rows, InWindow(p, user), m) == 0 && RowSum(rows, InWindow(p, team), m) == 0
    {
      NothingInLaterWindows(rows, past, p, user, m);
      NothingInLaterWindows(rows, past, p, team, m);
    }
  }

  /** An attempt whose hour windows are all later than every hour row is never denied for the hour; likewise for days.
      */
  lemma FreshWindowsAdmit(policies: seq<PolicyRow>, hour: seq<AggRow>, day: seq<AggRow>, who: Identity, a: Attempt,
                          latest: int, w: WindowKind)
    requires InOrder(a) && NoFutureRows(hour, day, latest)
    requires GetBudgetPolicy(policies, who).Some? ==> AllPositive(GetBudgetPolicy(policies, who).value.limits)
    requires WindowStart(w, StartOf(a)) > WindowStart(w, latest)
    ensures Admit(policies, hour, day, who, HEALTHY, a).Deny? ==>
      Admit(policies, hour, day, who, HEALTHY, a).window != w
  {
    FreshWindowsAreEmpty(hour, day, who, a, latest, w);
    assert Limited(Dimension(w, Cost)) && Limited(Dimension(w, Tokens));
  }

  /** Retry-After works: with positive limits and no further charge landing, a patient client is denied at most
      twice, the second time only for the day, and a denial for the day is followed by an admission at once. */
  lemma RetryAfterLeadsToAdmission(policies: seq<PolicyRow>, hour: seq<AggRow>, day: seq<AggRow>, who: Identity,
                                   first: Attempt, second: Attempt, third: Attempt)
    requires InOrder(first) && InOrder(second) && InOrder(third)
    requires NoFutureRows(hour, day, StartOf(first))
    requires GetBudgetPolicy(policies, who).Some? ==> AllPositive(GetBudgetPolicy(policies, who).value.limits)
    requires var o := Admit(policies, hour, day, who, HEALTHY, first); o.Deny? ==> Patient(first, o.window, second)
    requires var o := Admit(policies, hour, day, who, HEALTHY, second); o.Deny? ==> Patient(second, o.window, third)
    ensures var o1 := Admit(policies, hour, day, who, HEALTHY, first);
            var o2 := Admit(policies, hour, day, who, HEALTHY, second);
            var o3 := Admit(policies, hour, day, who, HEALTHY, third);
            o1.Deny? ==>
              && (o1.window.Day? ==> o2.Pass?)
              && (o2.Deny? ==> o1.window.Hour? && o2.window.Day? && o3.Pass?)
  {
    var o1 := Admit(policies, hour, day, who, HEALTHY, first);
    var o2 := Admit(policies, hour, day, who, HEALTHY, second);
    var t := StartOf(first);
    if o1.Deny? {
      Past(first, o1.window, second, t);
      FreshWindowsAdmit(policies, hour, day, who, second, t, Hour);
      if o1.window.Day? {
        FreshWindowsAdmit(policies, hour, day, who, second, t, Day);
      }
      if o2.Deny? {
        Past(second, o2.window, third, t);
        FreshWindowsAdmit(policies, hour, day, who, third, t, Hour);
        FreshWindowsAdmit(policies, hour, day, who, third, t, Day);
      }
    }
  }

  /** After a patient wait every window of the denied kind, and every hour, is past the windows of instant t. */
  lemma Past(denied: Attempt, w: WindowKind, next: Attempt, t: int)
    requires InOrder(denied) && Patient(denied, w, next) && t <= denied.decided
    ensures WindowStart(w, StartOf(next)) > WindowStart(w, t)
    ensures WindowStart(Hour, StartOf(next)) > WindowStart(Hour, t)
  {
    WaitingLeavesTheWindow(denied.decided, w, StartOf(next));
    WindowsAdvance(w, t, denied.decided);
    WindowsAdvance(Hour, t, denied.decided);
  }

  /** No recorded amount is negative. Providers report int32 counts, so the code does not exclude negative ones. */
  ghost predicate NoNegatives(hour: seq<AggRow>, day: seq<AggRow>) {
    forall row :: row in hour || row in day ==> RowAmount(row, Cost) >= 0 && RowAmount(row, Tokens) >= 0
  }

  /** The attempt starts on a later day than instant t. */
  predicate OnALaterDay(a: Attempt, t: int) {
    WindowStart(Day, StartOf(a)) > WindowStart(Day, t)
  }

  /** On a later day than everything recorded a healthy attempt passes exactly when every limit its policy sets is
      positive, whatever the signs of the amounts. */
  lemma LateAttemptsPassIffPositive(policies: seq<PolicyRow>, hour: seq<AggRow>, day: seq<AggRow>, who: Identity,
                                    a: Attempt, latest: int)
    requires GetBudgetPolicy(policies, who).Some?
    requires InOrder(a) && NoFutureRows(hour, day, latest) && OnALaterDay(a, latest)
    ensures Admit(policies, hour, day, who, HEALTHY, a).Pass? <==>
      AllPositive(GetBudgetPolicy(policies, who).value.limits)
  {
    LaterDayIsLaterHour(latest, StartOf(a));
    FreshWindowsAreEmpty(hour, day, who, a, latest, Hour);
    FreshWindowsAreEmpty(hour, day, who, a, latest, Day);
    assert Limited(Dimension(Hour, Cost)) && Limited(Dimension(Day, Cost));
    assert Limited(Dimension(Hour, Tokens)) && Limited(Dimension(Day, Tokens));
  }

  /** Positivity is needed: a limit of zero or less denies every healthy attempt at any time if no recorded amount is
      negative, and from the next day on in any case. */
  lemma NonPositiveLimitDeniesForever(policies: seq<PolicyRow>, hour: seq<AggRow>, day: seq<AggRow>, who: Identity,
                                      a: Attempt, latest: int)
    requires GetBudgetPolicy(policies, who).Some? && !AllPositive(GetBudgetPolicy(policies, who).value.limits)
    requires NoNegatives(hour, day) || (InOrder(a) && NoFutureRows(hour, day, latest) && OnALaterDay(a, latest))
    ensures Admit(policies, hour, day, who, HEALTHY, a).Deny?
  {
    if NoNegatives(hour, day) {
      var p := UserParty(who.org, who.user);
      NonNegativeSum(hour, InWindow(p, WindowStart(Hour, a.userHour)), Cost);
      NonNegativeSum(hour, InWindow(p, WindowStart(Hour, a.userHour)), Tokens);
      NonNegativeSum(day, InWindow(p, WindowStart(Day, a.userDay)), Cost);
      NonNegativeSum(day, InWindow(p, WindowStart(Day, a.userDay)), Tokens);
    } else {
      LateAttemptsPassIffPositive(policies, hour, day, who, a, latest);
    }
  }

  /** Before that day a negative count can let a request through a limit of zero: with a row of -1 tokens it passes. */
  lemma NegativeCountOpensClosedLimit()
    ensures !AllPositive(CLOSED.limits)
    ensures Admit([CLOSED], [NEGATIVE], [], SOLE_USER, HEALTHY, AT_ONCE).Pass?
  {
    OnlyPolicy(CLOSED, SOLE_USER);
    NegativeUse();
    ClosedLimitPasses(UserWindows([NEGATIVE], [], SOLE_USER, AT_ONCE));
  }

  lemma ClosedLimitPasses(user: Windows)
    requires user.hour.tokens < 0
    ensures Decide(CLOSED.limits, user, None).None?
  {
  }

  lemma OnlyPolicy(row: PolicyRow, who: Identity)
    requires Matches(row, who)
    ensures GetBudgetPolicy([row], who) == Some(row)
  {
    assert [row][1..] == [];
  }

  lemma NegativeUse()
    ensures UserWindows([NEGATIVE], [], SOLE_USER, AT_ONCE).hour.tokens == -1
  {
    EpochStartsAWindow(Hour);
    NegativeSum();
  }

  lemma NegativeSum()
    ensures RowSum([NEGATIVE], InWindow(UserParty(0, 0), 0), Tokens) == -1
  {
    OneRowSum(NEGATIVE, InWindow(UserParty(0, 0), 0), Tokens);
  }

  const SOLE_USER := Identity(0, 0, None, 0)
  const AT_ONCE := Attempt(0, 0, 0, 0, 0)
  const CLOSED := PolicyRow(0, None, None, Limits(None, None, Some(0), None))
  const NEGATIVE := AggRow(AggKey(0, 0, None, "openai", "gpt-4o", 0), -1, 0, 0, 1)

  /** So a patient client is admitted within three attempts if every limit its policy sets is positive; otherwise none
      of the attempts passes unless recorded amounts are negative and it falls on the first attempt's day. */
  lemma PatienceIsRewardedIffPositive(policies: seq<PolicyRow>, hour: seq<AggRow>, day: seq<AggRow>, who: Identity,
                                      first: Attempt, second: Attempt, third: Attempt)
    requires GetBudgetPolicy(policies, who).Some?
    requires InOrder(first) && InOrder(second) && InOrder(third)
    requires NoFutureRows(hour, day, StartOf(first))
    requires var o := Admit(policies, hour, day, who, HEALTHY, first); o.Deny? ==> Patient(first, o.window, second)
    requires var o := Admit(policies, hour, day, who, HEALTHY, second); o.Deny? ==> Patient(second, o.window, third)
    ensures AllPositive(GetBudgetPolicy(policies, who).value.limits) ==>
      exists a :: a in [first, second, third] && Admit(policies, hour, day, who, HEALTHY, a).Pass?
    ensures !AllPositive(GetBudgetPolicy(policies, who).value.limits) ==>
      forall a :: a in [first, second, third] && (NoNegatives(hour, day) || OnALaterDay(a, StartOf(first))) ==>
        Admit(policies, hour, day, who, HEALTHY, a).Deny?
  {
    var three := [first, second, third];
    assert three[0] == first && three[1] == second && three[2] == third;
    if AllPositive(GetBudgetPolicy(policies, who).value.limits) {
      RetryAfterLeadsToAdmission(policies, hour, day, who, first, second, third);
    } else {
      forall a | a in three && (NoNegatives(hour, day) || OnALaterDay(a, StartOf(first)))
        ensures Admit(policies, hour, day, who, HEALTHY, a).Deny?
      {
        NonPositiveLimitDeniesForever(policies, hour, day, who, a, StartOf(first));
      }
    }
  }
}
