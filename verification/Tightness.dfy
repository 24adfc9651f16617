/** The overshoot bound is attained: for every party, window kind, measure and limit, by requests that all read before
    any of them writes. */
module Tightness {
  import opened Core
  import opened Clock
  import opened Tables
  import opened Policies
  import opened Admission
  import opened Pricing
  import opened Keys
  import opened Engine
  import opened Overshoot

  function Copies(r: Request, n: nat): (c: seq<Request>)
    ensures |c| == n && forall i :: 0 <= i < n ==> c[i] == r
  {
    seq(n, _ => r)
  }

  /** The same kind of action for n requests. */
  function Each(f: nat -> Action, n: nat): seq<Action> {
    seq(n, (i: nat) => f(i))
  }

  lemma {:induction false} RunAppend(s: State, a: seq<Action>, b: seq<Action>)
    ensures Run(s, a + b) == Run(Run(s, a), b)
  {
    if b == [] {
      assert a + b == a;
    } else {
      assert (a + b)[..|a + b| - 1] == a + b[..|b| - 1];
      RunAppend(s, a, b[..|b| - 1]);
    }
  }

  lemma RunEach(s: State, f: nat -> Action, k: nat)
    ensures Run(s, Each(f, k + 1)) == Exec(Run(s, Each(f, k)), f(k))
  {
    assert Each(f, k + 1)[..k] == Each(f, k);
  }

  /** What one action after the other keeps, all of them keep. */
  lemma {:induction false} RunsThrough(s: State, f: nat -> Action, n: nat, holds: (State, nat) -> bool)
    requires holds(s, 0)
    requires forall t: State, j: nat :: j < n && holds(t, j) ==> holds(Exec(t, f(j)), j + 1)
    ensures holds(Run(s, Each(f, n)), n)
  {
    if n == 0 {
      assert Each(f, 0) == [];
    } else {
      RunsThrough(s, f, n - 1, holds);
      RunEach(s, f, n - 1);
    }
  }

  /** The first k of n equal requests have taken their step. */
  function Mixed(r': Request, r: Request, n: nat, k: nat): (c: seq<Request>)
    requires k <= n
    ensures |c| == n && (k < n ==> c[k] == r)
  {
    Copies(r', k) + Copies(r, n - k)
  }

  lemma MixedNext(before: seq<Request>, r': Request, r: Request, n: nat, k: nat)
    requires k < n
    ensures (before + Mixed(r', r, n, k))[|before| + k] == r
    ensures (before + Mixed(r', r, n, k))[|before| + k := r'] == before + Mixed(r', r, n, k + 1)
  {
  }

  lemma MixedEnds(r': Request, r: Request, n: nat)
    ensures Mixed(r', r, n, 0) == Copies(r, n) && Mixed(r', r, n, n) == Copies(r', n)
  {
  }

  // ---- One user of one team ----

  datatype Plan = Plan(org: Id, user: Id, team: Id, limits: Limits)

  function Who(p: Plan): Identity {
    Identity(p.org, p.user, Some(p.team), 0)
  }

  function ThePolicy(p: Plan): PolicyRow {
    PolicyRow(p.org, None, None, p.limits)
  }

  function TheKey(p: Plan): KeyRow {
    KeyRow(0, p.org, p.user, Some(p.team), "hash", Active, None, None)
  }

  /** One cent per million tokens: one unit a token. */
  const PRICES: PriceTable := map["model" := Price(0.01, 0.0)]

  function Start(p: Plan): State {
    State(0, PRICES, [ThePolicy(p)], [], [], [], [], [])
  }

  predicate Site(p: Plan, s: State) {
    s.now == 0 && s.pricing == PRICES && s.policies == [ThePolicy(p)] && s.keys == [TheKey(p)]
  }

  function UnitCharge(c: Int32): Charge {
    Charge("openai", "model", c, 0, c)
  }

  lemma TokenCostsAUnit(c: Int32)
    ensures ComputeCost("model", c, 0, PRICES) == c
  {
    CostOfCents(PRICES["model"], (1, 0), c, 0);
  }

  /** In the window of the epoch the user and the team have both used this much, in cost and in tokens. */
  predicate Holds(p: Plan, rows: seq<AggRow>, amount: int) {
    && WindowUsage(rows, UserParty(p.org, p.user), 0) == Use(amount, amount)
    && WindowUsage(rows, TeamParty(p.org, p.team), 0) == Use(amount, amount)
  }

  lemma UpsertHolds(p: Plan, rows: seq<AggRow>, amount: int, c: Int32)
    requires Holds(p, rows, amount)
    ensures Holds(p, Upsert(rows, KeyFor(Who(p), UnitCharge(c), 0), UnitCharge(c)), amount + c)
  {
    var k := KeyFor(Who(p), UnitCharge(c), 0);
    UpsertAddsOnce(rows, k, UnitCharge(c), InWindow(UserParty(p.org, p.user), 0), Cost);
    UpsertAddsOnce(rows, k, UnitCharge(c), InWindow(UserParty(p.org, p.user), 0), Tokens);
    UpsertAddsOnce(rows, k, UnitCharge(c), InWindow(TeamParty(p.org, p.team), 0), Cost);
    UpsertAddsOnce(rows, k, UnitCharge(c), InWindow(TeamParty(p.org, p.team), 0), Tokens);
  }

  predicate Below(limit: Option<int>, used: int) {
    limit.Some? ==> used < limit.value
  }

  /** No limit is reached at this usage. */
  predicate Room(l: Limits, used: int) {
    Below(l.costHour, used) && Below(l.costDay, used) && Below(l.tokensHour, used) && Below(l.tokensDay, used)
  }

  ghost predicate RoomUpTo(l: Limits, n: int) {
    forall u :: u < n ==> Room(l, u)
  }

  lemma RoomAt(l: Limits, n: int, used: int)
    requires RoomUpTo(l, n) && used < n
    ensures Room(l, used)
  {
  }

  // ---- The life of a request that reads `used` and charges c ----

  const NOTHING_READ := Readings(Unread, Unread)

  function HourRead(used: int): Readings {
    Readings(Got(Use(used, used)), Unread)
  }

  function BothRead(used: int): Readings {
    Readings(Got(Use(used, used)), Got(Use(used, used)))
  }

  function Reader(p: Plan, user: Readings, team: Readings): Request {
    Request(Who(p), Resolved(p.limits), user, team, ReadingUsage, None, NotYet, NotYet, NotYet)
  }

  function Charged(p: Plan, used: int, c: Int32, phase: Phase, event: Landing, hour: Landing, day: Landing): Request {
    Request(Who(p), Resolved(p.limits), BothRead(used), BothRead(used), phase, Some(UnitCharge(c)), event, hour, day)
  }

  const LAST := 10

  function Stage(p: Plan, used: int, c: Int32, k: nat): Request {
    if k == 0 then Arrived(Who(p))
    else if k == 1 then Reader(p, NOTHING_READ, NOTHING_READ)
    else if k == 2 then Reader(p, HourRead(used), NOTHING_READ)
    else if k == 3 then Reader(p, BothRead(used), NOTHING_READ)
    else if k == 4 then Reader(p, BothRead(used), HourRead(used))
    else if k == 5 then Reader(p, BothRead(used), BothRead(used))
    else if k == 6 then Reader(p, BothRead(used), BothRead(used)).(phase := Streaming)
    else if k == 7 then Charged(p, used, c, WritingEvent, NotYet, NotYet, NotYet)
    else if k == 8 then Charged(p, used, c, WritingHour, Dropped, NotYet, NotYet)
    else if k == 9 then Charged(p, used, c, WritingDay, Dropped, At(0), NotYet)
    else Charged(p, used, c, Phase.Done, Dropped, At(0), At(0))
  }

  /** The action that leads from stage k to the next. */
  function ActionAt(c: Int32, k: nat, i: nat): (a: Action)
    ensures Subject(a) == Some(i)
  {
    if k == 0 then LookupPolicy(i, true)
    else if k == 1 then ReadUser(i, Hour, true)
    else if k == 2 then ReadUser(i, Day, true)
    else if k == 3 then ReadTeam(i, Hour, true)
    else if k == 4 then ReadTeam(i, Day, true)
    else if k == 5 then DecideAdmission(i)
    else if k == 6 then FinishStream(i, "openai", "model", c, 0)
    else if k == 7 then WriteEvent(i, false)
    else if k == 8 then WriteHour(i, true)
    else WriteDay(i, true)
  }

  lemma LookupStep(p: Plan, used: int, c: Int32, i: nat, s: State)
    requires Site(p, s)
    ensures StepRequest(s, Stage(p, used, c, 0), ActionAt(c, 0, i)) == Stage(p, used, c, 1)
  {
    OnlyPolicy(ThePolicy(p), Who(p));
  }

  /** Every query of the plan's user or team returns what is recorded. */
  lemma QueriesReturn(p: Plan, used: int, s: State, kind: WindowKind)
    requires s.now == 0 && Holds(p, TableOf(s, kind), used)
    ensures Query(s, User(Who(p)), kind, true) == Query(s, Team(Who(p)), kind, true) == Got(Use(used, used))
  {
    EpochStartsAWindow(kind);
  }

  lemma UserReadStep(p: Plan, used: int, c: Int32, k: nat, i: nat, s: State)
    requires 1 <= k <= 2 && s.now == 0 && Holds(p, s.hour, used) && Holds(p, s.day, used)
    ensures StepRequest(s, Stage(p, used, c, k), ActionAt(c, k, i)) == Stage(p, used, c, k + 1)
  {
    QueriesReturn(p, used, s, if k == 1 then Hour else Day);
  }

  lemma TeamReadStep(p: Plan, used: int, c: Int32, k: nat, i: nat, s: State)
    requires 3 <= k <= 4 && s.now == 0 && Holds(p, s.hour, used) && Holds(p, s.day, used)
    ensures StepRequest(s, Stage(p, used, c, k), ActionAt(c, k, i)) == Stage(p, used, c, k + 1)
  {
    QueriesReturn(p, used, s, if k == 3 then Hour else Day);
  }

  lemma DecideStep(p: Plan, used: int, c: Int32, i: nat, s: State)
    requires Room(p.limits, used)
    ensures StepRequest(s, Stage(p, used, c, 5), ActionAt(c, 5, i)) == Stage(p, used, c, 6)
  {
  }

  lemma FinishStep(p: Plan, used: int, c: Int32, i: nat, s: State)
    requires s.pricing == PRICES && c > 0
    ensures StepRequest(s, Stage(p, used, c, 6), ActionAt(c, 6, i)) == Stage(p, used, c, 7)
  {
    TokenCostsAUnit(c);
  }

  lemma WriteStep(p: Plan, used: int, c: Int32, k: nat, i: nat, s: State)
    requires 7 <= k < LAST && s.now == 0
    ensures StepRequest(s, Stage(p, used, c, k), ActionAt(c, k, i)) == Stage(p, used, c, k + 1)
  {
    if k == 8 {
      EpochStartsAWindow(Hour);
    } else if k == 9 {
      EpochStartsAWindow(Day);
    }
  }

  // ---- n requests in step ----

  /** After the requests `past` come n new ones; j of them have gone from r to r', and this much is recorded. */
  predicate InWave(p: Plan, s: State, past: seq<Request>, r: Request, r': Request, n: nat, j: nat, hour: int,
                   day: int) {
    Site(p, s) && j <= n && s.reqs == past + Mixed(r', r, n, j) && Holds(p, s.hour, hour) && Holds(p, s.day, day)
  }

  /** Each action f(j) takes request base + j from r to r'; hour(j) and day(j) are recorded before it. */
  ghost predicate Moves(p: Plan, base: nat, r: Request, r': Request, f: nat -> Action, n: nat, hour: nat -> int,
                        day: nat -> int) {
    forall s: State, j: nat :: j < n && Site(p, s) && Holds(p, s.hour, hour(j)) && Holds(p, s.day, day(j)) ==>
      MovesOne(p, base, r, r', f(j), s, j, hour(j + 1), day(j + 1))
  }

  predicate MovesOne(p: Plan, base: nat, r: Request, r': Request, a: Action, s: State, j: nat, hour: int, day: int) {
    && Subject(a) == Some(base + j) && StepRequest(s, r, a) == r'
    && Holds(p, StepTables(s, r, a).hour, hour) && Holds(p, StepTables(s, r, a).day, day)
  }

  lemma OneMore(p: Plan, s: State, past: seq<Request>, r: Request, r': Request, a: Action, n: nat, j: nat, hour: int,
                day: int, hour': int, day': int)
    requires j < n && InWave(p, s, past, r, r', n, j, hour, day) && MovesOne(p, |past|, r, r', a, s, j, hour', day')
    ensures InWave(p, Exec(s, a), past, r, r', n, j + 1, hour', day')
  {
    MixedNext(past, r', r, n, j);
    TablesFrame(s, r, a);
  }

  lemma WaveRuns(p: Plan, s: State, past: seq<Request>, r: Request, r': Request, f: nat -> Action, n: nat,
                 hour: nat -> int, day: nat -> int)
    requires Moves(p, |past|, r, r', f, n, hour, day) && InWave(p, s, past, r, r', n, 0, hour(0), day(0))
    ensures InWave(p, Run(s, Each(f, n)), past, r, r', n, n, hour(n), day(n))
  {
    var holds := (t: State, j: nat) => InWave(p, t, past, r, r', n, j, hour(j), day(j));
    forall t: State, j: nat | j < n && holds(t, j)
      ensures holds(Exec(t, f(j)), j + 1)
    {
      OneMore(p, t, past, r, r', f(j), n, j, hour(j), day(j), hour(j + 1), day(j + 1));
    }
    RunsThrough(s, f, n, holds);
  }

  // ---- The waves of a round ----

  lemma StageStep(p: Plan, s: State, used: int, c: Int32, k: nat, i: nat)
    requires Site(p, s) && k < LAST && c > 0 && Room(p.limits, used)
    requires k < 8 ==> Holds(p, s.hour, used) && Holds(p, s.day, used)
    ensures StepRequest(s, Stage(p, used, c, k), ActionAt(c, k, i)) == Stage(p, used, c, k + 1)
  {
    if k == 0 {
      LookupStep(p, used, c, i, s);
    } else if k <= 2 {
      UserReadStep(p, used, c, k, i, s);
    } else if k <= 4 {
      TeamReadStep(p, used, c, k, i, s);
    } else if k == 5 {
      DecideStep(p, used, c, i, s);
    } else if k == 6 {
      FinishStep(p, used, c, i, s);
    } else {
      WriteStep(p, used, c, k, i, s);
    }
  }

  lemma Product(k: int, c: int)
    ensures k * c + c == (k + 1) * c
  {
  }

  lemma NoWriteYet(p: Plan, s: State, used: int, c: Int32, k: nat, i: nat)
    requires k < 8
    ensures StepTables(s, Stage(p, used, c, k), ActionAt(c, k, i)) == s
  {
    if k < 7 {
      assert Stage(p, used, c, k).charge.None?;
    } else {
      assert ActionAt(c, k, i) == WriteEvent(i, false);
    }
  }

  lemma HourWritten(p: Plan, s: State, used: int, c: Int32, i: nat)
    requires s.now == 0
    ensures StepTables(s, Stage(p, used, c, 8), ActionAt(c, 8, i))
         == s.(hour := Upsert(s.hour, KeyFor(Who(p), UnitCharge(c), 0), UnitCharge(c)))
  {
    EpochStartsAWindow(Hour);
    assert ActionAt(c, 8, i) == WriteHour(i, true);
  }

  lemma DayWritten(p: Plan, s: State, used: int, c: Int32, i: nat)
    requires s.now == 0
    ensures StepTables(s, Stage(p, used, c, 9), ActionAt(c, 9, i))
         == s.(day := Upsert(s.day, KeyFor(Who(p), UnitCharge(c), 0), UnitCharge(c)))
  {
    EpochStartsAWindow(Day);
    assert ActionAt(c, 9, i) == WriteDay(i, true);
  }

  function Wave(base: nat, c: Int32, k: nat): nat -> Action {
    (i: nat) => ActionAt(c, k, base + i)
  }

  /** What the write of stage `write` has recorded when j of n requests have left stage k. */
  function RecordedAt(used: int, c: int, n: nat, k: nat, write: nat): nat -> int {
    (j: nat) => used + (if k < write then 0 else if k == write then j * c else n * c)
  }

  function PerRequest(k: nat, write: nat, c: int): int {
    if k == write then c else 0
  }

  lemma RecordedNext(used: int, c: int, n: nat, k: nat, write: nat, j: nat)
    ensures RecordedAt(used, c, n, k, write)(j + 1) == RecordedAt(used, c, n, k, write)(j) + PerRequest(k, write, c)
  {
    Product(j, c);
  }

  lemma RecordedOn(used: int, c: int, n: nat, k: nat, write: nat)
    ensures RecordedAt(used, c, n, k, write)(n) == RecordedAt(used, c, n, k + 1, write)(0)
  {
  }

  lemma MovesTo(p: Plan, base: nat, r: Request, r': Request, a: Action, s: State, j: nat, t: State, hour: int, day: int)
    requires Subject(a) == Some(base + j) && StepRequest(s, r, a) == r' && StepTables(s, r, a) == t
    requires Holds(p, t.hour, hour) && Holds(p, t.day, day)
    ensures MovesOne(p, base, r, r', a, s, j, hour, day)
  {
  }

  lemma MovesEarly(p: Plan, s: State, used: int, c: Int32, k: nat, base: nat, j: nat)
    requires Site(p, s) && k < 8 && c > 0 && Room(p.limits, used) && Holds(p, s.hour, used) && Holds(p, s.day, used)
    ensures MovesOne(p, base, Stage(p, used, c, k), Stage(p, used, c, k + 1), ActionAt(c, k, base + j), s, j,
                     used, used)
  {
    var r, r', a := Stage(p, used, c, k), Stage(p, used, c, k + 1), ActionAt(c, k, base + j);
    StageStep(p, s, used, c, k, base + j);
    NoWriteYet(p, s, used, c, k, base + j);
    MovesTo(p, base, r, r', a, s, j, s, used, used);
  }

  lemma MovesHour(p: Plan, s: State, used: int, c: Int32, base: nat, j: nat, hour: int, day: int)
    requires Site(p, s) && Holds(p, s.hour, hour) && Holds(p, s.day, day)
    ensures MovesOne(p, base, Stage(p, used, c, 8), Stage(p, used, c, 9), ActionAt(c, 8, base + j), s, j, hour + c, day)
  {
    WriteStep(p, used, c, 8, base + j, s);
    HourWritten(p, s, used, c, base + j);
    UpsertHolds(p, s.hour, hour, c);
  }

  lemma MovesDay(p: Plan, s: State, used: int, c: Int32, base: nat, j: nat, hour: int, day: int)
    requires Site(p, s) && Holds(p, s.hour, hour) && Holds(p, s.day, day)
    ensures MovesOne(p, base, Stage(p, used, c, 9), Stage(p, used, c, 10), ActionAt(c, 9, base + j), s, j,
                     hour, day + c)
  {
    WriteStep(p, used, c, 9, base + j, s);
    DayWritten(p, s, used, c, base + j);
    UpsertHolds(p, s.day, day, c);
  }

  /** The same for the j-th request of a wave; so much has been recorded by then. */
  lemma MovesAt(p: Plan, s: State, used: int, c: Int32, k: nat, base: nat, j: nat, hour: int, day: int, a: Action)
    requires Site(p, s) && k < LAST && c > 0 && Room(p.limits, used) && a == ActionAt(c, k, base + j)
    requires Holds(p, s.hour, hour) && Holds(p, s.day, day) && (k < 8 ==> hour == day == used)
    ensures MovesOne(p, base, Stage(p, used, c, k), Stage(p, used, c, k + 1), a, s, j,
                     hour + PerRequest(k, 8, c), day + PerRequest(k, 9, c))
  {
    if k < 8 {
      MovesEarly(p, s, used, c, k, base, j);
    } else if k == 8 {
      MovesHour(p, s, used, c, base, j, hour, day);
    } else {
      MovesDay(p, s, used, c, base, j, hour, day);
    }
  }

  lemma StageMoves(p: Plan, used: int, c: Int32, n: nat, k: nat, base: nat)
    requires k < LAST && c > 0 && Room(p.limits, used)
    ensures Moves(p, base, Stage(p, used, c, k), Stage(p, used, c, k + 1), Wave(base, c, k), n,
                  RecordedAt(used, c, n, k, 8), RecordedAt(used, c, n, k, 9))
  {
    var hour, day, f := RecordedAt(used, c, n, k, 8), RecordedAt(used, c, n, k, 9), Wave(base, c, k);
    forall s: State, j: nat | j < n && Site(p, s) && Holds(p, s.hour, hour(j)) && Holds(p, s.day, day(j))
      ensures MovesOne(p, base, Stage(p, used, c, k), Stage(p, used, c, k + 1), f(j), s, j, hour(j + 1), day(j + 1))
    {
      RecordedNext(used, c, n, k, 8, j);
      RecordedNext(used, c, n, k, 9, j);
      MovesAt(p, s, used, c, k, base, j, hour(j), day(j), f(j));
    }
  }

  /** All n requests have come to stage k. */
  predicate InStage(p: Plan, s: State, past: seq<Request>, used: int, c: Int32, n: nat, k: nat) {
    && Site(p, s) && s.reqs == past + Copies(Stage(p, used, c, k), n)
    && Holds(p, s.hour, RecordedAt(used, c, n, k, 8)(0)) && Holds(p, s.day, RecordedAt(used, c, n, k, 9)(0))
  }

  lemma OneWave(p: Plan, s: State, past: seq<Request>, used: int, c: Int32, n: nat, k: nat)
    requires InStage(p, s, past, used, c, n, k) && k < LAST && c > 0 && Room(p.limits, used)
    ensures InStage(p, Run(s, Each(Wave(|past|, c, k), n)), past, used, c, n, k + 1)
  {
    StageMoves(p, used, c, n, k, |past|);
    RecordedOn(used, c, n, k, 8);
    RecordedOn(used, c, n, k, 9);
    WaveBetween(p, s, past, Stage(p, used, c, k), Stage(p, used, c, k + 1), Wave(|past|, c, k), n,
                RecordedAt(used, c, n, k, 8), RecordedAt(used, c, n, k, 9));
  }

  lemma WaveBetween(p: Plan, s: State, past: seq<Request>, r: Request, r': Request, f: nat -> Action, n: nat,
                    hour: nat -> int, day: nat -> int)
    requires Moves(p, |past|, r, r', f, n, hour, day)
    requires Site(p, s) && s.reqs == past + Copies(r, n) && Holds(p, s.hour, hour(0)) && Holds(p, s.day, day(0))
    ensures var t := Run(s, Each(f, n));
      Site(p, t) && t.reqs == past + Copies(r', n) && Holds(p, t.hour, hour(n)) && Holds(p, t.day, day(n))
  {
    MixedEnds(r', r, n);
    WaveRuns(p, s, past, r, r', f, n, hour, day);
  }

  // ---- Rounds ----

  function Arriving(): nat -> Action {
    (i: nat) => Arrive("hash", true)
  }

  /** n requests arrive, then all of them take each step before any takes the next. */
  function Round(base: nat, c: Int32, n: nat, k: nat): seq<Action>
    decreases base, k
  {
    if k == 0 then Each(Arriving(), n) else Round(base, c, n, k - 1) + Each(Wave(base, c, k - 1), n)
  }

  /** All requests so far are done and were charged at most `charge`; `used` is recorded. */
  ghost predicate Settled(p: Plan, s: State, used: int, charge: int) {
    && Site(p, s) && Holds(p, s.hour, used) && Holds(p, s.day, used)
    && forall i :: 0 <= i < |s.reqs| ==> exists u, c: Int32 :: 0 <= c <= charge && s.reqs[i] == Stage(p, u, c, LAST)
  }

  lemma {:induction false} Arrivals(p: Plan, s: State, n: nat)
    requires Site(p, s)
    ensures Run(s, Each(Arriving(), n)) == s.(reqs := s.reqs + Copies(Arrived(Who(p)), n))
  {
    if n == 0 {
      assert Each(Arriving(), 0) == [];
      assert s.reqs + Copies(Arrived(Who(p)), 0) == s.reqs;
    } else {
      Arrivals(p, s, n - 1);
      RunEach(s, Arriving(), n - 1);
      assert LookupByHash(s.keys, "hash") == Some(TheKey(p)) && Authenticate(s.keys, "hash") == Some(Who(p));
      assert s.reqs + Copies(Arrived(Who(p)), n - 1) + [Arrived(Who(p))] == s.reqs + Copies(Arrived(Who(p)), n);
    }
  }

  lemma {:induction false} RoundReaches(p: Plan, s: State, used: int, c: Int32, n: nat, k: nat)
    requires Site(p, s) && Holds(p, s.hour, used) && Holds(p, s.day, used) && k <= LAST && c > 0 && Room(p.limits, used)
    ensures InStage(p, Run(s, Round(|s.reqs|, c, n, k)), s.reqs, used, c, n, k)
  {
    if k == 0 {
      AllArrived(p, s, used, c, n);
    } else {
      RoundReaches(p, s, used, c, n, k - 1);
      OneWaveMore(p, s, Round(|s.reqs|, c, n, k - 1), used, c, n, k - 1);
    }
  }

  lemma AllArrived(p: Plan, s: State, used: int, c: Int32, n: nat)
    requires Site(p, s) && Holds(p, s.hour, used) && Holds(p, s.day, used)
    ensures InStage(p, Run(s, Each(Arriving(), n)), s.reqs, used, c, n, 0)
  {
    Arrivals(p, s, n);
    assert Stage(p, used, c, 0) == Arrived(Who(p));
  }

  lemma OneWaveMore(p: Plan, s: State, acts: seq<Action>, used: int, c: Int32, n: nat, k: nat)
    requires InStage(p, Run(s, acts), s.reqs, used, c, n, k) && k < LAST && c > 0 && Room(p.limits, used)
    ensures InStage(p, Run(s, acts + Each(Wave(|s.reqs|, c, k), n)), s.reqs, used, c, n, k + 1)
  {
    RunAppend(s, acts, Each(Wave(|s.reqs|, c, k), n));
    OneWave(p, Run(s, acts), s.reqs, used, c, n, k);
  }

  lemma RoundSettles(p: Plan, s: State, used: int, charge: int, c: Int32, n: nat)
    requires Settled(p, s, used, charge) && 0 < c <= charge && Room(p.limits, used)
    ensures var t := Run(s, Round(|s.reqs|, c, n, LAST));
      Settled(p, t, used + n * c, charge) && |t.reqs| == |s.reqs| + n
  {
    RoundReaches(p, s, used, c, n, LAST);
    var t := Run(s, Round(|s.reqs|, c, n, LAST));
    assert t.reqs == s.reqs + Copies(Stage(p, used, c, LAST), n);
    forall i | 0 <= i < |t.reqs|
      ensures exists u, c': Int32 :: 0 <= c' <= charge && t.reqs[i] == Stage(p, u, c', LAST)
    {
      if i < |s.reqs| {
        assert t.reqs[i] == s.reqs[i];
      }
    }
  }

  // ---- The run is disciplined throughout ----

  /** A request that meets the conditions at the end met them all along. */
  lemma ConformedBefore(s: State, r: Request, a: Action, m: Meter, limit: int, charge: int)
    requires Meters(m) && WellPhased(r) && Conforms(m, StepRequest(s, r, a), limit, charge)
    ensures Conforms(m, r, limit, charge)
  {
  }

  ghost predicate AllConform(s: State, m: Meter, limit: int, charge: int)
    requires Meters(m)
  {
    forall i :: 0 <= i < |s.reqs| ==> Conforms(m, s.reqs[i], limit, charge)
  }

  lemma StepConformedBefore(s: State, a: Action, m: Meter, limit: int, charge: int)
    requires Meters(m) && Inv(s) && AllConform(Exec(s, a), m, limit, charge)
    ensures AllConform(s, m, limit, charge) && |s.reqs| <= |Exec(s, a).reqs|
  {
    forall i | 0 <= i < |s.reqs|
      ensures Conforms(m, s.reqs[i], limit, charge)
    {
      var r' := Exec(s, a).reqs[i];
      assert Conforms(m, r', limit, charge);
      if Subject(a) == Some(i) {
        ConformedBefore(s, s.reqs[i], a, m, limit, charge);
      }
    }
  }

  lemma {:induction false} AtMostAll(reqs: seq<Request>, m: Meter)
    requires Meters(m)
    ensures Total(reqs, InFlightCount(m)) <= |reqs|
  {
    if reqs != [] {
      AtMostAll(reqs[1..], m);
    }
  }

  lemma {:induction false} ConformedAllAlong(init: State, acts: seq<Action>, n: nat, m: Meter, limit: int, charge: int)
    requires Meters(m) && Init(init) && n <= |acts| && AllConform(Run(init, acts), m, limit, charge)
    ensures AllConform(Run(init, acts[..n]), m, limit, charge)
  {
    if n == |acts| {
      assert acts[..n] == acts;
    } else {
      var before := acts[..|acts| - 1];
      PrefixOfRun(acts, n);
      RunKeepsInv(init, before);
      StepConformedBefore(Run(init, before), acts[|acts| - 1], m, limit, charge);
      ConformedAllAlong(init, before, n, m, limit, charge);
    }
  }

  /** These actions let requests in and step requests from number `base` on. */
  ghost predicate OnlyFrom(acts: seq<Action>, base: nat) {
    forall a :: a in acts ==> AtOrAbove(a, base)
  }

  predicate AtOrAbove(a: Action, base: nat) {
    a.Arrive? || (Subject(a).Some? && Subject(a).value >= base)
  }

  lemma WaveIsOnlyFrom(base: nat, c: Int32, k: nat, n: nat)
    ensures OnlyFrom(Each(Wave(base, c, k), n), base)
  {
    forall a | a in Each(Wave(base, c, k), n)
      ensures AtOrAbove(a, base)
    {
      var i: nat :| i < n && Each(Wave(base, c, k), n)[i] == a;
      assert a == ActionAt(c, k, base + i);
    }
  }

  lemma OnlyFromAppend(a: seq<Action>, b: seq<Action>, base: nat)
    requires OnlyFrom(a, base) && OnlyFrom(b, base)
    ensures OnlyFrom(a + b, base)
  {
  }

  lemma {:induction false} RoundIsOnlyFrom(base: nat, c: Int32, n: nat, k: nat)
    ensures OnlyFrom(Round(base, c, n, k), base)
  {
    if k > 0 {
      RoundIsOnlyFrom(base, c, n, k - 1);
      WaveIsOnlyFrom(base, c, k - 1, n);
      OnlyFromAppend(Round(base, c, n, k - 1), Each(Wave(base, c, k - 1), n), base);
    }
  }

  lemma {:induction false} OldRequestsStay(s: State, acts: seq<Action>)
    requires OnlyFrom(acts, |s.reqs|)
    ensures |s.reqs| <= |Run(s, acts).reqs| && Run(s, acts).reqs[..|s.reqs|] == s.reqs
  {
    if acts != [] {
      var before, a := acts[..|acts| - 1], acts[|acts| - 1];
      assert a in acts;
      OldRequestsStay(s, before);
      MoreRequests(Run(s, before), a);
      if Subject(a).Some? && Subject(a).value < |Run(s, before).reqs| {
        RequestFrame(Run(s, before), Subject(a).value, a);
      }
    }
  }

  lemma MoreRequests(s: State, a: Action)
    ensures |s.reqs| <= |Exec(s, a).reqs|
  {
    if Subject(a).Some? && Subject(a).value < |s.reqs| {
      RequestFrame(s, Subject(a).value, a);
    }
  }

  lemma {:induction false} FewerRequestsBefore(s: State, acts: seq<Action>, n: nat)
    requires n <= |acts|
    ensures |Run(s, acts[..n]).reqs| <= |Run(s, acts).reqs|
  {
    if n == |acts| {
      assert acts[..n] == acts;
    } else {
      PrefixOfRun(acts, n);
      FewerRequestsBefore(s, acts[..|acts| - 1], n);
      MoreRequests(Run(s, acts[..|acts| - 1]), acts[|acts| - 1]);
    }
  }

  lemma {:induction false} TotalSplits(reqs: seq<Request>, k: nat, f: Request -> int)
    requires k <= |reqs|
    ensures Total(reqs, f) == Total(reqs[..k], f) + Total(reqs[k..], f)
  {
    if k > 0 {
      TotalSplits(reqs[1..], k - 1, f);
      assert reqs[..k][1..] == reqs[1..][..k - 1] && reqs[1..][k - 1..] == reqs[k..];
    } else {
      assert reqs[0..] == reqs;
    }
  }

  lemma {:induction false} DoneIsNotInFlight(reqs: seq<Request>, m: Meter)
    requires Meters(m) && forall i :: 0 <= i < |reqs| ==> reqs[i].phase.Done?
    ensures Total(reqs, InFlightCount(m)) == 0
  {
    if reqs != [] {
      DoneIsNotInFlight(reqs[1..], m);
    }
  }

  lemma SettledIsDone(p: Plan, s: State, used: int, charge: int, m: Meter)
    requires Meters(m) && Settled(p, s, used, charge)
    ensures Total(s.reqs, InFlightCount(m)) == 0
  {
    DoneIsNotInFlight(s.reqs, m);
  }

  /** Actions from number |s.reqs| on leave in flight at most what they let in. */
  lemma OnlyNewInFlight(s: State, acts: seq<Action>, m: Meter, n: nat)
    requires Meters(m) && OnlyFrom(acts, |s.reqs|) && Total(s.reqs, InFlightCount(m)) == 0
    requires |Run(s, acts).reqs| <= |s.reqs| + n
    ensures Pending(Run(s, acts), m) <= n
  {
    var t := Run(s, acts);
    OldRequestsStay(s, acts);
    TotalSplits(t.reqs, |s.reqs|, InFlightCount(m));
    AtMostAll(t.reqs[|s.reqs|..], m);
  }

  /** While a round runs only its own requests can be in flight. */
  lemma RoundInFlight(p: Plan, s: State, used: int, charge: int, c: Int32, n: nat, j: nat, m: Meter)
    requires Meters(m) && Settled(p, s, used, charge) && 0 < c <= charge && Room(p.limits, used)
    requires j <= |Round(|s.reqs|, c, n, LAST)|
    ensures Pending(Run(s, Round(|s.reqs|, c, n, LAST)[..j]), m) <= n
  {
    var acts := Round(|s.reqs|, c, n, LAST);
    SettledIsDone(p, s, used, charge, m);
    RoundIsOnlyFrom(|s.reqs|, c, n, LAST);
    RoundSettles(p, s, used, charge, c, n);
    FewerRequestsBefore(s, acts, j);
    assert OnlyFrom(acts[..j], |s.reqs|);
    OnlyNewInFlight(s, acts[..j], m, n);
  }

  // ---- Rounds one after the other ----

  /** How many requests are settled, and what they have used. */
  datatype Load = Load(requests: nat, used: int)

  ghost predicate SettledAt(p: Plan, s: State, load: Load, charge: int) {
    Settled(p, s, load.used, charge) && |s.reqs| == load.requests
  }

  ghost predicate AtMostInFlight(s: State, acts: seq<Action>, m: Meter, n: nat)
    requires Meters(m)
  {
    forall j :: 0 <= j <= |acts| ==> Pending(Run(s, acts[..j]), m) <= n
  }

  /** These actions lead from every state settled at one load to a state settled at another, with at most n requests in
      flight on the way. */
  ghost predicate Leads(p: Plan, m: Meter, charge: int, n: nat, from: Load, acts: seq<Action>, to: Load)
    requires Meters(m)
  {
    forall s :: SettledAt(p, s, from, charge) ==>
      SettledAt(p, Run(s, acts), to, charge) && AtMostInFlight(s, acts, m, n)
  }

  lemma LeadsOn(p: Plan, m: Meter, charge: int, n: nat, from: Load, a: seq<Action>, mid: Load, b: seq<Action>, to: Load)
    requires Meters(m) && Leads(p, m, charge, n, from, a, mid) && Leads(p, m, charge, n, mid, b, to)
    ensures Leads(p, m, charge, n, from, a + b, to)
  {
    forall s | SettledAt(p, s, from, charge)
      ensures SettledAt(p, Run(s, a + b), to, charge) && AtMostInFlight(s, a + b, m, n)
    {
      RunAppend(s, a, b);
      forall j | 0 <= j <= |a + b|
        ensures Pending(Run(s, (a + b)[..j]), m) <= n
      {
        PrefixOfTwo(s, a, b, j);
      }
    }
  }

  /** A prefix of a run in two parts. */
  lemma PrefixOfTwo(s: State, a: seq<Action>, b: seq<Action>, j: nat)
    requires j <= |a + b|
    ensures j <= |a| ==> (a + b)[..j] == a[..j]
    ensures j > |a| ==> Run(s, (a + b)[..j]) == Run(Run(s, a), b[..j - |a|])
  {
    if j > |a| {
      assert (a + b)[..j] == a + b[..j - |a|];
      RunAppend(s, a, b[..j - |a|]);
    }
  }

  /** A round of n requests. */
  lemma RoundLeads(p: Plan, m: Meter, charge: int, inFlight: nat, from: Load, c: Int32,
                   n: nat) returns (acts: seq<Action>)
    requires Meters(m) && 0 < c <= charge && Room(p.limits, from.used) && n <= inFlight
    ensures Leads(p, m, charge, inFlight, from, acts, Load(from.requests + n, from.used + n * c))
  {
    acts := Round(from.requests, c, n, LAST);
    forall s | SettledAt(p, s, from, charge)
      ensures SettledAt(p, Run(s, acts), Load(from.requests + n, from.used + n * c), charge)
      ensures AtMostInFlight(s, acts, m, inFlight)
    {
      RoundSettles(p, s, from.used, charge, c, n);
      forall j | 0 <= j <= |acts|
        ensures Pending(Run(s, acts[..j]), m) <= inFlight
      {
        RoundInFlight(p, s, from.used, charge, c, n, j, m);
      }
    }
  }

  lemma ThenRound(p: Plan, m: Meter, charge: int, inFlight: nat, from: Load, first: seq<Action>, mid: Load, c: Int32,
                  n: nat, to: Load) returns (acts: seq<Action>)
    requires Meters(m) && 0 < c <= charge && Room(p.limits, mid.used) && n <= inFlight
    requires Leads(p, m, charge, inFlight, from, first, mid) && to == Load(mid.requests + n, mid.used + n * c)
    ensures Leads(p, m, charge, inFlight, from, acts, to)
  {
    var last := RoundLeads(p, m, charge, inFlight, mid, c, n);
    acts := first + last;
    LeadsOn(p, m, charge, inFlight, from, first, mid, last, to);
  }

  /** k requests one after the other, each charged one token. */
  lemma {:induction false} OneByOneLeads(p: Plan, m: Meter, charge: int, inFlight: nat,
                                         k: nat) returns (acts: seq<Action>)
    requires Meters(m) && charge >= 1 && RoomUpTo(p.limits, k) && (inFlight >= 1 || k == 0)
    ensures Leads(p, m, charge, inFlight, Load(0, 0), acts, Load(k, k))
  {
    if k == 0 {
      acts := [];
      NothingLeads(p, m, charge, inFlight, Load(0, 0));
    } else {
      var first := OneByOneLeads(p, m, charge, inFlight, k - 1);
      RoomAt(p.limits, k, k - 1);
      acts := ThenRound(p, m, charge, inFlight, Load(0, 0), first, Load(k - 1, k - 1), 1, 1, Load(k, k));
    }
  }

  lemma NothingLeads(p: Plan, m: Meter, charge: int, inFlight: nat, load: Load)
    requires Meters(m)
    ensures Leads(p, m, charge, inFlight, load, [], load)
  {
    forall s | SettledAt(p, s, load, charge)
      ensures AtMostInFlight(s, [], m, inFlight)
    {
      SettledIsDone(p, s, load.used, charge, m);
      assert forall acts: seq<Action> :: acts == [] ==> Run(s, acts) == s;
    }
  }

  // ---- The bound ----

  function LimitsFor(d: Dimension, limit: int): Limits
    requires Limited(d)
  {
    match d.kind
    case Hour =>
      if d.measure.Cost? then Limits(Some(limit), None, None, None) else Limits(None, None, Some(limit), None)
    case Day => if d.measure.Cost? then Limits(None, Some(limit), None, None) else Limits(None, None, None, Some(limit))
  }

  function PlanFor(m: Meter, limit: int): Plan
    requires Meters(m)
  {
    match m.party
    case UserParty(org, user) => Plan(org, user, 0, LimitsFor(m.d, limit))
    case TeamParty(org, team) => Plan(org, 0, team, LimitsFor(m.d, limit))
  }

  const KEY := "hash"

  function CreateTheKey(p: Plan): seq<Action> {
    [CreateKey(0, p.org, p.user, Some(p.team), KEY)]
  }

  function Keyed(p: Plan): State {
    Start(p).(keys := [TheKey(p)])
  }

  lemma KeyCreated(p: Plan)
    ensures Run(Start(p), CreateTheKey(p)) == Keyed(p) && Site(p, Keyed(p))
  {
    var acts := CreateTheKey(p);
    assert acts[..0] == [];
    assert Run(Start(p), acts) == Exec(Start(p), acts[0]);
  }

  lemma PlanHasRoom(m: Meter, limit: int)
    requires Meters(m)
    ensures RoomUpTo(PlanFor(m, limit).limits, limit)
  {
  }

  /** limit - 1 requests one by one, then all the others at once. */
  lemma RequestsLead(p: Plan, m: Meter, limit: int, inFlight: nat, charge: Int32) returns (acts: seq<Action>)
    requires Meters(m) && limit >= 1 && charge >= 1 && (inFlight >= 1 || limit == 1) && RoomUpTo(p.limits, limit)
    ensures Leads(p, m, charge, inFlight, Load(0, 0), acts, Load(limit - 1 + inFlight, limit - 1 + inFlight * charge))
  {
    var first := OneByOneLeads(p, m, charge, inFlight, limit - 1);
    RoomAt(p.limits, limit, limit - 1);
    acts := ThenRound(p, m, charge, inFlight, Load(0, 0), first, Load(limit - 1, limit - 1), charge, inFlight,
                      Load(limit - 1 + inFlight, limit - 1 + inFlight * charge));
  }

  lemma KeyedIsSettled(p: Plan, charge: int)
    ensures SettledAt(p, Keyed(p), Load(0, 0), charge)
  {
  }

  lemma InFlightFromTheStart(p: Plan, m: Meter, acts: seq<Action>, inFlight: nat, j: nat)
    requires Meters(m) && AtMostInFlight(Keyed(p), acts, m, inFlight) && j <= |CreateTheKey(p) + acts|
    ensures Pending(Run(Start(p), (CreateTheKey(p) + acts)[..j]), m) <= inFlight
  {
    KeyCreated(p);
    PrefixOfTwo(Start(p), CreateTheKey(p), acts, j);
    if j <= 1 {
      NobodyYet(p, j);
    }
  }

  lemma NobodyYet(p: Plan, j: nat)
    requires j <= 1
    ensures Run(Start(p), CreateTheKey(p)[..j]).reqs == []
  {
    KeyCreated(p);
    if j == 1 {
      assert CreateTheKey(p)[..1] == CreateTheKey(p);
    }
  }

  lemma SettledConforms(m: Meter, limit: int, s: State, used: int, charge: int)
    requires Meters(m) && Settled(PlanFor(m, limit), s, used, charge)
    ensures AllConform(s, m, limit, charge) && Used(s, m, 0) == used
  {
  }

  /** The overshoot bound cannot be improved: for every party, window kind, measure, limit, number in flight and
      positive charge there is a disciplined run that records exactly limit - 1 + inFlight * charge in one window. (With
      nobody allowed in flight nothing is ever recorded, so there the limit has to be 1.) */
  lemma BoundIsAttained(m: Meter, limit: int, inFlight: nat, charge: Int32)
    requires Meters(m) && limit >= 1 && charge >= 1 && (inFlight >= 1 || limit == 1)
    ensures exists init, acts ::
      && Init(init)
      && (forall n :: 0 <= n <= |acts| ==> Disciplined(Run(init, acts[..n]), m, limit, inFlight, charge))
      && Used(Run(init, acts), m, 0) == limit - 1 + inFlight * charge
  {
    var p := PlanFor(m, limit);
    PlanHasRoom(m, limit);
    var rest := RequestsLead(p, m, limit, inFlight, charge);
    LeadsFromTheStart(p, m, charge, inFlight, rest, Load(limit - 1 + inFlight, limit - 1 + inFlight * charge));
    var init, acts := Start(p), CreateTheKey(p) + rest;
    SettledConforms(m, limit, Run(init, acts), limit - 1 + inFlight * charge, charge);
    forall n | 0 <= n <= |acts|
      ensures Disciplined(Run(init, acts[..n]), m, limit, inFlight, charge)
    {
      InFlightFromTheStart(p, m, rest, inFlight, n);
      ConformedAllAlong(init, acts, n, m, limit, charge);
    }
  }

  lemma LeadsFromTheStart(p: Plan, m: Meter, charge: int, inFlight: nat, acts: seq<Action>, to: Load)
    requires Meters(m) && Leads(p, m, charge, inFlight, Load(0, 0), acts, to)
    ensures SettledAt(p, Run(Start(p), CreateTheKey(p) + acts), to, charge)
    ensures AtMostInFlight(Keyed(p), acts, m, inFlight)
  {
    KeyedIsSettled(p, charge);
    KeyCreated(p);
    RunAppend(Start(p), CreateTheKey(p), acts);
  }
}
