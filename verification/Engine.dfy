/** The gateway as a state machine: every SQL statement, clock tick and handler decision is one atomic action,
    and any number of requests interleave in any order. */
module Engine {
  import opened Core
  import opened Clock
  import opened Tables
  import opened Policies
  import opened Admission
  import opened Pricing
  import opened Keys

  /** One usage query's answer; Lost is a database error. */
  datatype Reading = Unread | Got(use: Use) | Lost

  /** The two reads one reader goroutine makes, hour first. */
  datatype Readings = Readings(hour: Reading, day: Reading)

  datatype PolicyRead = Unresolved | Absent | Unavailable | Resolved(limits: Limits)

  /** Where one accounting write ended up: not tried yet, dropped on an error, or in the window starting at `start`. */
  datatype Landing = NotYet | Dropped | At(start: int)

  datatype Phase = Lookup | ReadingUsage | Streaming | Refused(window: WindowKind, retryAfter: int)
                 | WritingEvent | WritingHour | WritingDay | Done

  /** A request and, since no request is ever forgotten, its entry in the ledger of charges. */
  datatype Request = Request(who: Identity, policy: PolicyRead, user: Readings, team: Readings, phase: Phase,
                             charge: Option<Charge>, event: Landing, hour: Landing, day: Landing)

  datatype EventRow = EventRow(who: Identity, charge: Charge, createdAt: int)

  datatype State = State(now: int, pricing: PriceTable, policies: seq<PolicyRow>, keys: seq<KeyRow>,
                         events: seq<EventRow>, hour: seq<AggRow>, day: seq<AggRow>, reqs: seq<Request>)

  /** `ok` tells whether the statement succeeds; `i` is a request, and an action that is not due does nothing. */
  datatype Action =
    | Tick(at: int)
    | SetPolicies(rows: seq<PolicyRow>)
    | CreateKey(id: Id, org: Id, user: Id, team: Option<Id>, hash: string)
    | RevokeKey(id: Id, org: Id)
    | TouchKey(id: Id, org: Id)
    | Arrive(hash: string, ok: bool)
    | LookupPolicy(i: nat, ok: bool)
    | ReadUser(i: nat, kind: WindowKind, ok: bool)
    | ReadTeam(i: nat, kind: WindowKind, ok: bool)
    | DecideAdmission(i: nat)
    | FinishStream(i: nat, provider: string, model: string, input: Int32, output: Int32)
    | WriteEvent(i: nat, ok: bool)
    | WriteHour(i: nat, ok: bool)
    | WriteDay(i: nat, ok: bool)

  function Arrived(who: Identity): Request {
    Request(who, Unresolved, Readings(Unread, Unread), Readings(Unread, Unread), Lookup, None, NotYet, NotYet, NotYet)
  }

  function User(who: Identity): Party { UserParty(who.org, who.user) }

  function Team(who: Identity): Party
    requires who.team.Some?
  {
    TeamParty(who.org, who.team.value)
  }

  /** A reader stops after a failed hour query. */
  predicate ReaderDone(r: Readings) {
    r.hour.Lost? || !r.day.Unread?
  }

  predicate ReaderLost(r: Readings) {
    r.hour.Lost? || r.day.Lost?
  }

  /** wg.Wait() returns. */
  predicate ReadersDone(r: Request) {
    ReaderDone(r.user) && (r.who.team.Some? ==> ReaderDone(r.team))
  }

  predicate AnyReaderLost(r: Request) {
    ReaderLost(r.user) || (r.who.team.Some? && ReaderLost(r.team))
  }

  function UseIn(x: Reading): Use {
    if x.Got? then x.use else Use(0, 0)
  }

  function WindowsOf(r: Readings): Windows {
    Windows(UseIn(r.hour), UseIn(r.day))
  }

  function Verdict(r: Request): Option<WindowKind>
    requires r.policy.Resolved?
  {
    if AnyReaderLost(r) then None
    else Decide(r.policy.limits, WindowsOf(r.user), if r.who.team.Some? then Some(WindowsOf(r.team)) else None)
  }

  /** The query a reader runs at the current instant. */
  function Query(s: State, p: Party, kind: WindowKind, ok: bool): Reading {
    if !ok then Lost
    else Got(WindowUsage(if kind.Hour? then s.hour else s.day, p, WindowStart(kind, s.now)))
  }

  /** The next read of a reader, or the reader as it is when that read is not due. */
  function ReadNext(s: State, r: Readings, p: Party, kind: WindowKind, ok: bool): Readings {
    if kind.Hour? && r.hour.Unread? then r.(hour := Query(s, p, Hour, ok))
    else if kind.Day? && r.hour.Got? && r.day.Unread? then r.(day := Query(s, p, Day, ok))
    else r
  }

  /** The step of one request; it reads the tables but writes only the request. */
  function StepRequest(s: State, r: Request, a: Action): Request {
    match a
    case LookupPolicy(_, ok) =>
      if !r.phase.Lookup? then r
      else if !ok then r.(policy := Unavailable, phase := Streaming)
      else
        var found := GetBudgetPolicy(s.policies, r.who);
        if found.None? then r.(policy := Absent, phase := Streaming)
        else r.(policy := Resolved(found.value.limits), phase := ReadingUsage)
    case ReadUser(_, kind, ok) =>
      if !r.phase.ReadingUsage? then r else r.(user := ReadNext(s, r.user, User(r.who), kind, ok))
    case ReadTeam(_, kind, ok) =>
      if !r.phase.ReadingUsage? || r.who.team.None? then r
      else r.(team := ReadNext(s, r.team, Team(r.who), kind, ok))
    case DecideAdmission(_) =>
      if !r.phase.ReadingUsage? || !ReadersDone(r) || !r.policy.Resolved? then r
      else
        var v := Verdict(r);
        if v.None? then r.(phase := Streaming) else r.(phase := Refused(v.value, RetryAfterSeconds(s.now, v.value)))
    case FinishStream(_, provider, model, input, output) =>
      if !r.phase.Streaming? then r
      else if input == 0 && output == 0 then r.(phase := Done)
      else r.(charge := Some(Charge(provider, model, input, output, ComputeCost(model, input, output, s.pricing))),
              phase := WritingEvent)
    case WriteEvent(_, ok) =>
      if !r.phase.WritingEvent? then r else r.(event := if ok then At(s.now) else Dropped, phase := WritingHour)
    case WriteHour(_, ok) =>
      if !r.phase.WritingHour? then r
      else r.(hour := if ok then At(WindowStart(Hour, s.now)) else Dropped, phase := WritingDay)
    case WriteDay(_, ok) =>
      if !r.phase.WritingDay? then r
      else r.(day := if ok then At(WindowStart(Day, s.now)) else Dropped, phase := Done)
    case _ => r
  }

  /** Which request an action belongs to. */
  function Subject(a: Action): Option<nat> {
    match a
    case LookupPolicy(i, _) => Some(i)
    case ReadUser(i, _, _) => Some(i)
    case ReadTeam(i, _, _) => Some(i)
    case DecideAdmission(i) => Some(i)
    case FinishStream(i, _, _, _, _) => Some(i)
    case WriteEvent(i, _) => Some(i)
    case WriteHour(i, _) => Some(i)
    case WriteDay(i, _) => Some(i)
    case _ => None
  }

  /** The row an accounting write puts into its table. */
  function StepTables(s: State, r: Request, a: Action): State {
    if r.charge.None? then s
    else if a.WriteEvent? && a.ok && r.phase.WritingEvent? then
      s.(events := s.events + [EventRow(r.who, r.charge.value, s.now)])
    else if a.WriteHour? && a.ok && r.phase.WritingHour? then
      s.(hour := Upsert(s.hour, KeyFor(r.who, r.charge.value, WindowStart(Hour, s.now)), r.charge.value))
    else if a.WriteDay? && a.ok && r.phase.WritingDay? then
      s.(day := Upsert(s.day, KeyFor(r.who, r.charge.value, WindowStart(Day, s.now)), r.charge.value))
    else s
  }

  /** The clock, the administrators and newly arriving requests. */
  function Environment(s: State, a: Action): State {
    match a
    case Tick(at) => if at < s.now then s else s.(now := at)
    case SetPolicies(rows) => s.(policies := rows)
    case CreateKey(id, org, user, team, hash) => s.(keys := Create(s.keys, id, org, user, team, hash))
    case RevokeKey(id, org) => s.(keys := Revoke(s.keys, id, org, s.now))
    case TouchKey(id, org) => s.(keys := Touch(s.keys, id, org, s.now))
    case Arrive(hash, ok) =>
      var who := Authenticate(s.keys, hash);
      if !ok || who.None? then s else s.(reqs := s.reqs + [Arrived(who.value)])
    case _ => s
  }

  function Exec(s: State, a: Action): State {
    match Subject(a)
    case None => Environment(s, a)
    case Some(i) =>
      if i >= |s.reqs| then s
      else StepTables(s, s.reqs[i], a).(reqs := s.reqs[i := StepRequest(s, s.reqs[i], a)])
  }

  /** An empty database at some instant, with any prices and policies. */
  predicate Init(s: State) {
    s.keys == [] && s.events == [] && s.hour == [] && s.day == [] && s.reqs == []
  }

  /** The state after a whole run. */
  function Run(s: State, acts: seq<Action>): State {
    if acts == [] then s else Exec(Run(s, acts[..|acts| - 1]), acts[|acts| - 1])
  }

  /** The states a run passes through are the states of its prefixes. */
  lemma PrefixOfRun(acts: seq<Action>, n: nat)
    requires n < |acts|
    ensures acts[..|acts| - 1][..n] == acts[..n]
  {
  }

  // ---- Sums over the ledger ----

  function TableOf(s: State, kind: WindowKind): seq<AggRow> {
    if kind.Hour? then s.hour else s.day
  }

  function LandingOf(r: Request, kind: WindowKind): Landing {
    if kind.Hour? then r.hour else r.day
  }

  /** The step puts a charge into this table: its aggregate write is due and succeeds. */
  predicate Lands(r: Request, a: Action, kind: WindowKind) {
    && r.charge.Some?
    && if kind.Hour? then a.WriteHour? && a.ok && r.phase.WritingHour? else a.WriteDay? && a.ok && r.phase.WritingDay?
  }

  function Total(reqs: seq<Request>, f: Request -> int): int {
    if reqs == [] then 0 else f(reqs[0]) + Total(reqs[1..], f)
  }

  lemma {:induction false} TotalUpdate(reqs: seq<Request>, i: nat, r: Request, f: Request -> int)
    requires i < |reqs|
    ensures Total(reqs[i := r], f) == Total(reqs, f) - f(reqs[i]) + f(r)
  {
    if i == 0 {
      assert reqs[i := r][1..] == reqs[1..];
    } else {
      assert reqs[i := r][1..] == reqs[1..][i - 1 := r];
      TotalUpdate(reqs[1..], i - 1, r, f);
    }
  }

  lemma {:induction false} TotalAppend(reqs: seq<Request>, r: Request, f: Request -> int)
    ensures Total(reqs + [r], f) == Total(reqs, f) + f(r)
  {
    if reqs == [] {
      assert (reqs + [r])[1..] == [];
    } else {
      assert (reqs + [r])[1..] == reqs[1..] + [r];
      TotalAppend(reqs[1..], r, f);
    }
  }

  // ---- What every state keeps ----

  /** Every limit the request's policy sets was read below the limit, or the request was let pass without a check. */
  predicate Admitted(r: Request) {
    r.policy.Absent? || r.policy.Unavailable? || (r.policy.Resolved? && ReadersDone(r) && Verdict(r).None?)
  }

  predicate Untouched(r: Request) {
    r.event.NotYet? && r.hour.NotYet? && r.day.NotYet?
  }

  /** The phases of a request, with what each has behind it. */
  predicate WellPhased(r: Request) {
    && (r.user.day.Unread? || r.user.hour.Got?) && (r.team.day.Unread? || r.team.hour.Got?)
    && (r.hour.At? ==> r.hour.start % HOUR == 0) && (r.day.At? ==> r.day.start % DAY == 0)
    && match r.phase
       case Lookup => r == Arrived(r.who)
       case ReadingUsage => r.policy.Resolved? && r.charge.None? && Untouched(r)
       case Refused(w, _) => r.policy.Resolved? && Verdict(r) == Some(w) && r.charge.None? && Untouched(r)
       case Streaming => Admitted(r) && r.charge.None? && Untouched(r)
       case WritingEvent => Admitted(r) && r.charge.Some? && Untouched(r)
       case WritingHour => Admitted(r) && r.charge.Some? && !r.event.NotYet? && r.hour.NotYet? && r.day.NotYet?
       case WritingDay => Admitted(r) && r.charge.Some? && !r.event.NotYet? && !r.hour.NotYet? && r.day.NotYet?
       case Done => Admitted(r) && (if r.charge.None? then Untouched(r)
                                    else !r.event.NotYet? && !r.hour.NotYet? && !r.day.NotYet?)
  }

  /** One row per key, counting at least one request, in a window that has begun and that starts where windows start. */
  ghost predicate WellFormedTable(rows: seq<AggRow>, kind: WindowKind, now: int) {
    && UniqueKeys(rows)
    && forall row :: row in rows ==>
         row.key.start <= WindowStart(kind, now) && row.key.start % Length(kind) == 0 && row.count >= 1
  }

  ghost predicate Inv(s: State) {
    && (forall i :: 0 <= i < |s.reqs| ==> WellPhased(s.reqs[i]))
    && WellFormedTable(s.hour, Hour, s.now)
    && WellFormedTable(s.day, Day, s.now)
    && WellKeyed(s.keys)
  }

  lemma StepKeepsPhases(s: State, r: Request, a: Action)
    requires WellPhased(r)
    ensures WellPhased(StepRequest(s, r, a))
  {
  }

  lemma {:induction false} UpsertKeepsTable(rows: seq<AggRow>, kind: WindowKind, now: int, who: Identity, c: Charge)
    requires WellFormedTable(rows, kind, now)
    ensures WellFormedTable(Upsert(rows, KeyFor(who, c, WindowStart(kind, now)), c), kind, now)
  {
    var k := KeyFor(who, c, WindowStart(kind, now));
    UpsertKeepsKeysUnique(rows, k, c);
    UpsertCounts(rows, k, c);
  }

  lemma {:induction false} UpsertCounts(rows: seq<AggRow>, k: AggKey, c: Charge)
    requires forall row :: row in rows ==> row.count >= 1
    ensures forall row :: row in Upsert(rows, k, c) ==> row.count >= 1
  {
    if rows != [] {
      assert rows[0] in rows;
      UpsertCounts(rows[1..], k, c);
    }
  }

  lemma EnvironmentKeepsInv(s: State, a: Action)
    requires Inv(s) && Subject(a).None?
    ensures Inv(Environment(s, a))
  {
    var s' := Environment(s, a);
    WindowsAdvance(Hour, s.now, s'.now);
    WindowsAdvance(Day, s.now, s'.now);
  }

  lemma TablesKeepInv(s: State, r: Request, a: Action)
    requires WellFormedTable(s.hour, Hour, s.now) && WellFormedTable(s.day, Day, s.now)
    ensures var s' := StepTables(s, r, a);
      WellFormedTable(s'.hour, Hour, s.now) && WellFormedTable(s'.day, Day, s.now)
  {
    if r.charge.Some? {
      UpsertKeepsTable(s.hour, Hour, s.now, r.who, r.charge.value);
      UpsertKeepsTable(s.day, Day, s.now, r.who, r.charge.value);
    }
  }

  /** An accounting write touches only the three usage tables. */
  lemma TablesFrame(s: State, r: Request, a: Action)
    ensures var s' := StepTables(s, r, a); s' == s.(events := s'.events, hour := s'.hour, day := s'.day)
  {
  }

  lemma RequestFrame(s: State, i: nat, a: Action)
    requires Subject(a) == Some(i) && i < |s.reqs|
    ensures Exec(s, a).now == s.now && Exec(s, a).reqs == s.reqs[i := StepRequest(s, s.reqs[i], a)]
  {
    TablesFrame(s, s.reqs[i], a);
  }

  lemma StepKeepsInv(s: State, a: Action)
    requires Inv(s)
    ensures Inv(Exec(s, a))
  {
    if Subject(a).None? {
      EnvironmentKeepsInv(s, a);
    } else if Subject(a).value < |s.reqs| {
      var r := s.reqs[Subject(a).value];
      StepKeepsPhases(s, r, a);
      TablesKeepInv(s, r, a);
      TablesFrame(s, r, a);
    }
  }

  /** The invariant of every reachable state. */
  lemma {:induction false} RunKeepsInv(s: State, acts: seq<Action>)
    requires Init(s)
    ensures Inv(Run(s, acts))
  {
    if acts != [] {
      RunKeepsInv(s, acts[..|acts| - 1]);
      StepKeepsInv(Run(s, acts[..|acts| - 1]), acts[|acts| - 1]);
    }
  }
}
