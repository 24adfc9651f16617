/** The aggregate tables and usage_events against the ledger of charges, in every interleaving. */
module Ledger {
  import opened Core
  import opened Clock
  import opened Tables
  import opened Engine

  /** The key of the row a request's write landed in. */
  predicate LandedIn(r: Request, landing: Landing, where: AggKey -> bool) {
    r.charge.Some? && landing.At? && where(KeyFor(r.who, r.charge.value, landing.start))
  }

  /** What a request put into the selected rows of a table. */
  function Contribution(kind: WindowKind, where: AggKey -> bool, m: Measure): Request -> int {
    (r: Request) =>
      if LandedIn(r, LandingOf(r, kind), where) then ChargeAmount(r.charge.value, m) else 0
  }

  ghost predicate Agrees(s: State, kind: WindowKind, where: AggKey -> bool, m: Measure) {
    RowSum(TableOf(s, kind), where, m) == Total(s.reqs, Contribution(kind, where, m))
  }

  lemma TableAfterStep(s: State, r: Request, a: Action, kind: WindowKind, where: AggKey -> bool, m: Measure)
    ensures RowSum(TableOf(StepTables(s, r, a), kind), where, m) == RowSum(TableOf(s, kind), where, m)
      + if Lands(r, a, kind) && where(KeyFor(r.who, r.charge.value, WindowStart(kind, s.now)))
        then ChargeAmount(r.charge.value, m) else 0
  {
    if r.charge.Some? {
      UpsertAddsOnce(TableOf(s, kind), KeyFor(r.who, r.charge.value, WindowStart(kind, s.now)), r.charge.value, where,
                     m);
    }
  }

  lemma ContributionAfterStep(s: State, r: Request, a: Action, kind: WindowKind, where: AggKey -> bool, m: Measure)
    requires WellPhased(r)
    ensures Contribution(kind, where, m)(StepRequest(s, r, a)) == Contribution(kind, where, m)(r)
      + if Lands(r, a, kind) && where(KeyFor(r.who, r.charge.value, WindowStart(kind, s.now)))
        then ChargeAmount(r.charge.value, m) else 0
  {
  }

  lemma RequestStepKeepsAgreement(s: State, i: nat, a: Action, kind: WindowKind, where: AggKey -> bool, m: Measure)
    requires Subject(a) == Some(i) && i < |s.reqs|
    requires WellPhased(s.reqs[i]) && Agrees(s, kind, where, m)
    ensures Agrees(Exec(s, a), kind, where, m)
  {
    TotalUpdate(s.reqs, i, StepRequest(s, s.reqs[i], a), Contribution(kind, where, m));
    TableAfterStep(s, s.reqs[i], a, kind, where, m);
    ContributionAfterStep(s, s.reqs[i], a, kind, where, m);
    assert TableOf(Exec(s, a), kind) == TableOf(StepTables(s, s.reqs[i], a), kind);
  }

  lemma StepKeepsAgreement(s: State, a: Action, kind: WindowKind, where: AggKey -> bool, m: Measure)
    requires Inv(s) && Agrees(s, kind, where, m)
    ensures Agrees(Exec(s, a), kind, where, m)
  {
    if Subject(a).None? {
      if |Exec(s, a).reqs| > |s.reqs| {
        TotalAppend(s.reqs, Exec(s, a).reqs[|s.reqs|], Contribution(kind, where, m));
      }
    } else if Subject(a).value < |s.reqs| {
      RequestStepKeepsAgreement(s, Subject(a).value, a, kind, where, m);
    }
  }

  /** Every sum a query can ask of an aggregate table is the same sum over the charges whose upsert succeeded. */
  lemma {:induction false} TablesAgreeWithLedger(init: State, acts: seq<Action>, kind: WindowKind,
                                                 where: AggKey -> bool, m: Measure)
    requires Init(init)
    ensures RowSum(TableOf(Run(init, acts), kind), where, m)
         == Total(Run(init, acts).reqs, Contribution(kind, where, m))
  {
    if acts != [] {
      TablesAgreeWithLedger(init, acts[..|acts| - 1], kind, where, m);
      RunKeepsInv(init, acts[..|acts| - 1]);
      StepKeepsAgreement(Run(init, acts[..|acts| - 1]), acts[|acts| - 1], kind, where, m);
    }
  }

  /** The four window-usage queries return direct sums over the ledger. */
  lemma WindowQueriesSumTheLedger(init: State, acts: seq<Action>, kind: WindowKind, p: Party, start: int)
    requires Init(init)
    ensures var s := Run(init, acts);
      WindowUsage(TableOf(s, kind), p, start) == Use(Total(s.reqs, Contribution(kind, InWindow(p, start), Cost)),
                                                     Total(s.reqs, Contribution(kind, InWindow(p, start), Tokens)))
  {
    TablesAgreeWithLedger(init, acts, kind, InWindow(p, start), Cost);
    TablesAgreeWithLedger(init, acts, kind, InWindow(p, start), Tokens);
  }

  /** The group-by sum of the ledger for one key. */
  function GroupSum(s: State, kind: WindowKind, k: AggKey, m: Measure): int {
    Total(s.reqs, Contribution(kind, IsKey(k), m))
  }

  /** In every reachable state each table has at most one row per key, with NULL teams equal to each other; the row
      holds the group-by sums of the successful upserts for that key, and it exists exactly when there is one. */
  lemma RowsAreGroupSums(init: State, acts: seq<Action>, kind: WindowKind, k: AggKey)
    requires Init(init)
    ensures var s := Run(init, acts); var rows := TableOf(s, kind);
      && UniqueKeys(rows)
      && (forall row, m :: row in rows && row.key == k ==> RowAmount(row, m) == GroupSum(s, kind, k, m))
      && ((exists row :: row in rows && row.key == k) <==> GroupSum(s, kind, k, Requests) > 0)
  {
    RunKeepsInv(init, acts);
    forall m: Measure
      ensures GroupSumIsTheRows(TableOf(Run(init, acts), kind), k, m, GroupSum(Run(init, acts), kind, k, m))
    {
      GroupSumOfRow(init, acts, kind, k, m);
    }
    assert GroupSumIsTheRows(TableOf(Run(init, acts), kind), k, Requests, GroupSum(Run(init, acts), kind, k, Requests));
  }

  /** The sum is the amount of the row with this key, and zero without one. */
  ghost predicate GroupSumIsTheRows(rows: seq<AggRow>, k: AggKey, m: Measure, sum: int) {
    && (forall row :: row in rows && row.key == k ==> RowAmount(row, m) == sum)
    && ((forall row :: row in rows ==> row.key != k) ==> sum == 0)
  }

  lemma GroupSumOfRow(init: State, acts: seq<Action>, kind: WindowKind, k: AggKey, m: Measure)
    requires Init(init)
    ensures GroupSumIsTheRows(TableOf(Run(init, acts), kind), k, m, GroupSum(Run(init, acts), kind, k, m))
  {
    RunKeepsInv(init, acts);
    TablesAgreeWithLedger(init, acts, kind, IsKey(k), m);
    OneRowPerKey(TableOf(Run(init, acts), kind), k, m);
  }

  // ---- The ledger in columns ----

  /** The columns that tell rows of an aggregate table apart, window included. */
  datatype Columns = Columns(org: Id, user: Id, team: Option<Id>, provider: string, model: string, start: int)

  /** A column of the rows with these values, and zero for all others. */
  function InRows(c: Columns, column: AggRow -> int): AggRow -> int {
    (row: AggRow) =>
      if row.key.org == c.org && row.key.user == c.user && row.key.team == c.team
         && row.key.provider == c.provider && row.key.model == c.model && row.key.start == c.start
      then column(row) else 0
  }

  /** A part of the charge of the requests with these values whose write landed here, and zero for all others. */
  function InRequests(c: Columns, landing: Request -> Landing, part: Charge -> int): Request -> int {
    (r: Request) =>
      if r.charge.Some? && landing(r) == At(c.start)
         && r.who.org == c.org && r.who.user == c.user && r.who.team == c.team
         && r.charge.value.provider == c.provider && r.charge.value.model == c.model
      then part(r.charge.value) else 0
  }

  function OneKey(c: Columns): AggKey -> bool {
    (k: AggKey) =>
      && k.org == c.org && k.user == c.user && k.team == c.team
      && k.provider == c.provider && k.model == c.model && k.start == c.start
  }

  /** Column by column: in every run the hour rows of one org, user, team, provider, model and window hold the sums of
      what the requests of that org, user and team were charged for that provider and model in that window; likewise
      days. */
  lemma ColumnsAgreeWithLedger(init: State, acts: seq<Action>, c: Columns)
    requires Init(init)
    ensures var s, at := Run(init, acts), (r: Request) => r.hour;
      && SumRows(s.hour, InRows(c, (row: AggRow) => row.input))
         == Total(s.reqs, InRequests(c, at, (x: Charge) => x.input))
      && SumRows(s.hour, InRows(c, (row: AggRow) => row.output))
         == Total(s.reqs, InRequests(c, at, (x: Charge) => x.output))
      && SumRows(s.hour, InRows(c, (row: AggRow) => row.cost))
         == Total(s.reqs, InRequests(c, at, (x: Charge) => x.cost))
      && SumRows(s.hour, InRows(c, (row: AggRow) => row.count))
         == Total(s.reqs, InRequests(c, at, (x: Charge) => 1))
    ensures var s, at := Run(init, acts), (r: Request) => r.day;
      && SumRows(s.day, InRows(c, (row: AggRow) => row.input))
         == Total(s.reqs, InRequests(c, at, (x: Charge) => x.input))
      && SumRows(s.day, InRows(c, (row: AggRow) => row.output))
         == Total(s.reqs, InRequests(c, at, (x: Charge) => x.output))
      && SumRows(s.day, InRows(c, (row: AggRow) => row.cost))
         == Total(s.reqs, InRequests(c, at, (x: Charge) => x.cost))
      && SumRows(s.day, InRows(c, (row: AggRow) => row.count))
         == Total(s.reqs, InRequests(c, at, (x: Charge) => 1))
  {
    ColumnsAgree(init, acts, Hour, c, (r: Request) => r.hour);
    ColumnsAgree(init, acts, Day, c, (r: Request) => r.day);
  }

  lemma ColumnsAgree(init: State, acts: seq<Action>, kind: WindowKind, c: Columns, at: Request -> Landing)
    requires Init(init) && forall r :: at(r) == LandingOf(r, kind)
    ensures var s := Run(init, acts);
      && SumRows(TableOf(s, kind), InRows(c, (row: AggRow) => row.input))
         == Total(s.reqs, InRequests(c, at, (x: Charge) => x.input))
      && SumRows(TableOf(s, kind), InRows(c, (row: AggRow) => row.output))
         == Total(s.reqs, InRequests(c, at, (x: Charge) => x.output))
      && SumRows(TableOf(s, kind), InRows(c, (row: AggRow) => row.cost))
         == Total(s.reqs, InRequests(c, at, (x: Charge) => x.cost))
      && SumRows(TableOf(s, kind), InRows(c, (row: AggRow) => row.count))
         == Total(s.reqs, InRequests(c, at, (x: Charge) => 1))
  {
    TablesAgreeInColumns(init, acts, kind, OneKey(c), Input,
                         InRows(c, (row: AggRow) => row.input), InRequests(c, at, (x: Charge) => x.input));
    TablesAgreeInColumns(init, acts, kind, OneKey(c), Output,
                         InRows(c, (row: AggRow) => row.output), InRequests(c, at, (x: Charge) => x.output));
    TablesAgreeInColumns(init, acts, kind, OneKey(c), Cost,
                         InRows(c, (row: AggRow) => row.cost), InRequests(c, at, (x: Charge) => x.cost));
    TablesAgreeInColumns(init, acts, kind, OneKey(c), Requests,
                         InRows(c, (row: AggRow) => row.count), InRequests(c, at, (x: Charge) => 1));
  }

  lemma TablesAgreeInColumns(init: State, acts: seq<Action>, kind: WindowKind, where: AggKey -> bool, m: Measure,
                             f: AggRow -> int, g: Request -> int)
    requires Init(init)
    requires forall row :: f(row) == if where(row.key) then RowAmount(row, m) else 0
    requires forall r :: g(r) == Contribution(kind, where, m)(r)
    ensures SumRows(TableOf(Run(init, acts), kind), f) == Total(Run(init, acts).reqs, g)
  {
    TablesAgreeWithLedger(init, acts, kind, where, m);
    RowSumInColumns(TableOf(Run(init, acts), kind), where, m, f);
    TotalSame(Run(init, acts).reqs, Contribution(kind, where, m), g);
  }

  // ---- Hours nest in days ----

  /** The hour windows of a day, k of them from its start. */
  function HourTotals(rows: seq<AggRow>, who: AggKey -> bool, day: int, hours: nat, m: Measure): int {
    if hours == 0 then 0
    else HourTotals(rows, who, day, hours - 1, m) + RowSum(rows, From(who, day + (hours - 1) * HOUR), m)
  }

  /** A condition on org, user, team, provider and model, for one window. */
  function From(who: AggKey -> bool, start: int): AggKey -> bool {
    (k: AggKey) => who(k) && k.start == start
  }

  function Within(who: AggKey -> bool, first: int, end: int): AggKey -> bool {
    (k: AggKey) => who(k) && first <= k.start < end
  }

  /** The sum of the first hours of a day is the sum over their whole stretch of time. */
  lemma {:induction false} HourTotalsCover(rows: seq<AggRow>, who: AggKey -> bool, day: int, hours: nat, m: Measure)
    requires forall row :: row in rows ==> row.key.start % HOUR == 0
    requires day % HOUR == 0
    ensures HourTotals(rows, who, day, hours, m) == RowSum(rows, Within(who, day, day + hours * HOUR), m)
  {
    if hours == 0 {
      NothingWithin(rows, who, day, m);
    } else {
      HourTotalsCover(rows, who, day, hours - 1, m);
      var last := day + (hours - 1) * HOUR;
      forall row | row in rows && last <= row.key.start < last + HOUR
        ensures row.key.start == last
      {
      }
      SumSplits(rows, Within(who, day, last), From(who, last), Within(who, day, day + hours * HOUR), m);
    }
  }

  lemma {:induction false} NothingWithin(rows: seq<AggRow>, who: AggKey -> bool, day: int, m: Measure)
    ensures RowSum(rows, Within(who, day, day), m) == 0
  {
    if rows != [] {
      NothingWithin(rows[1..], who, day, m);
    }
  }

  /** What a request puts into the hours of a day but not into that day's row, or the other way round (negative). */
  function Skew(who: AggKey -> bool, day: int, m: Measure): Request -> int {
    (r: Request) =>
      Contribution(Hour, Within(who, day, day + DAY), m)(r) - Contribution(Day, From(who, day), m)(r)
  }

  lemma {:induction false} TotalDifference(reqs: seq<Request>, f: Request -> int, g: Request -> int, d: Request -> int)
    requires forall i :: 0 <= i < |reqs| ==> d(reqs[i]) == f(reqs[i]) - g(reqs[i])
    ensures Total(reqs, d) == Total(reqs, f) - Total(reqs, g)
  {
    if reqs != [] {
      forall i | 0 <= i < |reqs[1..]|
        ensures d(reqs[1..][i]) == f(reqs[1..][i]) - g(reqs[1..][i])
      {
        assert reqs[1..][i] == reqs[i + 1];
      }
      assert d(reqs[0]) == f(reqs[0]) - g(reqs[0]);
      TotalDifference(reqs[1..], f, g, d);
    }
  }

  /** In every reachable state, failures and midnight straddling included: the 24 hour totals of a day differ from the
      day total by exactly the charges that landed in one but not in the other. */
  lemma HoursNestInDays(init: State, acts: seq<Action>, who: AggKey -> bool, day: int, m: Measure)
    requires Init(init) && day % DAY == 0
    ensures var s := Run(init, acts);
      HourTotals(s.hour, who, day, 24, m) == RowSum(s.day, From(who, day), m) + Total(s.reqs, Skew(who, day, m))
  {
    var s := Run(init, acts);
    HoursAgreeWithLedger(init, acts, who, day, m);
    TablesAgreeWithLedger(init, acts, Day, From(who, day), m);
    TotalDifference(s.reqs, Contribution(Hour, Within(who, day, day + DAY), m), Contribution(Day, From(who, day), m),
                    Skew(who, day, m));
  }

  lemma HoursAgreeWithLedger(init: State, acts: seq<Action>, who: AggKey -> bool, day: int, m: Measure)
    requires Init(init) && day % DAY == 0
    ensures var s := Run(init, acts);
      HourTotals(s.hour, who, day, 24, m) == Total(s.reqs, Contribution(Hour, Within(who, day, day + DAY), m))
  {
    HoursAreAligned(init, acts);
    DaysStartWithHours(day, 0);
    TablesAgreeWithLedger(init, acts, Hour, Within(who, day, day + DAY), m);
    HourTotalsCover(Run(init, acts).hour, who, day, 24, m);
    assert 24 * HOUR == DAY;
  }

  lemma HoursAreAligned(init: State, acts: seq<Action>)
    requires Init(init)
    ensures forall row :: row in Run(init, acts).hour ==> row.key.start % HOUR == 0
  {
    RunKeepsInv(init, acts);
  }

  /** What these keys' request has put into the hours of this day it also puts into the day's row, unless it has not
      tried yet, and the other way round. Requests of other keys or of other days are free to fail. */
  predicate SameDay(r: Request, who: AggKey -> bool, day: int) {
    && (LandedIn(r, r.hour, Within(who, day, day + DAY)) ==> r.day.NotYet? || r.day == At(day))
    && (LandedIn(r, r.day, From(who, day)) ==> r.hour.At? && day <= r.hour.start < day + DAY)
  }

  /** Between its two upserts, with the hour already in this day. */
  predicate HalfDone(r: Request, who: AggKey -> bool, day: int) {
    r.phase.WritingDay? && LandedIn(r, r.hour, Within(who, day, day + DAY))
  }

  function Outstanding(who: AggKey -> bool, day: int, m: Measure): Request -> int {
    (r: Request) => if HalfDone(r, who, day) then ChargeAmount(r.charge.value, m) else 0
  }

  lemma {:induction false} TotalSame(reqs: seq<Request>, f: Request -> int, g: Request -> int)
    requires forall i :: 0 <= i < |reqs| ==> f(reqs[i]) == g(reqs[i])
    ensures Total(reqs, f) == Total(reqs, g)
  {
    if reqs != [] {
      forall i | 0 <= i < |reqs[1..]|
        ensures f(reqs[1..][i]) == g(reqs[1..][i])
      {
        assert reqs[1..][i] == reqs[i + 1];
      }
      assert f(reqs[0]) == g(reqs[0]);
      TotalSame(reqs[1..], f, g);
    }
  }

  /** The condition on keys looks at everything but the window. */
  ghost predicate IgnoresWindow(who: AggKey -> bool) {
    forall k: AggKey, start: int :: who(k.(start := start)) == who(k)
  }

  lemma SkewIsOutstanding(r: Request, who: AggKey -> bool, day: int, m: Measure)
    requires WellPhased(r) && SameDay(r, who, day) && IgnoresWindow(who)
    ensures Skew(who, day, m)(r) == Outstanding(who, day, m)(r)
  {
    if r.charge.Some? && r.hour.At? && r.day.At? {
      var k, k' := KeyFor(r.who, r.charge.value, r.hour.start), KeyFor(r.who, r.charge.value, r.day.start);
      assert k' == k.(start := r.day.start);
      assert who(k') == who(k);
    }
    var inHours, inDay := Contribution(Hour, Within(who, day, day + DAY), m)(r),
        Contribution(Day, From(who, day), m)(r);
    assert inHours - inDay == Outstanding(who, day, m)(r);
  }

  /** The condition is exact, request by request: a request breaks it exactly when it counts in the hours of the day and
      not in the day's row, or the other way round, without being between its two upserts. */
  lemma SameDayIsExact(r: Request, who: AggKey -> bool, day: int)
    requires WellPhased(r) && IgnoresWindow(who)
    ensures SameDay(r, who, day) <==> Skew(who, day, Requests)(r) == Outstanding(who, day, Requests)(r)
  {
    if SameDay(r, who, day) {
      SkewIsOutstanding(r, who, day, Requests);
    }
    var inHours := Contribution(Hour, Within(who, day, day + DAY), Requests)(r);
    var inDay := Contribution(Day, From(who, day), Requests)(r);
    assert inHours == (if LandedIn(r, r.hour, Within(who, day, day + DAY)) then 1 else 0);
    assert inDay == (if LandedIn(r, r.day, From(who, day)) then 1 else 0);
    assert Skew(who, day, Requests)(r) == inHours - inDay;
  }

  /** When none of these keys' requests fails a write or straddles midnight on this day, the day total is the sum of its
      24 hour totals minus exactly the charges between their two upserts; the request counts agree exactly when there
      are none. */
  lemma HoursNestInDaysWithoutFailures(init: State, acts: seq<Action>, who: AggKey -> bool, day: int, m: Measure)
    requires Init(init) && IgnoresWindow(who) && day % DAY == 0
    requires forall i :: 0 <= i < |Run(init, acts).reqs| ==> SameDay(Run(init, acts).reqs[i], who, day)
    ensures var s := Run(init, acts);
      && RowSum(s.day, From(who, day), m)
         == HourTotals(s.hour, who, day, 24, m) - Total(s.reqs, Outstanding(who, day, m))
      && ((forall i :: 0 <= i < |s.reqs| ==> !HalfDone(s.reqs[i], who, day)) ==>
            RowSum(s.day, From(who, day), m) == HourTotals(s.hour, who, day, 24, m))
      && (RowSum(s.day, From(who, day), Requests) == HourTotals(s.hour, who, day, 24, Requests) ==>
            forall i :: 0 <= i < |s.reqs| ==> !HalfDone(s.reqs[i], who, day))
  {
    var s := Run(init, acts);
    RunKeepsInv(init, acts);
    forall m': Measure
      ensures RowSum(s.day, From(who, day), m')
           == HourTotals(s.hour, who, day, 24, m') - Total(s.reqs, Outstanding(who, day, m'))
    {
      HoursNestInDays(init, acts, who, day, m');
      forall i | 0 <= i < |s.reqs|
        ensures Skew(who, day, m')(s.reqs[i]) == Outstanding(who, day, m')(s.reqs[i])
      {
        SkewIsOutstanding(s.reqs[i], who, day, m');
      }
      TotalSame(s.reqs, Skew(who, day, m'), Outstanding(who, day, m'));
    }
    NobodyHalfDone(s.reqs, who, day, m);
    NobodyHalfDone(s.reqs, who, day, Requests);
  }

  lemma {:induction false} NobodyHalfDone(reqs: seq<Request>, who: AggKey -> bool, day: int, m: Measure)
    ensures (forall i :: 0 <= i < |reqs| ==> !HalfDone(reqs[i], who, day)) ==>
      Total(reqs, Outstanding(who, day, m)) == 0
    ensures m.Requests? ==> Total(reqs, Outstanding(who, day, m)) >= 0
    ensures m.Requests? && Total(reqs, Outstanding(who, day, m)) == 0 ==>
      forall i :: 0 <= i < |reqs| ==> !HalfDone(reqs[i], who, day)
  {
    if reqs != [] {
      NobodyHalfDone(reqs[1..], who, day, m);
      forall i | 0 <= i < |reqs|
        ensures i > 0 ==> reqs[i] == reqs[1..][i - 1]
      {
      }
      assert forall i :: 0 <= i < |reqs[1..]| ==> reqs[1..][i] == reqs[i + 1];
    }
  }
}
