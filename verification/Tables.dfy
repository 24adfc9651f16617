/** usage_agg_hour and usage_agg_day as heaps of rows, with their upserts and window queries. */
module Tables {
  import opened Core

  /** The columns of UNIQUE NULLS NOT DISTINCT (org_id, user_id, team_id, provider, model, window_start). */
  datatype AggKey = AggKey(org: Id, user: Id, team: Option<Id>, provider: string, model: string, start: int)

  /** What one request adds to a row; cost counts units of 1e-8 USD. */
  datatype Charge = Charge(provider: string, model: string, input: int, output: int, cost: int)

  datatype AggRow = AggRow(key: AggKey, input: int, output: int, cost: int, count: int)

  /** The columns, and the sums of columns, that the queries add up. */
  datatype Measure = Cost | Tokens | Input | Output | Requests

  function KeyFor(who: Identity, c: Charge, start: int): AggKey {
    AggKey(who.org, who.user, who.team, c.provider, c.model, start)
  }

  function RowAmount(row: AggRow, m: Measure): int {
    match m
    case Cost => row.cost
    case Tokens => row.input + row.output
    case Input => row.input
    case Output => row.output
    case Requests => row.count
  }

  function ChargeAmount(c: Charge, m: Measure): int {
    match m
    case Cost => c.cost
    case Tokens => c.input + c.output
    case Input => c.input
    case Output => c.output
    case Requests => 1
  }

  function FreshRow(k: AggKey, c: Charge): AggRow {
    AggRow(k, c.input, c.output, c.cost, 1)
  }

  function Merge(row: AggRow, c: Charge): AggRow {
    AggRow(row.key, row.input + c.input, row.output + c.output, row.cost + c.cost, row.count + 1)
  }

  /** INSERT ... ON CONFLICT (key) DO UPDATE: the conflicting row takes the sums, otherwise a row is added. */
  function Upsert(rows: seq<AggRow>, k: AggKey, c: Charge): seq<AggRow> {
    if rows == [] then [FreshRow(k, c)]
    else if rows[0].key == k then [Merge(rows[0], c)] + rows[1..]
    else [rows[0]] + Upsert(rows[1..], k, c)
  }

  /** SUM(measure) over the rows a WHERE clause on the key selects. */
  function RowSum(rows: seq<AggRow>, where: AggKey -> bool, m: Measure): int {
    if rows == [] then 0
    else (if where(rows[0].key) then RowAmount(rows[0], m) else 0) + RowSum(rows[1..], where, m)
  }

  lemma OneRowSum(row: AggRow, where: AggKey -> bool, m: Measure)
    ensures RowSum([row], where, m) == if where(row.key) then RowAmount(row, m) else 0
  {
    assert [row][1..] == [];
  }

  ghost predicate UniqueKeys(rows: seq<AggRow>) {
    forall i, j :: 0 <= i < j < |rows| ==> rows[i].key != rows[j].key
  }

  /** Whose usage a window query adds up: WHERE org_id, user_id or WHERE org_id, team_id. */
  datatype Party = UserParty(org: Id, user: Id) | TeamParty(org: Id, team: Id)

  predicate Covers(p: Party, k: AggKey) {
    match p
    case UserParty(org, user) => k.org == org && k.user == user
    case TeamParty(org, team) => k.org == org && k.team == Some(team)
  }

  /** The WHERE clause of the four window-usage queries. */
  function InWindow(p: Party, start: int): AggKey -> bool {
    (k: AggKey) => Covers(p, k) && k.start == start
  }

  datatype Use = Use(cost: int, tokens: int)

  /** GetCurrentWindowUsage* and GetTeamWindowUsage*, for the window that starts at `start`. */
  function WindowUsage(rows: seq<AggRow>, p: Party, start: int): Use {
    Use(RowSum(rows, InWindow(p, start), Cost), RowSum(rows, InWindow(p, start), Tokens))
  }

  /** An upsert adds exactly the charge to every sum that covers its key and changes no other sum. */
  lemma {:induction false} UpsertAddsOnce(rows: seq<AggRow>, k: AggKey, c: Charge, where: AggKey -> bool, m: Measure)
    ensures RowSum(Upsert(rows, k, c), where, m)
         == RowSum(rows, where, m) + if where(k) then ChargeAmount(c, m) else 0
  {
    if rows == [] {
      assert Upsert(rows, k, c)[1..] == [];
    } else if rows[0].key != k {
      UpsertAddsOnce(rows[1..], k, c, where, m);
    }
  }

  /** An upsert keeps one row per key; every old key stays and only k may be new. */
  lemma {:induction false} UpsertKeepsKeysUnique(rows: seq<AggRow>, k: AggKey, c: Charge)
    requires UniqueKeys(rows)
    ensures UniqueKeys(Upsert(rows, k, c))
    ensures forall row :: row in Upsert(rows, k, c) ==> row.key == k || row in rows
  {
    if rows != [] && rows[0].key != k {
      UpsertKeepsKeysUnique(rows[1..], k, c);
    }
  }

  function IsKey(k: AggKey): AggKey -> bool {
    (x: AggKey) => x == k
  }

  /** The amount of the only row with key k is what a query for exactly that key returns; no row, no amount. */
  lemma {:induction false} OneRowPerKey(rows: seq<AggRow>, k: AggKey, m: Measure)
    requires UniqueKeys(rows)
    ensures forall row :: row in rows && row.key == k ==> RowSum(rows, IsKey(k), m) == RowAmount(row, m)
    ensures (forall row :: row in rows ==> row.key != k) ==> RowSum(rows, IsKey(k), m) == 0
  {
    if rows != [] {
      OneRowPerKey(rows[1..], k, m);
      if rows[0].key == k {
        assert forall row :: row in rows[1..] ==> row.key != k;
      }
    }
  }

  /** Rows that all start at or before `latest` add nothing to a query for a later window. */
  lemma {:induction false} NothingInLaterWindows(rows: seq<AggRow>, latest: int, p: Party, start: int, m: Measure)
    requires forall row :: row in rows ==> row.key.start <= latest
    requires start > latest
    ensures RowSum(rows, InWindow(p, start), m) == 0
  {
    if rows != [] {
      assert rows[0] in rows;
      NothingInLaterWindows(rows[1..], latest, p, start, m);
    }
  }

  /** Sums of non-negative rows are non-negative. */
  lemma {:induction false} NonNegativeSum(rows: seq<AggRow>, where: AggKey -> bool, m: Measure)
    requires forall row :: row in rows ==> RowAmount(row, m) >= 0
    ensures RowSum(rows, where, m) >= 0
  {
    if rows != [] {
      assert rows[0] in rows;
      NonNegativeSum(rows[1..], where, m);
    }
  }

  /** A query for either of two exclusive conditions adds up the two queries. */
  lemma {:induction false} SumSplits(rows: seq<AggRow>, a: AggKey -> bool, b: AggKey -> bool, both: AggKey -> bool,
                                     m: Measure)
    requires forall row :: row in rows ==> !(a(row.key) && b(row.key)) && (both(row.key) <==> a(row.key) || b(row.key))
    ensures RowSum(rows, both, m) == RowSum(rows, a, m) + RowSum(rows, b, m)
  {
    if rows != [] {
      assert rows[0] in rows;
      SumSplits(rows[1..], a, b, both, m);
    }
  }

  // ---- The queries in columns ----

  /** Any sum over the rows of a table. */
  function SumRows(rows: seq<AggRow>, f: AggRow -> int): int {
    if rows == [] then 0 else f(rows[0]) + SumRows(rows[1..], f)
  }

  lemma {:induction false} RowSumInColumns(rows: seq<AggRow>, where: AggKey -> bool, m: Measure, f: AggRow -> int)
    requires forall row :: f(row) == if where(row.key) then RowAmount(row, m) else 0
    ensures SumRows(rows, f) == RowSum(rows, where, m)
  {
    if rows != [] {
      RowSumInColumns(rows[1..], where, m, f);
    }
  }

  /** The four window-usage queries: cost, and input plus output tokens, of the rows of one org and one user or team. */
  lemma WindowUsageInColumns(rows: seq<AggRow>, org: Id, id: Id, start: int)
    ensures var u := WindowUsage(rows, UserParty(org, id), start);
      && u.cost == SumRows(rows, (row: AggRow) =>
           if row.key.org == org && row.key.user == id && row.key.start == start then row.cost else 0)
      && u.tokens == SumRows(rows, (row: AggRow) =>
           if row.key.org == org && row.key.user == id && row.key.start == start then row.input + row.output else 0)
    ensures var u := WindowUsage(rows, TeamParty(org, id), start);
      && u.cost == SumRows(rows, (row: AggRow) =>
           if row.key.org == org && row.key.team == Some(id) && row.key.start == start then row.cost else 0)
      && u.tokens == SumRows(rows, (row: AggRow) =>
           if row.key.org == org && row.key.team == Some(id) && row.key.start == start then row.input + row.output
           else 0)
  {
    var user, team := InWindow(UserParty(org, id), start), InWindow(TeamParty(org, id), start);
    RowSumInColumns(rows, user, Cost, (row: AggRow) =>
      if row.key.org == org && row.key.user == id && row.key.start == start then row.cost else 0);
    RowSumInColumns(rows, user, Tokens, (row: AggRow) =>
      if row.key.org == org && row.key.user == id && row.key.start == start then row.input + row.output else 0);
    RowSumInColumns(rows, team, Cost, (row: AggRow) =>
      if row.key.org == org && row.key.team == Some(id) && row.key.start == start then row.cost else 0);
    RowSumInColumns(rows, team, Tokens, (row: AggRow) =>
      if row.key.org == org && row.key.team == Some(id) && row.key.start == start then row.input + row.output else 0);
  }
}
