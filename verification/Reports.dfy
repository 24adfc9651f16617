/** The three dashboard reports over usage_agg_day. */
module Reports {
  import opened Core
  import opened Clock
  import opened Tables

  /** GROUP BY: what a row is grouped under. */
  datatype Group = DayGroup(start: int) | UserGroup(user: Id) | ModelGroup(model: string, provider: string)

  datatype Report = Daily | TopUsers | TopModels

  function GroupOf(rep: Report, k: AggKey): Group {
    match rep
    case Daily => DayGroup(WindowStart(Day, k.start))
    case TopUsers => UserGroup(k.user)
    case TopModels => ModelGroup(k.model, k.provider)
  }

  datatype Line = Line(group: Group, input: int, output: int, cost: int, requests: int)

  /** The WHERE clause: one org, from <= window_start < to. */
  function InRange(org: Id, from: int, to: int): AggKey -> bool {
    (k: AggKey) => k.org == org && from <= k.start < to
  }

  function AddTo(lines: seq<Line>, g: Group, row: AggRow): seq<Line> {
    if lines == [] then [Line(g, row.input, row.output, row.cost, row.count)]
    else if lines[0].group == g then
      var l := lines[0];
      [Line(g, l.input + row.input, l.output + row.output, l.cost + row.cost, l.requests + row.count)] + lines[1..]
    else [lines[0]] + AddTo(lines[1..], g, row)
  }

  /** The grouped rows before ORDER BY and LIMIT. */
  function Grouped(rep: Report, rows: seq<AggRow>, where: AggKey -> bool): seq<Line> {
    if rows == [] then []
    else
      var rest := Grouped(rep, rows[1..], where);
      if where(rows[0].key) then AddTo(rest, GroupOf(rep, rows[0].key), rows[0]) else rest
  }

  function LineAmount(l: Line, m: Measure): int {
    match m
    case Cost => l.cost
    case Tokens => l.input + l.output
    case Input => l.input
    case Output => l.output
    case Requests => l.requests
  }

  function Sum(lines: seq<Line>, m: Measure): int {
    if lines == [] then 0 else LineAmount(lines[0], m) + Sum(lines[1..], m)
  }

  ghost predicate DistinctGroups(lines: seq<Line>) {
    forall i, j :: 0 <= i < j < |lines| ==> lines[i].group != lines[j].group
  }

  lemma {:induction false} AddingConserves(lines: seq<Line>, g: Group, row: AggRow, m: Measure)
    ensures Sum(AddTo(lines, g, row), m) == Sum(lines, m) + RowAmount(row, m)
    ensures DistinctGroups(lines) ==> DistinctGroups(AddTo(lines, g, row))
    ensures forall l :: l in AddTo(lines, g, row) ==> l.group == g || l in lines
  {
    if lines == [] {
      assert AddTo(lines, g, row)[1..] == [];
    } else if lines[0].group != g {
      AddingConserves(lines[1..], g, row, m);
    }
  }

  /** Reports conserve usage: whatever the grouping, the lines have distinct groups and add up to the same totals as the
      day table restricted to the org and range. */
  lemma {:induction false} ReportsConserveUsage(rep: Report, rows: seq<AggRow>, where: AggKey -> bool, m: Measure)
    ensures Sum(Grouped(rep, rows, where), m) == RowSum(rows, where, m)
    ensures DistinctGroups(Grouped(rep, rows, where))
  {
    if rows != [] {
      ReportsConserveUsage(rep, rows[1..], where, m);
      AddingConserves(Grouped(rep, rows[1..], where), GroupOf(rep, rows[0].key), rows[0], m);
    }
  }

  /** The WHERE clause narrowed to one group. */
  function InGroup(rep: Report, where: AggKey -> bool, g: Group): AggKey -> bool {
    (k: AggKey) => where(k) && GroupOf(rep, k) == g
  }

  /** The amount on the lines of one group. */
  function OnGroup(lines: seq<Line>, g: Group, m: Measure): int {
    if lines == [] then 0 else (if lines[0].group == g then LineAmount(lines[0], m) else 0) + OnGroup(lines[1..], g, m)
  }

  lemma {:induction false} AddingToOneGroup(lines: seq<Line>, h: Group, row: AggRow, g: Group, m: Measure)
    ensures OnGroup(AddTo(lines, h, row), g, m) == OnGroup(lines, g, m) + if g == h then RowAmount(row, m) else 0
  {
    if lines == [] {
      assert AddTo(lines, h, row)[1..] == [];
    } else if lines[0].group != h {
      AddingToOneGroup(lines[1..], h, row, g, m);
    }
  }

  /** Every line carries exactly its own group's sums. */
  lemma {:induction false} LinesAreGroupSums(rep: Report, rows: seq<AggRow>, where: AggKey -> bool, g: Group,
                                             m: Measure)
    ensures OnGroup(Grouped(rep, rows, where), g, m) == RowSum(rows, InGroup(rep, where, g), m)
    ensures forall l :: l in Grouped(rep, rows, where) && l.group == g ==>
      LineAmount(l, m) == RowSum(rows, InGroup(rep, where, g), m)
  {
    if rows != [] {
      LinesAreGroupSums(rep, rows[1..], where, g, m);
      AddingToOneGroup(Grouped(rep, rows[1..], where), GroupOf(rep, rows[0].key), rows[0], g, m);
    }
    ReportsConserveUsage(rep, rows, where, m);
    OneLinePerGroup(Grouped(rep, rows, where), g, m);
  }

  lemma {:induction false} OneLinePerGroup(lines: seq<Line>, g: Group, m: Measure)
    requires DistinctGroups(lines)
    ensures forall l :: l in lines && l.group == g ==> LineAmount(l, m) == OnGroup(lines, g, m)
    ensures (forall l :: l in lines ==> l.group != g) ==> OnGroup(lines, g, m) == 0
  {
    if lines != [] {
      OneLinePerGroup(lines[1..], g, m);
      if lines[0].group == g {
        assert forall l :: l in lines[1..] ==> l.group != g;
      }
    }
  }

  /** Consecutive ranges add up. */
  lemma RangesAdd(rep: Report, rows: seq<AggRow>, org: Id, a: int, b: int, c: int, m: Measure)
    requires a <= b <= c
    ensures Sum(Grouped(rep, rows, InRange(org, a, c)), m)
         == Sum(Grouped(rep, rows, InRange(org, a, b)), m) + Sum(Grouped(rep, rows, InRange(org, b, c)), m)
  {
    ReportsConserveUsage(rep, rows, InRange(org, a, c), m);
    ReportsConserveUsage(rep, rows, InRange(org, a, b), m);
    ReportsConserveUsage(rep, rows, InRange(org, b, c), m);
    SumSplits(rows, InRange(org, a, b), InRange(org, b, c), InRange(org, a, c), m);
  }

  // ---- ORDER BY total_cost_usd DESC LIMIT k ----

  ghost predicate ByCost(lines: seq<Line>) {
    forall i, j :: 0 <= i <= j < |lines| ==> lines[i].cost >= lines[j].cost
  }

  function Insert(lines: seq<Line>, l: Line): (r: seq<Line>)
    ensures |r| == |lines| + 1
  {
    if lines == [] || l.cost >= lines[0].cost then [l] + lines else [lines[0]] + Insert(lines[1..], l)
  }

  function Sorted(lines: seq<Line>): (r: seq<Line>)
    ensures |r| == |lines|
  {
    if lines == [] then [] else Insert(Sorted(lines[1..]), lines[0])
  }

  lemma {:induction false} InsertPermutes(lines: seq<Line>, l: Line)
    ensures multiset(Insert(lines, l)) == multiset(lines) + multiset{l}
  {
    if lines != [] && l.cost < lines[0].cost {
      InsertPermutes(lines[1..], l);
      assert lines == [lines[0]] + lines[1..];
    }
  }

  /** Nothing inserted comes before what is at least as expensive. */
  lemma {:induction false} InsertSorts(lines: seq<Line>, l: Line)
    requires ByCost(lines)
    ensures ByCost(Insert(lines, l))
    ensures Insert(lines, l)[0].cost == if lines == [] || l.cost >= lines[0].cost then l.cost else lines[0].cost
  {
    if lines != [] && l.cost < lines[0].cost {
      InsertSorts(lines[1..], l);
    }
  }

  lemma {:induction false} SortingPermutes(lines: seq<Line>)
    ensures ByCost(Sorted(lines)) && multiset(Sorted(lines)) == multiset(lines)
  {
    if lines != [] {
      SortingPermutes(lines[1..]);
      InsertSorts(Sorted(lines[1..]), lines[0]);
      InsertPermutes(Sorted(lines[1..]), lines[0]);
      assert lines == [lines[0]] + lines[1..];
    }
  }

  /** Whatever lines are chosen from a ranking, as many from its top cost at least as much. */
  lemma {:induction false} TopCostsMost(ranked: seq<Line>, chosen: seq<Line>)
    requires ByCost(ranked) && multiset(chosen) <= multiset(ranked)
    ensures |chosen| <= |ranked|
    ensures Sum(chosen, Cost) <= Sum(ranked[..|chosen|], Cost)
    decreases |ranked|
  {
    if chosen == [] {
      assert ranked[..0] == [];
    } else {
      AnyOf(ranked, chosen);
      var top, rest, n := ranked[0], ranked[1..], |chosen|;
      if i :| 0 <= i < n && chosen[i] == top {
        WithoutOne(ranked, chosen, i);
        TopCostsMost(rest, chosen[..i] + chosen[i + 1..]);
        assert ranked[..n][1..] == rest[..n - 1];
      } else {
        NoneIsFirst(ranked, chosen);
        TopCostsMost(rest, chosen);
        ShiftedTop(ranked, n);
      }
    }
  }

  lemma AnyOf(ranked: seq<Line>, chosen: seq<Line>)
    requires chosen != [] && multiset(chosen) <= multiset(ranked)
    ensures ranked != []
  {
    assert chosen[0] in multiset(chosen);
  }

  lemma WithoutOne(ranked: seq<Line>, chosen: seq<Line>, i: nat)
    requires ranked != [] && i < |chosen| && chosen[i] == ranked[0] && multiset(chosen) <= multiset(ranked)
    ensures var others := chosen[..i] + chosen[i + 1..];
      && multiset(others) <= multiset(ranked[1..]) && |others| == |chosen| - 1
      && Sum(chosen, Cost) == ranked[0].cost + Sum(others, Cost)
  {
    assert ranked == [ranked[0]] + ranked[1..];
    assert chosen == chosen[..i] + [chosen[i]] + chosen[i + 1..];
    assert multiset(chosen) == multiset(chosen[..i] + chosen[i + 1..]) + multiset{ranked[0]};
    assert multiset(ranked) == multiset(ranked[1..]) + multiset{ranked[0]};
    OneLess(multiset(chosen[..i] + chosen[i + 1..]), multiset(ranked[1..]), ranked[0]);
    SumTwo(chosen[..i] + [chosen[i]], chosen[i + 1..]);
    SumTwo(chosen[..i], [chosen[i]]);
    SumTwo(chosen[..i], chosen[i + 1..]);
    assert [chosen[i]][1..] == [];
  }

  lemma OneLess(a: multiset<Line>, b: multiset<Line>, l: Line)
    requires a + multiset{l} <= b + multiset{l}
    ensures a <= b
  {
    forall x: Line
      ensures a[x] <= b[x]
    {
      assert (a + multiset{l})[x] <= (b + multiset{l})[x];
    }
  }

  lemma NoneIsFirst(ranked: seq<Line>, chosen: seq<Line>)
    requires ranked != [] && multiset(chosen) <= multiset(ranked) && ranked[0] !in chosen
    ensures multiset(chosen) <= multiset(ranked[1..])
  {
    assert ranked == [ranked[0]] + ranked[1..];
    forall l: Line
      ensures multiset(chosen)[l] <= multiset(ranked[1..])[l]
    {
      if l == ranked[0] {
        assert l !in multiset(chosen);
      }
    }
  }

  /** Moving one place down a ranking never raises the sum of n lines. */
  lemma ShiftedTop(ranked: seq<Line>, n: nat)
    requires ByCost(ranked) && 1 <= n < |ranked|
    ensures Sum(ranked[1..][..n], Cost) <= Sum(ranked[..n], Cost)
  {
    assert ranked[1..][..n] == ranked[1..n] + [ranked[n]];
    assert ranked[..n] == [ranked[0]] + ranked[1..n];
    SumTwo(ranked[1..n], [ranked[n]]);
    assert [ranked[n]][1..] == [];
  }

  lemma {:induction false} SumTwo(a: seq<Line>, b: seq<Line>)
    ensures Sum(a + b, Cost) == Sum(a, Cost) + Sum(b, Cost)
  {
    if a == [] {
      assert a + b == b;
    } else {
      assert (a + b)[1..] == a[1..] + b;
      SumTwo(a[1..], b);
    }
  }

  /** A result ORDER BY may produce; ties may come in any order. */
  ghost predicate Ranking(ranked: seq<Line>, lines: seq<Line>) {
    ByCost(ranked) && multiset(ranked) == multiset(lines)
  }

  function Limit(ranked: seq<Line>, k: nat): seq<Line> {
    if k < |ranked| then ranked[..k] else ranked
  }

  /** A permutation of lines with distinct groups has distinct groups. */
  lemma RankingKeepsGroups(ranked: seq<Line>, lines: seq<Line>)
    requires multiset(ranked) == multiset(lines) && DistinctGroups(lines)
    ensures DistinctGroups(ranked)
  {
    forall i, j | 0 <= i < j < |ranked|
      ensures ranked[i].group != ranked[j].group
    {
      if ranked[i].group == ranked[j].group {
        InBoth(ranked, lines, ranked[i]);
        InBoth(ranked, lines, ranked[j]);
        TwiceInside(ranked, i, j);
        OnceOnly(lines, ranked[i]);
        assert false;
      }
    }
  }

  lemma InBoth(ranked: seq<Line>, lines: seq<Line>, l: Line)
    requires multiset(ranked) == multiset(lines) && l in ranked
    ensures l in lines
  {
    assert l in multiset(ranked);
  }

  lemma TwiceInside(ranked: seq<Line>, i: nat, j: nat)
    requires i < j < |ranked| && ranked[i] == ranked[j]
    ensures multiset(ranked)[ranked[i]] >= 2
  {
    assert ranked == ranked[..j] + [ranked[j]] + ranked[j + 1..];
    assert ranked[i] == ranked[..j][i];
  }

  lemma OnceOnly(lines: seq<Line>, l: Line)
    requires DistinctGroups(lines) && l in lines
    ensures multiset(lines)[l] == 1
  {
    var k :| 0 <= k < |lines| && lines[k] == l;
    assert lines == lines[..k] + [l] + lines[k + 1..];
    assert l !in lines[..k] && l !in lines[k + 1..];
  }

  /** No choice of as many of the lines costs more in total. */
  ghost predicate CostsMost(listed: seq<Line>, lines: seq<Line>) {
    forall chosen :: |chosen| == |listed| && multiset(chosen) <= multiset(lines) ==>
      Sum(chosen, Cost) <= Sum(listed, Cost)
  }

  /** Top-K is correct for every ranking, and there is one: min(k, n) of the lines, by descending cost, none omitted
      that costs more than one listed, and no choice of as many lines costs more; distinct groups stay distinct. */
  lemma TopIsBest(lines: seq<Line>, ranked: seq<Line>, k: nat)
    requires Ranking(ranked, lines)
    ensures |Limit(ranked, k)| == (if k < |lines| then k else |lines|) && ByCost(Limit(ranked, k))
    ensures forall l, o :: l in Limit(ranked, k) && o in ranked[|Limit(ranked, k)|..] ==> l.cost >= o.cost
    ensures CostsMost(Limit(ranked, k), lines)
    ensures DistinctGroups(lines) ==> DistinctGroups(Limit(ranked, k))
    ensures Ranking(Sorted(lines), lines)
  {
    RankingExists(lines);
    RankingLength(lines, ranked);
    var n := |Limit(ranked, k)|;
    ListedBeatOmitted(ranked, n);
    NothingCostsMore(lines, ranked, n);
    GroupsOfLimit(lines, ranked, n);
    assert Limit(ranked, k) == ranked[..n];
  }

  lemma RankingExists(lines: seq<Line>)
    ensures Ranking(Sorted(lines), lines)
  {
    SortingPermutes(lines);
  }

  lemma GroupsOfLimit(lines: seq<Line>, ranked: seq<Line>, n: nat)
    requires multiset(ranked) == multiset(lines) && n <= |ranked|
    ensures DistinctGroups(lines) ==> DistinctGroups(ranked[..n])
  {
    if DistinctGroups(lines) {
      RankingKeepsGroups(ranked, lines);
    }
  }

  lemma RankingLength(lines: seq<Line>, ranked: seq<Line>)
    requires multiset(ranked) == multiset(lines)
    ensures |ranked| == |lines|
  {
    assert |multiset(ranked)| == |ranked| && |multiset(lines)| == |lines|;
  }

  lemma ListedBeatOmitted(ranked: seq<Line>, n: nat)
    requires ByCost(ranked) && n <= |ranked|
    ensures ByCost(ranked[..n]) && forall l, o :: l in ranked[..n] && o in ranked[n..] ==> l.cost >= o.cost
  {
  }

  lemma NothingCostsMore(lines: seq<Line>, ranked: seq<Line>, n: nat)
    requires Ranking(ranked, lines) && n <= |ranked|
    ensures CostsMost(ranked[..n], lines)
  {
    forall chosen | |chosen| == n && multiset(chosen) <= multiset(lines)
      ensures Sum(chosen, Cost) <= Sum(ranked[..n], Cost)
    {
      TopCostsMost(ranked, chosen);
    }
  }

  /** A group has a line exactly when one of its rows is selected. */
  lemma {:induction false} GroupsListed(rep: Report, rows: seq<AggRow>, where: AggKey -> bool, g: Group)
    ensures (exists l :: l in Grouped(rep, rows, where) && l.group == g)
       <==> (exists row :: row in rows && where(row.key) && GroupOf(rep, row.key) == g)
  {
    if rows != [] {
      GroupsListed(rep, rows[1..], where, g);
      if where(rows[0].key) {
        AddingLists(Grouped(rep, rows[1..], where), GroupOf(rep, rows[0].key), rows[0], g);
      }
      assert forall row :: row in rows <==> row == rows[0] || row in rows[1..];
    }
  }

  lemma {:induction false} AddingLists(lines: seq<Line>, h: Group, row: AggRow, g: Group)
    ensures (exists l :: l in AddTo(lines, h, row) && l.group == g) <==>
      g == h || exists l :: l in lines && l.group == g
  {
    if lines == [] {
      assert Line(h, row.input, row.output, row.cost, row.count) in AddTo(lines, h, row);
    } else {
      if lines[0].group != h {
        AddingLists(lines[1..], h, row, g);
      }
      assert forall l :: l in lines <==> l == lines[0] || l in lines[1..];
      assert AddTo(lines, h, row)[0].group == lines[0].group && AddTo(lines, h, row)[0] in AddTo(lines, h, row);
      assert forall l :: l in AddTo(lines, h, row) <==> l == AddTo(lines, h, row)[0] || l in AddTo(lines, h, row)[1..];
    }
  }

  /** The top-users and top-models reports: min(k, number of groups) different groups by descending cost, each with
      exactly its own rows' sums; a group that is left out has rows that cost no more than any group listed. */
  lemma TopReport(rep: Report, rows: seq<AggRow>, where: AggKey -> bool, ranked: seq<Line>, k: nat)
    requires Ranking(ranked, Grouped(rep, rows, where))
    ensures var listed, all := Limit(ranked, k), Grouped(rep, rows, where);
      && |listed| == (if k < |all| then k else |all|)
      && DistinctGroups(listed) && ByCost(listed) && CostsMost(listed, all)
      && (forall l, m :: l in listed ==> LineAmount(l, m) == RowSum(rows, InGroup(rep, where, l.group), m))
      && (forall row, l :: row in rows && where(row.key) && l in listed && Omitted(listed, GroupOf(rep, row.key)) ==>
            RowSum(rows, InGroup(rep, where, GroupOf(rep, row.key)), Cost) <= l.cost)
  {
    var listed, all := Limit(ranked, k), Grouped(rep, rows, where);
    TopIsBest(all, ranked, k);
    ReportsConserveUsage(rep, rows, where, Cost);
    assert ranked == listed + ranked[|listed|..];
    forall l | l in ranked
      ensures forall m :: LineAmount(l, m) == RowSum(rows, InGroup(rep, where, l.group), m)
    {
      LineOfRanking(rep, rows, where, ranked, l);
    }
    forall row, l | row in rows && where(row.key) && l in listed && Omitted(listed, GroupOf(rep, row.key))
      ensures RowSum(rows, InGroup(rep, where, GroupOf(rep, row.key)), Cost) <= l.cost
    {
      var o := RankedLine(rep, rows, where, ranked, row);
      assert o !in listed && o in ranked[|listed|..];
      assert LineAmount(o, Cost) == o.cost;
    }
  }

  ghost predicate Omitted(listed: seq<Line>, g: Group) {
    forall l :: l in listed ==> l.group != g
  }

  lemma LineOfRanking(rep: Report, rows: seq<AggRow>, where: AggKey -> bool, ranked: seq<Line>, l: Line)
    requires Ranking(ranked, Grouped(rep, rows, where)) && l in ranked
    ensures forall m :: LineAmount(l, m) == RowSum(rows, InGroup(rep, where, l.group), m)
  {
    InBoth(ranked, Grouped(rep, rows, where), l);
    forall m
      ensures LineAmount(l, m) == RowSum(rows, InGroup(rep, where, l.group), m)
    {
      LinesAreGroupSums(rep, rows, where, l.group, m);
    }
  }

  lemma RankedLine(rep: Report, rows: seq<AggRow>, where: AggKey -> bool, ranked: seq<Line>,
                   row: AggRow) returns (o: Line)
    requires Ranking(ranked, Grouped(rep, rows, where)) && row in rows && where(row.key)
    ensures o in ranked && o.group == GroupOf(rep, row.key)
  {
    GroupsListed(rep, rows, where, GroupOf(rep, row.key));
    o :| o in Grouped(rep, rows, where) && o.group == GroupOf(rep, row.key);
    InBoth(Grouped(rep, rows, where), ranked, o);
  }

  // ---- JOIN users ----

  /** The rows whose user exists. */
  function Joined(rows: seq<AggRow>, users: set<Id>): seq<AggRow> {
    if rows == [] then []
    else if rows[0].key.user in users then [rows[0]] + Joined(rows[1..], users)
    else Joined(rows[1..], users)
  }

  /** The join keeps every row exactly when the foreign key holds. */
  lemma {:induction false} JoinKeepsAllRows(rows: seq<AggRow>, users: set<Id>)
    ensures |Joined(rows, users)| <= |rows|
    ensures Joined(rows, users) == rows <==> forall row :: row in rows ==> row.key.user in users
  {
    if rows != [] {
      JoinKeepsAllRows(rows[1..], users);
      assert rows == [rows[0]] + rows[1..];
      if rows[0].key.user in users {
        assert ([rows[0]] + Joined(rows[1..], users))[1..] == Joined(rows[1..], users);
      } else {
        assert |Joined(rows, users)| < |rows|;
      }
    }
  }

  // ---- The reports in columns ----

  /** The rows of one org and range that belong to a group: of the same UTC day, of the user, or of the model and
      provider. */
  predicate InReport(row: AggRow, org: Id, from: int, to: int, g: Group) {
    && row.key.org == org && from <= row.key.start && row.key.start < to
    && match g
       case DayGroup(start) => start <= row.key.start < start + 86_400_000_000_000
       case UserGroup(user) => row.key.user == user
       case ModelGroup(model, provider) => row.key.model == model && row.key.provider == provider
  }

  /** The kind of group each report has; days begin at midnight UTC. */
  predicate GroupFits(rep: Report, g: Group) {
    match rep
    case Daily => g.DayGroup? && g.start % 86_400_000_000_000 == 0
    case TopUsers => g.UserGroup?
    case TopModels => g.ModelGroup?
  }

  function ColumnIn(org: Id, from: int, to: int, g: Group, column: AggRow -> int): AggRow -> int {
    (row: AggRow) => if InReport(row, org, from, to, g) then column(row) else 0
  }

  /** Column by column: every line of a report carries the sums of the columns over the rows of its org, range and
      group. */
  lemma ReportsInColumns(rep: Report, rows: seq<AggRow>, org: Id, from: int, to: int, l: Line)
    requires l in Grouped(rep, rows, InRange(org, from, to))
    ensures GroupFits(rep, l.group)
    ensures l.input == SumRows(rows, ColumnIn(org, from, to, l.group, (row: AggRow) => row.input))
    ensures l.output == SumRows(rows, ColumnIn(org, from, to, l.group, (row: AggRow) => row.output))
    ensures l.cost == SumRows(rows, ColumnIn(org, from, to, l.group, (row: AggRow) => row.cost))
    ensures l.requests == SumRows(rows, ColumnIn(org, from, to, l.group, (row: AggRow) => row.count))
  {
    LineGroupFits(rep, rows, org, from, to, l);
    LineColumn(rep, rows, org, from, to, l, Input, ColumnIn(org, from, to, l.group, (row: AggRow) => row.input));
    LineColumn(rep, rows, org, from, to, l, Output, ColumnIn(org, from, to, l.group, (row: AggRow) => row.output));
    LineColumn(rep, rows, org, from, to, l, Cost, ColumnIn(org, from, to, l.group, (row: AggRow) => row.cost));
    LineColumn(rep, rows, org, from, to, l, Requests, ColumnIn(org, from, to, l.group, (row: AggRow) => row.count));
  }

  lemma LineGroupFits(rep: Report, rows: seq<AggRow>, org: Id, from: int, to: int, l: Line)
    requires l in Grouped(rep, rows, InRange(org, from, to))
    ensures GroupFits(rep, l.group)
  {
    GroupsListed(rep, rows, InRange(org, from, to), l.group);
  }

  lemma LineColumn(rep: Report, rows: seq<AggRow>, org: Id, from: int, to: int, l: Line, m: Measure, f: AggRow -> int)
    requires l in Grouped(rep, rows, InRange(org, from, to)) && GroupFits(rep, l.group)
    requires forall row :: f(row) == if InReport(row, org, from, to, l.group) then RowAmount(row, m) else 0
    ensures LineAmount(l, m) == SumRows(rows, f)
  {
    var where := InGroup(rep, InRange(org, from, to), l.group);
    LinesAreGroupSums(rep, rows, InRange(org, from, to), l.group, m);
    forall row: AggRow
      ensures where(row.key) <==> InReport(row, org, from, to, l.group)
    {
      SameGroup(rep, row, l.group);
    }
    RowSumInColumns(rows, where, m, f);
  }

  lemma SameGroup(rep: Report, row: AggRow, g: Group)
    requires GroupFits(rep, g)
    ensures GroupOf(rep, row.key) == g <==>
      match g
      case DayGroup(start) => start <= row.key.start < start + 86_400_000_000_000
      case UserGroup(user) => row.key.user == user
      case ModelGroup(model, provider) => row.key.model == model && row.key.provider == provider
  {
    if g.DayGroup? && g.start <= row.key.start < g.start + 86_400_000_000_000 {
      StartIsUnique(Day, row.key.start, g.start);
    }
  }
}
