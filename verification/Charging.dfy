/** What one request of the machine is charged, against the accounting handler and in the columns of the tables. */
module Charging {
  import opened Core
  import opened Clock
  import opened Tables
  import opened Pricing
  import opened Store
  import Engine

  /** One request of the machine from the end of its stream to the end of its accounting, with the clock moving on
      between the steps. */
  function Accounted(s: Engine.State, i: nat, provider: string, model: string, input: Int32, output: Int32, w: Writes):
    Engine.State
  {
    var finished := Engine.Exec(s, Engine.FinishStream(i, provider, model, input, output));
    var s0 := Engine.Exec(finished, Engine.Tick(w.eventAt));
    var s1 := Engine.Exec(Engine.Exec(s0, Engine.WriteEvent(i, w.event)), Engine.Tick(w.hourAt));
    var s2 := Engine.Exec(Engine.Exec(s1, Engine.WriteHour(i, w.hour)), Engine.Tick(w.dayAt));
    Engine.Exec(s2, Engine.WriteDay(i, w.day))
  }

  /** It leaves the tables that PostChargeAccounting leaves: untouched without tokens, otherwise with one charge of all
      of them at the configured prices. */
  lemma MachineRecordsLikeTheHandler(s: Engine.State, i: nat, provider: string, model: string, input: Int32,
                                     output: Int32, w: Writes)
    requires i < |s.reqs| && s.reqs[i].phase.Streaming?
    requires s.now <= w.eventAt <= w.hourAt <= w.dayAt
    ensures var end := Accounted(s, i, provider, model, input, output, w);
      && |end.reqs| == |s.reqs| && end.reqs[i].phase.Done?
      && (input == 0 && output == 0 ==> end.events == s.events && end.hour == s.hour && end.day == s.day)
      && (input != 0 || output != 0 ==>
            var who, c := s.reqs[i].who,
                Charge(provider, model, input, output, ComputeCost(model, input, output, s.pricing));
            && end.events == s.events + (if w.event then [Engine.EventRow(who, c, w.eventAt)] else [])
            && end.hour == (if w.hour then Upsert(s.hour, KeyFor(who, c, WindowStart(Hour, w.hourAt)), c) else s.hour)
            && end.day == (if w.day then Upsert(s.day, KeyFor(who, c, WindowStart(Day, w.dayAt)), c) else s.day))
  {
    var s0 := FinishThenTick(s, i, provider, model, input, output, w);
    if input != 0 || output != 0 {
      var s1 := EventThenTick(s0, i, w);
      var s2 := HourThenTick(s1, i, w);
      DayLast(s2, i, w);
    } else {
      NothingToWrite(s0, i, w);
    }
  }

  lemma FinishThenTick(s: Engine.State, i: nat, provider: string, model: string, input: Int32, output: Int32, w: Writes)
    returns (s': Engine.State)
    requires i < |s.reqs| && s.reqs[i].phase.Streaming? && s.now <= w.eventAt
    ensures s'
         == Engine.Exec(Engine.Exec(s, Engine.FinishStream(i, provider, model, input, output)), Engine.Tick(w.eventAt))
    ensures s'.now == w.eventAt && s'.events == s.events && s'.hour == s.hour && s'.day == s.day
    ensures |s'.reqs| == |s.reqs|
    ensures s'.reqs[i].who == s.reqs[i].who
    ensures input == 0 && output == 0 ==> s'.reqs[i].phase.Done?
    ensures input != 0 || output != 0 ==>
      && s'.reqs[i].phase.WritingEvent?
      && s'.reqs[i].charge == Some(Charge(provider, model, input, output, ComputeCost(model, input, output, s.pricing)))
  {
    s' := Engine.Exec(Engine.Exec(s, Engine.FinishStream(i, provider, model, input, output)), Engine.Tick(w.eventAt));
  }

  lemma DayLast(s: Engine.State, i: nat, w: Writes)
    requires i < |s.reqs| && s.reqs[i].phase.WritingDay? && s.reqs[i].charge.Some? && w.dayAt == s.now
    ensures var r, end := s.reqs[i], Engine.Exec(s, Engine.WriteDay(i, w.day));
      && end.events == s.events && end.hour == s.hour && |end.reqs| == |s.reqs| && end.reqs[i].phase.Done?
      && end.day ==
         if w.day then Upsert(s.day, KeyFor(r.who, r.charge.value, WindowStart(Day, w.dayAt)), r.charge.value)
         else s.day
  {
  }

  lemma EventThenTick(s: Engine.State, i: nat, w: Writes) returns (s': Engine.State)
    requires i < |s.reqs| && s.reqs[i].phase.WritingEvent? && s.reqs[i].charge.Some? && w.eventAt == s.now <= w.hourAt
    ensures s' == Engine.Exec(Engine.Exec(s, Engine.WriteEvent(i, w.event)), Engine.Tick(w.hourAt))
    ensures var r := s.reqs[i];
      && s'.now == w.hourAt && s'.hour == s.hour && s'.day == s.day && |s'.reqs| == |s.reqs|
      && s'.reqs[i].phase.WritingHour? && s'.reqs[i].who == r.who && s'.reqs[i].charge == r.charge
      && s'.events == s.events + if w.event then [Engine.EventRow(r.who, r.charge.value, w.eventAt)] else []
  {
    s' := Engine.Exec(Engine.Exec(s, Engine.WriteEvent(i, w.event)), Engine.Tick(w.hourAt));
  }

  lemma HourThenTick(s: Engine.State, i: nat, w: Writes) returns (s': Engine.State)
    requires i < |s.reqs| && s.reqs[i].phase.WritingHour? && s.reqs[i].charge.Some? && w.hourAt == s.now <= w.dayAt
    ensures s' == Engine.Exec(Engine.Exec(s, Engine.WriteHour(i, w.hour)), Engine.Tick(w.dayAt))
    ensures var r := s.reqs[i];
      && s'.now == w.dayAt && s'.events == s.events && s'.day == s.day && |s'.reqs| == |s.reqs|
      && s'.reqs[i].phase.WritingDay? && s'.reqs[i].who == r.who && s'.reqs[i].charge == r.charge
      && s'.hour ==
         if w.hour then Upsert(s.hour, KeyFor(r.who, r.charge.value, WindowStart(Hour, w.hourAt)), r.charge.value)
         else s.hour
  {
    s' := Engine.Exec(Engine.Exec(s, Engine.WriteHour(i, w.hour)), Engine.Tick(w.dayAt));
  }

  lemma NothingToWrite(s: Engine.State, i: nat, w: Writes)
    requires i < |s.reqs| && s.reqs[i].phase.Done?
    ensures var s1 := Engine.Exec(Engine.Exec(s, Engine.WriteEvent(i, w.event)), Engine.Tick(w.hourAt));
      var s2 := Engine.Exec(Engine.Exec(s1, Engine.WriteHour(i, w.hour)), Engine.Tick(w.dayAt));
      var end := Engine.Exec(s2, Engine.WriteDay(i, w.day));
      && end.events == s.events && end.hour == s.hour && end.day == s.day
      && |end.reqs| == |s.reqs| && end.reqs[i].phase.Done?
  {
    var s1 := Idle(s, i, Engine.WriteEvent(i, w.event), w.hourAt);
    var s2 := Idle(s1, i, Engine.WriteHour(i, w.hour), w.dayAt);
  }

  /** A request that is done takes no step. */
  lemma Idle(s: Engine.State, i: nat, a: Engine.Action, at: int) returns (s': Engine.State)
    requires i < |s.reqs| && s.reqs[i].phase.Done? && (a.WriteEvent? || a.WriteHour? || a.WriteDay?) && a.i == i
    ensures s' == Engine.Exec(Engine.Exec(s, a), Engine.Tick(at))
    ensures s'.events == s.events && s'.hour == s.hour && s'.day == s.day && s'.reqs == s.reqs
  {
    s' := Engine.Exec(Engine.Exec(s, a), Engine.Tick(at));
  }

  // ---- What one request adds ----

  function Selected(where: AggKey -> bool, column: AggRow -> int): AggRow -> int {
    (row: AggRow) => if where(row.key) then column(row) else 0
  }

  /** The four columns of the selected rows have grown by this much. */
  ghost predicate Grown(before: seq<AggRow>, after: seq<AggRow>, where: AggKey -> bool, input: int, output: int,
                        cost: int,
                        count: int)
  {
    && SumRows(after, Selected(where, (row: AggRow) => row.input))
       == SumRows(before, Selected(where, (row: AggRow) => row.input)) + input
    && SumRows(after, Selected(where, (row: AggRow) => row.output))
       == SumRows(before, Selected(where, (row: AggRow) => row.output)) + output
    && SumRows(after, Selected(where, (row: AggRow) => row.cost))
       == SumRows(before, Selected(where, (row: AggRow) => row.cost)) + cost
    && SumRows(after, Selected(where, (row: AggRow) => row.count))
       == SumRows(before, Selected(where, (row: AggRow) => row.count)) + count
  }

  /** They have grown by one request of this key if its row is among them, and not at all otherwise. */
  ghost predicate GrownBy(before: seq<AggRow>, after: seq<AggRow>, where: AggKey -> bool, k: AggKey, input: int,
                          output: int, cost: int)
  {
    if where(k) then Grown(before, after, where, input, output, cost, 1) else Grown(before, after, where, 0, 0, 0, 0)
  }

  /** Every sum over the hour table that covers this org, user, team, provider, model and hour has grown by all the
      input tokens, all the output tokens, the cost and one request, and every other sum is the same; likewise for the
      day; and one event carries the same. */
  ghost predicate ChargedBy(s: Engine.State, end: Engine.State, who: Identity, c: Charge, w: Writes,
                            where: AggKey -> bool) {
    var hourKey := AggKey(who.org, who.user, who.team, c.provider, c.model, WindowStart(Hour, w.hourAt));
    var dayKey := AggKey(who.org, who.user, who.team, c.provider, c.model, WindowStart(Day, w.dayAt));
    && GrownBy(s.hour, end.hour, where, hourKey, c.input, c.output, c.cost)
    && GrownBy(s.day, end.day, where, dayKey, c.input, c.output, c.cost)
    && end.events == s.events + [Engine.EventRow(who, c, w.eventAt)]
  }

  /** A model at whole cents is charged in full: all input and all output tokens, each at its own price. */
  lemma ChargedInFull(s: Engine.State, i: nat, provider: string, model: string, input: Int32, output: Int32, w: Writes,
                      cents: (int, int), where: AggKey -> bool)
    requires i < |s.reqs| && s.reqs[i].phase.Streaming? && (input != 0 || output != 0)
    requires s.now <= w.eventAt <= w.hourAt <= w.dayAt && w.event && w.hour && w.day
    requires model in s.pricing && 100.0 * s.pricing[model].input == cents.0 as real
    requires 100.0 * s.pricing[model].output == cents.1 as real
    ensures ChargedBy(s, Accounted(s, i, provider, model, input, output, w), s.reqs[i].who,
                      Charge(provider, model, input, output, input * cents.0 + output * cents.1), w, where)
  {
    CostOfCents(s.pricing[model], cents, input, output);
    ChargedAtCost(s, i, provider, model, input, output, w, where);
  }

  lemma ChargedAtCost(s: Engine.State, i: nat, provider: string, model: string, input: Int32, output: Int32, w: Writes,
                      where: AggKey -> bool)
    requires i < |s.reqs| && s.reqs[i].phase.Streaming? && (input != 0 || output != 0)
    requires s.now <= w.eventAt <= w.hourAt <= w.dayAt && w.event && w.hour && w.day
    ensures ChargedBy(s, Accounted(s, i, provider, model, input, output, w), s.reqs[i].who,
                      Charge(provider, model, input, output, ComputeCost(model, input, output, s.pricing)), w, where)
  {
    MachineRecordsLikeTheHandler(s, i, provider, model, input, output, w);
    UpsertsCharge(s, Accounted(s, i, provider, model, input, output, w), s.reqs[i].who,
                  Charge(provider, model, input, output, ComputeCost(model, input, output, s.pricing)), w, where);
  }

  lemma UpsertsCharge(s: Engine.State, end: Engine.State, who: Identity, c: Charge, w: Writes, where: AggKey -> bool)
    requires end.events == s.events + [Engine.EventRow(who, c, w.eventAt)]
    requires end.hour == Upsert(s.hour, KeyFor(who, c, WindowStart(Hour, w.hourAt)), c)
    requires end.day == Upsert(s.day, KeyFor(who, c, WindowStart(Day, w.dayAt)), c)
    ensures ChargedBy(s, end, who, c, w, where)
  {
    UpsertInColumns(s.hour, end.hour, who, c, WindowStart(Hour, w.hourAt), where);
    UpsertInColumns(s.day, end.day, who, c, WindowStart(Day, w.dayAt), where);
  }

  lemma UpsertInColumns(rows: seq<AggRow>, after: seq<AggRow>, who: Identity, c: Charge, start: int,
                        where: AggKey -> bool)
    requires after == Upsert(rows, KeyFor(who, c, start), c)
    ensures GrownBy(rows, after, where, AggKey(who.org, who.user, who.team, c.provider, c.model, start),
                    c.input, c.output, c.cost)
  {
    var k := KeyFor(who, c, start);
    UpsertInColumn(rows, k, c, where, Input, Selected(where, (row: AggRow) => row.input));
    UpsertInColumn(rows, k, c, where, Output, Selected(where, (row: AggRow) => row.output));
    UpsertInColumn(rows, k, c, where, Cost, Selected(where, (row: AggRow) => row.cost));
    UpsertInColumn(rows, k, c, where, Requests, Selected(where, (row: AggRow) => row.count));
  }

  lemma UpsertInColumn(rows: seq<AggRow>, k: AggKey, c: Charge, where: AggKey -> bool, m: Measure, f: AggRow -> int)
    requires forall row :: f(row) == if where(row.key) then RowAmount(row, m) else 0
    ensures SumRows(Upsert(rows, k, c), f) == SumRows(rows, f) + if where(k) then ChargeAmount(c, m) else 0
  {
    UpsertAddsOnce(rows, k, c, where, m);
    RowSumInColumns(rows, where, m, f);
    RowSumInColumns(Upsert(rows, k, c), where, m, f);
  }

  /** A model without a price costs nothing. */
  lemma UnpricedIsFree(s: Engine.State, i: nat, provider: string, model: string, input: Int32, output: Int32, w: Writes)
    requires i < |s.reqs| && s.reqs[i].phase.Streaming? && (input != 0 || output != 0)
    requires s.now <= w.eventAt <= w.hourAt <= w.dayAt && w.event && model !in s.pricing
    ensures Accounted(s, i, provider, model, input, output, w).events
         == s.events + [Engine.EventRow(s.reqs[i].who, Charge(provider, model, input, output, 0), w.eventAt)]
  {
    MachineRecordsLikeTheHandler(s, i, provider, model, input, output, w);
  }
}
