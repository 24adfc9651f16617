/** The database as an object updated in place, and the middleware that runs on it. */
module Store {
  import opened Core
  import opened Clock
  import opened Tables
  import opened Policies
  import opened Admission
  import opened Keys
  import opened Pricing
  import Engine
  import Meter

  /** The upsert passes over a row that does not conflict with k. */
  lemma PassRow(rows: seq<AggRow>, k: AggKey, c: Charge, i: nat)
    requires i < |rows| && rows[i].key != k
    ensures rows[..i] + Upsert(rows[i..], k, c) == rows[..i + 1] + Upsert(rows[i + 1..], k, c)
  {
    assert rows[i..][1..] == rows[i + 1..];
    assert rows[..i + 1] == rows[..i] + [rows[i]];
  }

  /** At the first row that conflicts it adds to that row; after the last one it appends. */
  lemma StopAtRow(rows: seq<AggRow>, k: AggKey, c: Charge, i: nat)
    requires i <= |rows| && (i < |rows| ==> rows[i].key == k)
    ensures rows[..i] + Upsert(rows[i..], k, c)
         == if i < |rows| then rows[i := Merge(rows[i], c)] else rows + [FreshRow(k, c)]
  {
    if i < |rows| {
      assert rows[i..][1..] == rows[i + 1..];
      assert rows[i := Merge(rows[i], c)] == rows[..i] + [Merge(rows[i], c)] + rows[i + 1..];
    }
  }

  /** Looks for the conflicting row, then adds to it or appends a new row. */
  method UpsertRow(rows: seq<AggRow>, k: AggKey, c: Charge) returns (rows': seq<AggRow>)
    ensures rows' == Upsert(rows, k, c)
  {
    var i := 0;
    while i < |rows| && rows[i].key != k
      invariant i <= |rows|
      invariant Upsert(rows, k, c) == rows[..i] + Upsert(rows[i..], k, c)
    {
      PassRow(rows, k, c, i);
      i := i + 1;
    }
    StopAtRow(rows, k, c, i);
    if i < |rows| {
      rows' := rows[i := Merge(rows[i], c)];
    } else {
      rows' := rows + [FreshRow(k, c)];
    }
  }

  /** Which of the three accounting writes succeed, and when each runs. */
  datatype Writes = Writes(event: bool, hour: bool, day: bool, eventAt: int, hourAt: int, dayAt: int)

  class Database {
    var policies: seq<PolicyRow>
    var keys: seq<KeyRow>
    var events: seq<Engine.EventRow>
    var hour: seq<AggRow>
    var day: seq<AggRow>

    constructor ()
      ensures policies == [] && keys == [] && events == [] && hour == [] && day == []
    {
      policies, keys, events, hour, day := [], [], [], [], [];
    }

    // ---- Statements ----

    method InsertUsageEvent(who: Identity, c: Charge, at: int, ok: bool)
      modifies this`events
      ensures events == old(events) + if ok then [Engine.EventRow(who, c, at)] else []
    {
      if ok {
        events := events + [Engine.EventRow(who, c, at)];
      }
    }

    method UpsertUsageAggHour(who: Identity, c: Charge, at: int, ok: bool)
      modifies this`hour
      ensures hour == if ok then Upsert(old(hour), KeyFor(who, c, WindowStart(Hour, at)), c) else old(hour)
    {
      if ok {
        hour := UpsertRow(hour, KeyFor(who, c, WindowStart(Hour, at)), c);
      }
    }

    method UpsertUsageAggDay(who: Identity, c: Charge, at: int, ok: bool)
      modifies this`day
      ensures day == if ok then Upsert(old(day), KeyFor(who, c, WindowStart(Day, at)), c) else old(day)
    {
      if ok {
        day := UpsertRow(day, KeyFor(who, c, WindowStart(Day, at)), c);
      }
    }

    /** The query may fail; the row is the one a unique key determines. */
    method GetVirtualKeyByHash(hash: string, ok: bool) returns (found: Option<KeyRow>)
      ensures found == if ok then LookupByHash(keys, hash) else None
    {
      found := None;
      if !ok {
        return;
      }
      var i := 0;
      while i < |keys| && found.None?
        invariant i <= |keys|
        invariant found.None? ==> LookupByHash(keys, hash) == LookupByHash(keys[i..], hash)
        invariant found.Some? ==> LookupByHash(keys, hash) == found
      {
        if keys[i].hash == hash {
          found := Some(keys[i]);
        }
        i := i + 1;
      }
    }

    method UpdateVirtualKeyLastUsed(id: Id, org: Id, at: int, ok: bool)
      modifies this`keys
      ensures keys == if ok then Touch(old(keys), id, org, at) else old(keys)
    {
      if ok {
        keys := Touch(keys, id, org, at);
      }
    }

    // ---- Middleware ----

    /** VirtualKeyAuth: an active key's identity; unknown, revoked and failed lookups are refused alike. The
        last-used update touches the authenticated key only, and its failure changes nothing for the request. */
    method VirtualKeyAuth(hash: string, lookupOk: bool, touchOk: bool, at: int) returns (who: Option<Identity>)
      modifies this`keys
      ensures who == if lookupOk then Authenticate(old(keys), hash) else None
      ensures keys == if who.Some? && touchOk then Touch(old(keys), who.value.key, who.value.org, at) else old(keys)
    {
      var keyRow := GetVirtualKeyByHash(hash, lookupOk);
      if keyRow.None? {
        return None;
      }
      if !keyRow.value.status.Active? {
        return None;
      }
      UpdateVirtualKeyLastUsed(keyRow.value.id, keyRow.value.org, at, touchOk);
      who := Some(IdentityOf(keyRow.value));
    }

    /** BudgetAdmission with its two reader goroutines: whatever order their steps run in, the outcome is the one of
        Admit, and nothing is written. */
    method BudgetAdmission(who: Identity, h: Health, a: Attempt) returns (outcome: Outcome)
      ensures outcome == Admit(policies, hour, day, who, h, a)
    {
      var policy := GetBudgetPolicy(policies, who);
      if !h.policy || policy.None? {
        return Pass;
      }
      var hasTeam := who.team.Some?;
      var user := UserParty(who.org, who.user);
      var team := if hasTeam then TeamParty(who.org, who.team.value) else user;
      var userHour, userDay, teamHour, teamDay := Use(0, 0), Use(0, 0), Use(0, 0), Use(0, 0);
      var userErr, teamErr := false, false;
      var userLeft, teamLeft := 2, if hasTeam then 2 else 0;
      while
        invariant 0 <= userLeft <= 2 && 0 <= teamLeft <= 2 && (teamLeft > 0 ==> hasTeam)
        invariant userLeft <= 1 && !userErr ==>
          h.userHour && userHour == WindowUsage(hour, user, WindowStart(Hour, a.userHour))
        invariant userLeft == 0 && !userErr ==>
          h.userDay && userDay == WindowUsage(day, user, WindowStart(Day, a.userDay))
        invariant userErr ==> userLeft == 0 && (!h.userHour || !h.userDay)
        invariant hasTeam && teamLeft <= 1 && !teamErr ==>
                    h.teamHour && teamHour == WindowUsage(hour, team, WindowStart(Hour, a.teamHour))
        invariant hasTeam && teamLeft == 0 && !teamErr ==>
                    h.teamDay && teamDay == WindowUsage(day, team, WindowStart(Day, a.teamDay))
        invariant teamErr ==> hasTeam && teamLeft == 0 && (!h.teamHour || !h.teamDay)
        decreases userLeft + teamLeft
      {
        case userLeft == 2 =>
          if h.userHour {
            userHour, userLeft := WindowUsage(hour, user, WindowStart(Hour, a.userHour)), 1;
          } else {
            userErr, userLeft := true, 0;
          }
        case userLeft == 1 =>
          if h.userDay {
            userDay := WindowUsage(day, user, WindowStart(Day, a.userDay));
          } else {
            userErr := true;
          }
          userLeft := 0;
        case teamLeft == 2 =>
          if h.teamHour {
            teamHour, teamLeft := WindowUsage(hour, team, WindowStart(Hour, a.teamHour)), 1;
          } else {
            teamErr, teamLeft := true, 0;
          }
        case teamLeft == 1 =>
          if h.teamDay {
            teamDay := WindowUsage(day, team, WindowStart(Day, a.teamDay));
          } else {
            teamErr := true;
          }
          teamLeft := 0;
      }
      if userErr || teamErr {
        return Pass;
      }

      var limits := policy.value.limits;
      if limits.costHour.Some? {
        if userHour.cost >= limits.costHour.value || (hasTeam && teamHour.cost >= limits.costHour.value) {
          return Deny(Hour, RetryAfterSeconds(a.decided, Hour));
        }
      }
      if limits.costDay.Some? {
        if userDay.cost >= limits.costDay.value || (hasTeam && teamDay.cost >= limits.costDay.value) {
          return Deny(Day, RetryAfterSeconds(a.decided, Day));
        }
      }
      if limits.tokensHour.Some? {
        if userHour.tokens >= limits.tokensHour.value || (hasTeam && teamHour.tokens >= limits.tokensHour.value) {
          return Deny(Hour, RetryAfterSeconds(a.decided, Hour));
        }
      }
      if limits.tokensDay.Some? {
        if userDay.tokens >= limits.tokensDay.value || (hasTeam && teamDay.tokens >= limits.tokensDay.value) {
          return Deny(Day, RetryAfterSeconds(a.decided, Day));
        }
      }
      outcome := Pass;
    }

    /** recordUsage: three independent writes, each of which may be dropped without stopping the next. */
    method RecordUsage(who: Identity, c: Charge, w: Writes)
      modifies this`events, this`hour, this`day
      ensures events == old(events) + if w.event then [Engine.EventRow(who, c, w.eventAt)] else []
      ensures hour == if w.hour then Upsert(old(hour), KeyFor(who, c, WindowStart(Hour, w.hourAt)), c) else old(hour)
      ensures day == if w.day then Upsert(old(day), KeyFor(who, c, WindowStart(Day, w.dayAt)), c) else old(day)
    {
      InsertUsageEvent(who, c, w.eventAt, w.event);
      UpsertUsageAggHour(who, c, w.hourAt, w.hour);
      UpsertUsageAggDay(who, c, w.dayAt, w.day);
    }

    /** PostChargeAccounting after the stream: no tokens, no write; otherwise one charge at the configured prices. */
    method PostChargeAccounting(who: Identity, u: Meter.Usage, pricing: PriceTable, w: Writes)
      modifies this`events, this`hour, this`day
      ensures u.inputTokens == 0 && u.outputTokens == 0 ==>
        events == old(events) && hour == old(hour) && day == old(day)
      ensures u.inputTokens != 0 || u.outputTokens != 0 ==>
        var c := Charge(u.provider, u.model, u.inputTokens, u.outputTokens,
                        ComputeCost(u.model, u.inputTokens, u.outputTokens, pricing));
        && events == old(events) + (if w.event then [Engine.EventRow(who, c, w.eventAt)] else [])
        && hour == (if w.hour then Upsert(old(hour), KeyFor(who, c, WindowStart(Hour, w.hourAt)), c) else old(hour))
        && day == (if w.day then Upsert(old(day), KeyFor(who, c, WindowStart(Day, w.dayAt)), c) else old(day))
    {
      if u.inputTokens == 0 && u.outputTokens == 0 {
        return;
      }
      var costUSD := ComputeCost(u.model, u.inputTokens, u.outputTokens, pricing);
      RecordUsage(who, Charge(u.provider, u.model, u.inputTokens, u.outputTokens, costUSD), w);
    }
  }
}
