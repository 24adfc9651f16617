/** Who is charged: usage_events against requests, requests against keys, and the life of a key in every run. */
module Attribution {
  import opened Core
  import opened Tables
  import opened Keys
  import opened Engine

  /** Any sum over usage_events of a quantity of the row. */
  function EventTotal(events: seq<EventRow>, f: (Identity, Charge) -> int): int {
    if events == [] then 0 else f(events[0].who, events[0].charge) + EventTotal(events[1..], f)
  }

  lemma {:induction false} EventTotalAppend(events: seq<EventRow>, e: EventRow, f: (Identity, Charge) -> int)
    ensures EventTotal(events + [e], f) == EventTotal(events, f) + f(e.who, e.charge)
  {
    if events == [] {
      assert (events + [e])[1..] == [];
    } else {
      assert (events + [e])[1..] == events[1..] + [e];
      EventTotalAppend(events[1..], e, f);
    }
  }

  /** The same quantity of a request whose event was written. */
  function Evented(f: (Identity, Charge) -> int): Request -> int {
    (r: Request) => if r.charge.Some? && r.event.At? then f(r.who, r.charge.value) else 0
  }

  /** The step inserts the request's event. */
  predicate Inserts(r: Request, a: Action) {
    r.charge.Some? && a.WriteEvent? && a.ok && r.phase.WritingEvent?
  }

  lemma EventsAfterStep(s: State, r: Request, a: Action, f: (Identity, Charge) -> int)
    requires WellPhased(r)
    ensures EventTotal(StepTables(s, r, a).events, f)
         == EventTotal(s.events, f) + if Inserts(r, a) then f(r.who, r.charge.value) else 0
    ensures Evented(f)(StepRequest(s, r, a)) == Evented(f)(r) + if Inserts(r, a) then f(r.who, r.charge.value) else 0
  {
    if r.charge.Some? {
      EventTotalAppend(s.events, EventRow(r.who, r.charge.value, s.now), f);
    }
  }

  lemma RequestStepKeepsEvents(s: State, i: nat, a: Action, f: (Identity, Charge) -> int)
    requires Subject(a) == Some(i) && i < |s.reqs| && WellPhased(s.reqs[i])
    requires EventTotal(s.events, f) == Total(s.reqs, Evented(f))
    ensures EventTotal(Exec(s, a).events, f) == Total(Exec(s, a).reqs, Evented(f))
  {
    TotalUpdate(s.reqs, i, StepRequest(s, s.reqs[i], a), Evented(f));
    EventsAfterStep(s, s.reqs[i], a, f);
  }

  /** Each request that used tokens has exactly one event unless its insert failed: whatever is summed over
      usage_events, the requests whose insert succeeded give the same sum. */
  lemma {:induction false} EventsAgreeWithLedger(init: State, acts: seq<Action>, f: (Identity, Charge) -> int)
    requires Init(init)
    ensures EventTotal(Run(init, acts).events, f) == Total(Run(init, acts).reqs, Evented(f))
  {
    if acts != [] {
      var s, a := Run(init, acts[..|acts| - 1]), acts[|acts| - 1];
      EventsAgreeWithLedger(init, acts[..|acts| - 1], f);
      RunKeepsInv(init, acts[..|acts| - 1]);
      StepKeepsEvents(s, a, f);
    }
  }

  lemma StepKeepsEvents(s: State, a: Action, f: (Identity, Charge) -> int)
    requires Inv(s) && EventTotal(s.events, f) == Total(s.reqs, Evented(f))
    ensures EventTotal(Exec(s, a).events, f) == Total(Exec(s, a).reqs, Evented(f))
  {
    if Subject(a).None? {
      if |Exec(s, a).reqs| > |s.reqs| {
        TotalAppend(s.reqs, Exec(s, a).reqs[|s.reqs|], Evented(f));
      }
    } else if Subject(a).value < |s.reqs| {
      RequestStepKeepsEvents(s, Subject(a).value, a, f);
    }
  }

  /** A row that is active, has this hash and belongs to this identity. */
  ghost predicate HasActiveKey(rows: seq<KeyRow>, hash: string, who: Identity) {
    exists row :: row in rows && row.hash == hash && row.status.Active? && IdentityOf(row) == who
  }

  /** Action n let request i in, and at that instant an active row with its hash had this identity. */
  ghost predicate AuthenticatedAt(init: State, acts: seq<Action>, n: nat, i: nat, who: Identity) {
    && n < |acts| && acts[n].Arrive? && acts[n].ok
    && |Run(init, acts[..n]).reqs| == i
    && HasActiveKey(Run(init, acts[..n]).keys, acts[n].hash, who)
  }

  /** Action w inserted event e for request i, which still stands for it. */
  ghost predicate InsertedAt(init: State, acts: seq<Action>, w: nat, i: nat, e: nat) {
    && w < |acts| && acts[w] == WriteEvent(i, true)
    && var s, t := Run(init, acts[..w]), Run(init, acts);
       && |s.events| == e < |t.events| && i < |s.reqs| && i < |t.reqs|
       && s.reqs[i].phase.WritingEvent? && s.reqs[i].who == t.reqs[i].who == t.events[e].who
       && s.reqs[i].charge == t.reqs[i].charge == Some(t.events[e].charge)
       && t.reqs[i].event == Landing.At(s.now) && t.events[e].createdAt == s.now
  }

  /** Steps keep a request's identity, and what it has charged and written. */
  lemma RequestsPersist(s: State, a: Action, i: nat)
    requires i < |s.reqs| && WellPhased(s.reqs[i])
    ensures i < |Exec(s, a).reqs| && Exec(s, a).reqs[i].who == s.reqs[i].who
    ensures s.reqs[i].event.At? ==>
      Exec(s, a).reqs[i].event == s.reqs[i].event && Exec(s, a).reqs[i].charge == s.reqs[i].charge
  {
  }

  /** Every request was let in by one arrival, while an active key with its hash had its identity. */
  lemma {:induction false} RequestsAreAuthentic(init: State, acts: seq<Action>, i: nat) returns (n: nat)
    requires Init(init) && i < |Run(init, acts).reqs|
    ensures AuthenticatedAt(init, acts, n, i, Run(init, acts).reqs[i].who)
  {
    var before, a := acts[..|acts| - 1], acts[|acts| - 1];
    var s := Run(init, before);
    RunKeepsInv(init, before);
    if i < |s.reqs| {
      RequestsPersist(s, a, i);
      n := RequestsAreAuthentic(init, before, i);
      PrefixOfRun(acts, n);
    } else {
      n := |acts| - 1;
    }
  }

  /** Every event was inserted by one write of one request. */
  lemma {:induction false} EventsHaveWriters(init: State, acts: seq<Action>, e: nat) returns (w: nat, i: nat)
    requires Init(init) && e < |Run(init, acts).events|
    ensures InsertedAt(init, acts, w, i, e)
  {
    var before, a := acts[..|acts| - 1], acts[|acts| - 1];
    var s := Run(init, before);
    RunKeepsInv(init, before);
    if e < |s.events| {
      w, i := EventsHaveWriters(init, before, e);
      PrefixOfRun(acts, w);
      RequestsPersist(s, a, i);
      EventsPersist(s, a, e);
    } else {
      w, i := |acts| - 1, a.i;
    }
  }

  lemma EventsPersist(s: State, a: Action, e: nat)
    requires e < |s.events|
    ensures e < |Exec(s, a).events| && Exec(s, a).events[e] == s.events[e]
  {
  }

  /** Attribution is sound: every usage event was inserted by one request, which had come in earlier; the event carries
      the org, user, team and key id that an active key row gave that request when it authenticated, even if the key
      has been revoked since. */
  lemma EventsAreAttributed(init: State, acts: seq<Action>, e: nat)
    requires Init(init) && e < |Run(init, acts).events|
    ensures exists n, w, i ::
      n < w && InsertedAt(init, acts, w, i, e) && AuthenticatedAt(init, acts, n, i, Run(init, acts).events[e].who)
  {
    var w, i := EventsHaveWriters(init, acts, e);
    var n := RequestsAreAuthentic(init, acts[..w], i);
    assert acts[..w][..n] == acts[..n];
    assert AuthenticatedAt(init, acts, n, i, Run(init, acts).events[e].who);
  }

  lemma StepEvolvesKeys(s: State, a: Action)
    requires Inv(s)
    ensures Evolved(s.keys, Exec(s, a).keys)
  {
    if Subject(a).None? {
      match a
      case CreateKey(id, org, user, team, hash) => StatementsEvolve(s.keys, id, org, user, team, hash, s.now);
      case RevokeKey(id, org) => StatementsEvolve(s.keys, id, org, 0, None, "", s.now);
      case TouchKey(id, org) => StatementsEvolve(s.keys, id, org, 0, None, "", s.now);
      case _ =>
    } else if Subject(a).value < |s.reqs| {
      TablesFrame(s, s.reqs[Subject(a).value], a);
    }
  }

  lemma {:induction false} KeysEvolve(init: State, acts: seq<Action>, n: nat)
    requires Init(init) && n <= |acts|
    ensures Evolved(Run(init, acts[..n]).keys, Run(init, acts).keys)
  {
    if n == |acts| {
      assert acts[..n] == acts;
    } else {
      var s, a := Run(init, acts[..|acts| - 1]), acts[|acts| - 1];
      PrefixOfRun(acts, n);
      KeysEvolve(init, acts[..|acts| - 1], n);
      RunKeepsInv(init, acts[..|acts| - 1]);
      StepEvolvesKeys(s, a);
    }
  }

  /** Revocation is permanent: once a hash is revoked, no continuation of the run authenticates it or admits a request
      with it, and it cannot be created again. */
  lemma RevocationIsPermanent(init: State, acts: seq<Action>, n: nat, hash: string)
    requires Init(init) && n <= |acts| && RevokedHash(Run(init, acts[..n]).keys, hash)
    ensures Authenticate(Run(init, acts).keys, hash).None?
    ensures forall ok :: Exec(Run(init, acts), Arrive(hash, ok)) == Run(init, acts)
    ensures forall id, org, user, team :: Exec(Run(init, acts), CreateKey(id, org, user, team, hash)) == Run(init, acts)
  {
    KeysEvolve(init, acts, n);
    RunKeepsInv(init, acts);
    RevokedNeverAuthenticates(Run(init, acts[..n]).keys, Run(init, acts).keys, hash);
  }

  /** A key lets requests in as what it was created for. */
  lemma CreatedKeyLetsIn(s: State, id: Id, org: Id, user: Id, team: Option<Id>, hash: string)
    requires forall row :: row in s.keys ==> row.id != id && row.hash != hash
    ensures var t := Exec(Exec(s, CreateKey(id, org, user, team, hash)), Arrive(hash, true));
      && |t.reqs| == |s.reqs| + 1 && t.reqs[..|s.reqs|] == s.reqs
      && t.reqs[|s.reqs|].who == Identity(org, user, team, id) && t.reqs[|s.reqs|].phase.Lookup?
      && t.events == s.events && t.hour == s.hour && t.day == s.day
  {
    CreatedKeyAuthenticates(s.keys, id, org, user, team, hash);
  }

  /** Only a revocation of this key in its org makes an active key a revoked one. */
  lemma OnlyRevocationRevokes(s: State, a: Action, i: nat)
    requires i < |s.keys| && s.keys[i].status.Active?
    ensures i < |Exec(s, a).keys|
    ensures Exec(s, a).keys[i].status.Revoked? <==> a == RevokeKey(s.keys[i].id, s.keys[i].org)
  {
    if Subject(a).Some? && Subject(a).value < |s.reqs| {
      TablesFrame(s, s.reqs[Subject(a).value], a);
    }
    if a.TouchKey? {
      TouchSetsOnlyLastUse(s.keys, a.id, a.org, s.now, i);
    }
  }

  /** A recorded use sets the time of last use of this id in this org to the present, and nothing else in the database.
      */
  lemma UseIsRecorded(s: State, id: Id, org: Id, i: nat)
    requires i < |s.keys|
    ensures var t := Exec(s, TouchKey(id, org));
      && t == s.(keys := t.keys) && |t.keys| == |s.keys|
      && t.keys[i].lastUsed == (if s.keys[i].id == id && s.keys[i].org == org then Some(s.now) else s.keys[i].lastUsed)
      && t.keys[i].status == s.keys[i].status && SameKey(s.keys[i], t.keys[i])
  {
    TouchSetsOnlyLastUse(s.keys, id, org, s.now, i);
  }

  /** A revocation takes place at the present, and changes nothing but the keys. */
  lemma RevocationIsRecorded(s: State, id: Id, org: Id, i: nat)
    requires i < |s.keys|
    ensures var t := Exec(s, RevokeKey(id, org));
      && t == s.(keys := t.keys) && |t.keys| == |s.keys|
      && t.keys[i].revokedAt
         == (if s.keys[i].id == id && s.keys[i].org == org then Some(s.now) else s.keys[i].revokedAt)
      && t.keys[i].lastUsed == s.keys[i].lastUsed && SameKey(s.keys[i], t.keys[i])
  {
    RevokeSetsOnlyStatus(s.keys, id, org, s.now, i);
  }
}
