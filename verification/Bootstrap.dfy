/** The first login creates the first org: concurrent transactions under one advisory lock. */
module Bootstrap {
  import opened Core

  datatype Role = Member | OrgAdmin

  datatype Org = Org(id: Id, name: string)

  datatype Membership = Membership(user: Id, org: Id, team: Option<Id>, role: Role)

  /** ON CONFLICT (user_id, org_id, team_id) DO UPDATE SET role; NULL teams conflict with each other. */
  function UpsertMembership(rows: seq<Membership>, m: Membership): seq<Membership> {
    if rows == [] then [m]
    else if rows[0].user == m.user && rows[0].org == m.org && rows[0].team == m.team then [m] + rows[1..]
    else [rows[0]] + UpsertMembership(rows[1..], m)
  }

  /** Number of '@' in s. */
  function Ats(s: string): nat {
    if s == "" then 0 else (if s[0] == '@' then 1 else 0) + Ats(s[1..])
  }

  /** The text after the first '@'. */
  function Domain(s: string): string {
    if s == "" then "" else if s[0] == '@' then s[1..] else Domain(s[1..])
  }

  /** The domain of a plain address names the org. */
  function OrgName(email: string): string {
    if Ats(email) == 1 && Domain(email) != "" then Domain(email) + " org" else "Default organisation"
  }

  // ---- Concurrent logins ----

  /** Where a login's transaction is; `Committed` and `Aborted` still hold the lock until it is released. */
  datatype Phase = Begun | Locked | CountedNone | OrgInserted | Ready(creates: bool)
                 | Committed | Aborted | Finished(committed: bool)

  /** A login and the org it would insert; the inserts stay private to the transaction until it commits. */
  datatype Login = Login(user: Id, org: Org, phase: Phase)

  datatype State = State(orgs: seq<Org>, members: seq<Membership>, lock: Option<nat>, logins: seq<Login>)

  datatype Action = Begin(user: Id, email: string, orgId: Id) | Proceed(i: nat) | Fail(i: nat)

  function AdminOf(l: Login): Membership {
    Membership(l.user, l.org.id, None, OrgAdmin)
  }

  function SetPhase(s: State, i: nat, p: Phase): State
    requires i < |s.logins|
  {
    s.(logins := s.logins[i := s.logins[i].(phase := p)])
  }

  /** The next statement of a login: lock, count, insert org, insert membership, commit, and the release of the lock
      that follows the end of the transaction. A login waits while another holds the lock. */
  function Next(s: State, i: nat): State
    requires i < |s.logins|
  {
    var l := s.logins[i];
    match l.phase
    case Begun => if s.lock.Some? then s else SetPhase(s, i, Locked).(lock := Some(i))
    case Locked => SetPhase(s, i, if |s.orgs| > 0 then Ready(false) else CountedNone)
    case CountedNone => SetPhase(s, i, OrgInserted)
    case OrgInserted => SetPhase(s, i, Ready(true))
    case Ready(creates) =>
      if creates then
        SetPhase(s, i, Committed).(orgs := s.orgs + [l.org], members := UpsertMembership(s.members, AdminOf(l)))
      else SetPhase(s, i, Committed)
    case Committed => SetPhase(s, i, Finished(true)).(lock := None)
    case Aborted => SetPhase(s, i, Finished(false)).(lock := None)
    case Finished(_) => s
  }

  /** Any statement, the commit included, may fail; the deferred rollback discards the transaction's inserts. */
  function Abort(s: State, i: nat): State
    requires i < |s.logins|
  {
    match s.logins[i].phase
    case Begun => SetPhase(s, i, Finished(false))
    case Locked => SetPhase(s, i, Aborted)
    case CountedNone => SetPhase(s, i, Aborted)
    case OrgInserted => SetPhase(s, i, Aborted)
    case Ready(_) => SetPhase(s, i, Aborted)
    case _ => s
  }

  function Exec(s: State, a: Action): State {
    match a
    case Begin(user, email, orgId) => s.(logins := s.logins + [Login(user, Org(orgId, OrgName(email)), Begun)])
    case Proceed(i) => if i < |s.logins| then Next(s, i) else s
    case Fail(i) => if i < |s.logins| then Abort(s, i) else s
  }

  function Run(s: State, acts: seq<Action>): State {
    if acts == [] then s else Exec(Run(s, acts[..|acts| - 1]), acts[|acts| - 1])
  }

  predicate HoldsLock(p: Phase) {
    !p.Begun? && !p.Finished?
  }

  /** The login that is to insert, or has inserted, on the strength of having counted no org. */
  predicate Creating(p: Phase) {
    p.CountedNone? || p.OrgInserted? || p == Ready(true)
  }

  predicate Succeeded(p: Phase) {
    p.Committed? || p == Finished(true)
  }

  /** The one committed org and its one membership come from one successful login. */
  ghost predicate CreatedBy(s: State, i: nat) {
    && i < |s.logins| && Succeeded(s.logins[i].phase)
    && s.orgs == [s.logins[i].org]
    && s.members == [Membership(s.logins[i].user, s.logins[i].org.id, None, OrgAdmin)]
  }

  /** The lock excludes; whoever has counted no org is still right; whoever counted one or committed has seen one. */
  ghost predicate Inv(s: State) {
    && (forall i :: 0 <= i < |s.logins| && HoldsLock(s.logins[i].phase) ==> s.lock == Some(i))
    && (s.lock.Some? ==> s.lock.value < |s.logins| && HoldsLock(s.logins[s.lock.value].phase))
    && (forall i :: 0 <= i < |s.logins| && Creating(s.logins[i].phase) ==> s.orgs == [])
    && (forall i :: 0 <= i < |s.logins| && (s.logins[i].phase == Ready(false) || Succeeded(s.logins[i].phase)) ==>
          s.orgs != [])
  }

  ghost predicate Bootstrapped(s: State) {
    (s.orgs == [] && s.members == []) || exists i :: CreatedBy(s, i)
  }

  lemma NextKeepsInv(s: State, i: nat)
    requires Inv(s) && i < |s.logins|
    ensures Inv(Next(s, i))
  {
  }

  lemma AbortKeepsInv(s: State, i: nat)
    requires Inv(s) && i < |s.logins|
    ensures Inv(Abort(s, i))
  {
  }

  lemma StepKeepsInv(s: State, a: Action)
    requires Inv(s)
    ensures Inv(Exec(s, a))
  {
    match a
    case Begin(_, _, _) =>
    case Proceed(i) => if i < |s.logins| { NextKeepsInv(s, i); }
    case Fail(i) => if i < |s.logins| { AbortKeepsInv(s, i); }
  }

  lemma StepKeepsBootstrap(s: State, a: Action)
    requires Inv(s) && Bootstrapped(s)
    ensures Bootstrapped(Exec(s, a))
  {
    var s' := Exec(s, a);
    if s.orgs != [] {
      var i :| CreatedBy(s, i);
      assert CreatedBy(s', i);
    } else if s'.orgs != [] {
      assert CreatedBy(s', a.i);
    }
  }

  predicate Init(s: State) {
    s.lock.None? && s.logins == []
  }

  lemma {:induction false} RunKeepsInv(s: State, acts: seq<Action>)
    requires Init(s)
    ensures Inv(Run(s, acts))
  {
    if acts != [] {
      RunKeepsInv(s, acts[..|acts| - 1]);
      StepKeepsInv(Run(s, acts[..|acts| - 1]), acts[|acts| - 1]);
    }
  }

  /** At most one login is inside the critical section in every reachable state. */
  lemma MutualExclusion(s: State, acts: seq<Action>, i: nat, j: nat)
    requires Init(s) && i < |Run(s, acts).logins| && j < |Run(s, acts).logins|
    requires HoldsLock(Run(s, acts).logins[i].phase) && HoldsLock(Run(s, acts).logins[j].phase)
    ensures i == j
  {
    RunKeepsInv(s, acts);
  }

  /** Bootstrap safety. From empty tables, in every interleaving with failures anywhere: either nothing is committed, or
      exactly one org with exactly one membership, the org_admin of a login that succeeded; and every login that
      succeeded leaves an org behind. */
  lemma {:induction false} BootstrapSafety(s: State, acts: seq<Action>)
    requires Init(s) && s.orgs == [] && s.members == []
    ensures Bootstrapped(Run(s, acts)) && |Run(s, acts).orgs| <= 1
    ensures forall i :: 0 <= i < |Run(s, acts).logins| && Succeeded(Run(s, acts).logins[i].phase) ==>
      Run(s, acts).orgs != []
  {
    RunKeepsInv(s, acts);
    if acts != [] {
      var before := acts[..|acts| - 1];
      RunKeepsInv(s, before);
      BootstrapSafety(s, before);
      StepKeepsBootstrap(Run(s, before), acts[|acts| - 1]);
    }
  }

  /** Once there is an org, logins change neither table. */
  lemma {:induction false} BootstrapHappensOnce(s: State, acts: seq<Action>)
    requires Init(s) && s.orgs != []
    ensures Run(s, acts).orgs == s.orgs && Run(s, acts).members == s.members
  {
    if acts != [] {
      RunKeepsInv(s, acts[..|acts| - 1]);
      BootstrapHappensOnce(s, acts[..|acts| - 1]);
    }
  }

  /** A login that rolled back left nothing: only a successful commit changes the tables, and it is the login's own. */
  lemma OnlyCommitsWrite(s: State, a: Action)
    ensures Exec(s, a).orgs != s.orgs || Exec(s, a).members != s.members ==>
      a.Proceed? && a.i < |s.logins| && s.logins[a.i].phase == Ready(true) && Exec(s, a).logins[a.i].phase.Committed?
  {
  }

  /** A login that has aborted or finished unsuccessfully can never succeed later, and a finished one holds no lock. */
  lemma FailureIsFinal(s: State, a: Action, i: nat)
    requires i < |s.logins| && (s.logins[i].phase.Aborted? || s.logins[i].phase == Finished(false))
    ensures i < |Exec(s, a).logins|
    ensures (Exec(s, a).logins[i].phase.Aborted? || Exec(s, a).logins[i].phase == Finished(false))
  {
  }

  /** Nobody waits forever for a dead lock: from every reachable state at most six steps of the lock's holder free it.
      */
  lemma TheLockCanBeFreed(s: State, acts: seq<Action>)
    requires Init(s) && Run(s, acts).lock.Some?
    ensures exists more :: |more| <= 6 && (forall a :: a in more ==> a == Proceed(Run(s, acts).lock.value))
                           && Run(Run(s, acts), more).lock.None?
  {
    RunKeepsInv(s, acts);
    var t := Run(s, acts);
    Drain(t, t.lock.value);
  }

  function StepsLeft(p: Phase): nat {
    match p
    case Begun => 6
    case Locked => 5
    case CountedNone => 4
    case OrgInserted => 3
    case Ready(_) => 2
    case Committed => 1
    case Aborted => 1
    case Finished(_) => 0
  }

  lemma {:induction false} Drain(s: State, i: nat)
    requires Inv(s) && s.lock == Some(i)
    ensures exists more :: |more| <= 6 && (forall a :: a in more ==> a == Proceed(i)) && Run(s, more).lock.None?
  {
    var more := Draining(s, i);
    assert |more| <= 6;
  }

  /** Enough steps of login i to free the lock. */
  lemma {:induction false} Draining(s: State, i: nat) returns (more: seq<Action>)
    requires Inv(s) && s.lock == Some(i)
    ensures |more| <= StepsLeft(s.logins[i].phase) && (forall a :: a in more ==> a == Proceed(i))
    ensures Run(s, more).lock.None?
    decreases StepsLeft(s.logins[i].phase)
  {
    var s' := Exec(s, Proceed(i));
    StepKeepsInv(s, Proceed(i));
    if s'.lock.None? {
      more := [Proceed(i)];
      assert Run(s, more[..0]) == s;
    } else {
      var rest := Draining(s', i);
      more := [Proceed(i)] + rest;
      RunFrom(s, Proceed(i), rest);
    }
  }

  lemma {:induction false} RunFrom(s: State, a: Action, rest: seq<Action>)
    ensures Run(s, [a] + rest) == Run(Exec(s, a), rest)
  {
    ButLast(a, rest);
    if rest != [] {
      RunFrom(s, a, rest[..|rest| - 1]);
    }
  }

  lemma ButLast<T>(a: T, rest: seq<T>)
    ensures var all := [a] + rest;
      if rest == [] then all == [a] && all[..|all| - 1] == []
      else all[..|all| - 1] == [a] + rest[..|rest| - 1] && all[|all| - 1] == rest[|rest| - 1]
  {
  }

  // ---- The handler itself ----

  /** The statement at which the handler's transaction fails, if any. */
  datatype Fault = NoFault | AtBegin | AtLock | AtCount | AtOrg | AtMembership | AtCommit

  class PortalDatabase {
    var orgs: seq<Org>
    var members: seq<Membership>

    constructor ()
      ensures orgs == [] && members == []
    {
      orgs, members := [], [];
    }

    /** One login alone: on success an org exists, created here exactly when there was none; on any failure nothing
        has changed. */
    method BootstrapFirstOrgIfNeeded(user: Id, email: string, freshId: Id, fault: Fault) returns (ok: bool)
      modifies this
      ensures old(orgs) != [] || !ok ==> orgs == old(orgs) && members == old(members)
      ensures old(orgs) == [] && ok ==>
        && orgs == [Org(freshId, OrgName(email))]
        && members == UpsertMembership(old(members), Membership(user, freshId, None, OrgAdmin))
      ensures ok <==> fault.NoFault? || (old(orgs) != [] && fault in {AtOrg, AtMembership})
    {
      if fault.AtBegin? || fault.AtLock? {
        return false;
      }
      var orgCount := |orgs|;
      if fault.AtCount? {
        return false;
      }
      if orgCount > 0 {
        return !fault.AtCommit?;
      }
      var org := Org(freshId, OrgName(email));
      if fault.AtOrg? {
        return false;
      }
      var membership := Membership(user, org.id, None, OrgAdmin);
      if fault.AtMembership? || fault.AtCommit? {
        return false;
      }
      orgs, members := orgs + [org], UpsertMembership(members, membership);
      ok := true;
    }
  }

  /** Which statement a login is about to run, for the handler's fault. */
  predicate FailsAt(p: Phase, fault: Fault) {
    match p
    case Begun => fault.AtBegin? || fault.AtLock?
    case Locked => fault.AtCount?
    case CountedNone => fault.AtOrg?
    case OrgInserted => fault.AtMembership?
    case Ready(_) => fault.AtCommit?
    case _ => false
  }

  /** The login's next statement, which fails if the fault is there. */
  function NextWith(s: State, i: nat, fault: Fault): State {
    if i >= |s.logins| then s else if FailsAt(s.logins[i].phase, fault) then Abort(s, i) else Next(s, i)
  }

  function Times(f: State -> State, n: nat, s: State): State {
    if n == 0 then s else f(Times(f, n - 1, s))
  }

  lemma {:induction false} TimesAdd(f: State -> State, m: nat, n: nat, s: State)
    ensures Times(f, m + n, s) == Times(f, n, Times(f, m, s))
  {
    if n > 0 {
      TimesAdd(f, m, n - 1, s);
    }
  }

  lemma ThreeTimes(f: State -> State, s: State)
    ensures Times(f, 3, s) == f(f(f(s)))
  {
    assert Times(f, 1, s) == f(Times(f, 0, s));
    assert Times(f, 2, s) == f(Times(f, 1, s));
  }

  function Step(i: nat, fault: Fault): State -> State {
    (s: State) => NextWith(s, i, fault)
  }

  /** Login i alone takes n steps. */
  function Solo(s: State, i: nat, fault: Fault, n: nat): State {
    Times(Step(i, fault), n, s)
  }

  /** Where a solo login stands after three statements, which write nothing. */
  function PhaseAfterThree(noOrg: bool, fault: Fault): Phase {
    if fault.AtBegin? || fault.AtLock? || fault.AtCount? then Finished(false)
    else if !noOrg then (if fault.AtCommit? then Aborted else Committed)
    else if fault.AtOrg? then Aborted
    else OrgInserted
  }

  function LockOf(p: Phase, i: nat): Option<nat> {
    if p.Finished? then None else Some(i)
  }

  lemma FirstHalf(s: State, i: nat, fault: Fault)
    requires s.lock.None? && i < |s.logins| && s.logins[i].phase.Begun?
    ensures var half, p := Solo(s, i, fault, 3), PhaseAfterThree(s.orgs == [], fault);
      && half.orgs == s.orgs && half.members == s.members && half.lock == LockOf(p, i)
      && i < |half.logins| && half.logins[i] == s.logins[i].(phase := p)
  {
    ThreeTimes(Step(i, fault), s);
    var s1 := NextWith(s, i, fault);
    var s2 := NextWith(s1, i, fault);
  }

  /** The three last statements of a solo login. */
  lemma SecondHalf(s: State, i: nat, fault: Fault)
    requires i < |s.logins| && s.lock == LockOf(s.logins[i].phase, i)
    requires var p := s.logins[i].phase; p.OrgInserted? || p.Committed? || p.Aborted? || p.Finished?
    ensures var end, l, p := Solo(s, i, fault, 3), s.logins[i], s.logins[i].phase;
      var creates := p.OrgInserted? && !fault.AtMembership? && !fault.AtCommit?;
      && end.lock.None? && i < |end.logins|
      && end.logins[i].phase == Finished(if p.Finished? then p.committed else creates || p.Committed?)
      && end.orgs == (if creates then s.orgs + [l.org] else s.orgs)
      && end.members == if creates then UpsertMembership(s.members, AdminOf(l)) else s.members
  {
    ThreeTimes(Step(i, fault), s);
    var s1 := NextWith(s, i, fault);
    var s2 := NextWith(s1, i, fault);
  }

  /** The machine's login, running alone, does what the handler does under every fault: after its six steps it has
      succeeded in the same cases, left the same tables, and freed the lock. */
  lemma SoloLoginMatchesHandler(s: State, i: nat, fault: Fault)
    requires s.lock.None? && i < |s.logins| && s.logins[i].phase.Begun?
    ensures var end, l := Solo(s, i, fault, 6), s.logins[i];
      var ok := fault.NoFault? || (s.orgs != [] && fault in {AtOrg, AtMembership});
      && end.lock.None? && i < |end.logins| && end.logins[i].phase == Finished(ok)
      && (s.orgs != [] || !ok ==> end.orgs == s.orgs && end.members == s.members)
      && (s.orgs == [] && ok ==>
            && end.orgs == [l.org]
            && end.members == UpsertMembership(s.members, Membership(l.user, l.org.id, None, OrgAdmin)))
  {
    TimesAdd(Step(i, fault), 3, 3, s);
    FirstHalf(s, i, fault);
    SecondHalf(Solo(s, i, fault, 3), i, fault);
  }

  // ---- Names and memberships ----

  lemma {:induction false} DomainAfter(local: string, domain: string)
    requires '@' !in local
    ensures Domain(local + "@" + domain) == domain && Ats(local + "@" + domain) == 1 + Ats(domain)
  {
    var s := local + "@" + domain;
    if local == "" {
      assert s[0] == '@' && s[1..] == domain;
    } else {
      assert s[0] == local[0] && local[0] in local && s[1..] == local[1..] + "@" + domain;
      DomainAfter(local[1..], domain);
    }
  }

  lemma {:induction false} NoAts(s: string)
    ensures Ats(s) == 0 <==> '@' !in s
  {
    if s != "" {
      NoAts(s[1..]);
      assert s == [s[0]] + s[1..];
    }
  }

  /** An address with one '@' and something after it names the org by its domain; any other text gives the default name.
      */
  lemma OrgIsNamedAfterDomain(email: string, local: string, domain: string)
    ensures email == local + "@" + domain && '@' !in local && '@' !in domain && domain != "" ==>
      OrgName(email) == domain + " org"
    ensures email == local + "@" && '@' !in local ==> OrgName(email) == "Default organisation"
    ensures email == local + "@" + domain && '@' !in local && '@' in domain ==> OrgName(email) == "Default organisation"
    ensures '@' !in email ==> OrgName(email) == "Default organisation"
  {
    NoAts(email);
    NoAts(domain);
    if '@' !in local {
      DomainAfter(local, domain);
      DomainAfter(local, "");
      assert local + "@" + "" == local + "@";
    }
  }

  /** The login that begins is for this user, and would insert an org with this id and that name. */
  lemma LoginBegins(s: State, user: Id, email: string, orgId: Id)
    ensures var t := Exec(s, Begin(user, email, orgId));
      && t.orgs == s.orgs && t.members == s.members && t.lock == s.lock && |t.logins| == |s.logins| + 1
      && t.logins[..|s.logins|] == s.logins
      && t.logins[|s.logins|].user == user && t.logins[|s.logins|].phase.Begun?
      && t.logins[|s.logins|].org.id == orgId && t.logins[|s.logins|].org.name == OrgName(email)
  {
  }

  predicate SameMember(a: Membership, b: Membership) {
    a.user == b.user && a.org == b.org && a.team == b.team
  }

  /** An upsert of a membership leaves it and the memberships of other users, orgs and teams, and no other. */
  lemma {:induction false} UpsertMembershipSets(rows: seq<Membership>, m: Membership)
    requires forall i, j :: 0 <= i < j < |rows| ==> !SameMember(rows[i], rows[j])
    ensures forall x :: x in UpsertMembership(rows, m) <==> x == m || (x in rows && !SameMember(x, m))
  {
    if rows != [] {
      assert rows == [rows[0]] + rows[1..];
      if SameMember(rows[0], m) {
        assert forall x :: x in rows[1..] ==> !SameMember(x, m);
      } else {
        UpsertMembershipSets(rows[1..], m);
      }
    }
  }
}
