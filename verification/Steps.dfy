/** The steps of one request, one by one and in the fields of the request. */
module Steps {
  import opened Core
  import opened Clock
  import opened Tables
  import opened Policies
  import opened Admission
  import opened Engine

  /** A request only moves by its own actions, and every step leaves who it is for. */
  lemma StepsAreItsOwn(s: State, a: Action, i: nat)
    requires i < |s.reqs|
    ensures i < |Exec(s, a).reqs| && Exec(s, a).reqs[i].who == s.reqs[i].who
    ensures Exec(s, a).reqs[i] == s.reqs[i] ||
      a in {LookupPolicy(i, true), LookupPolicy(i, false), DecideAdmission(i),
            ReadUser(i, Hour, true), ReadUser(i, Hour, false), ReadUser(i, Day, true), ReadUser(i, Day, false),
            ReadTeam(i, Hour, true), ReadTeam(i, Hour, false), ReadTeam(i, Day, true), ReadTeam(i, Day, false),
            WriteEvent(i, true), WriteEvent(i, false), WriteHour(i, true), WriteHour(i, false),
            WriteDay(i, true), WriteDay(i, false)} ||
      (a.FinishStream? && a.i == i)
  {
    if Subject(a).Some? && Subject(a).value < |s.reqs| {
      RequestFrame(s, Subject(a).value, a);
    }
  }

  /** The policy lookup: a failed one and one without a result let the request pass to its stream; otherwise the limits
      of the row are what its usage is read against. */
  lemma LookupStep(s: State, i: nat)
    requires i < |s.reqs| && s.reqs[i].phase.Lookup?
    ensures Exec(s, LookupPolicy(i, false)).reqs[i].phase.Streaming?
    ensures var found, r := GetBudgetPolicy(s.policies, s.reqs[i].who), Exec(s, LookupPolicy(i, true)).reqs[i];
      && (found.None? ==> r.phase.Streaming?)
      && (found.Some? ==> r.phase.ReadingUsage? && r.policy == Resolved(found.value.limits))
  {
  }

  /** The reads: each reader asks for the hour, then for the day, once each and of its own table at the present instant,
      and stops when a query fails. */
  lemma UserReadStep(s: State, i: nat, ok: bool)
    requires i < |s.reqs| && s.reqs[i].phase.ReadingUsage?
    ensures var r := s.reqs[i];
      var hour, day := Exec(s, ReadUser(i, Hour, ok)).reqs[i], Exec(s, ReadUser(i, Day, ok)).reqs[i];
      var party := UserParty(r.who.org, r.who.user);
      var hourAnswer := if ok then Got(WindowUsage(s.hour, party, WindowStart(Hour, s.now))) else Lost;
      var dayAnswer := if ok then Got(WindowUsage(s.day, party, WindowStart(Day, s.now))) else Lost;
      && hour == r.(user := hour.user) && day == r.(user := day.user)
      && (r.user.hour.Unread? ==> hour.user == r.user.(hour := hourAnswer))
      && (r.user.hour.Got? && r.user.day.Unread? ==> day.user == r.user.(day := dayAnswer))
      && (!r.user.hour.Unread? ==> hour == r)
      && (!r.user.hour.Got? || !r.user.day.Unread? ==> day == r)
  {
  }

  lemma TeamReadStep(s: State, i: nat, ok: bool)
    requires i < |s.reqs| && s.reqs[i].phase.ReadingUsage? && s.reqs[i].who.team.Some?
    ensures var r := s.reqs[i];
      var hour, day := Exec(s, ReadTeam(i, Hour, ok)).reqs[i], Exec(s, ReadTeam(i, Day, ok)).reqs[i];
      var party := TeamParty(r.who.org, r.who.team.value);
      var hourAnswer := if ok then Got(WindowUsage(s.hour, party, WindowStart(Hour, s.now))) else Lost;
      var dayAnswer := if ok then Got(WindowUsage(s.day, party, WindowStart(Day, s.now))) else Lost;
      && hour == r.(team := hour.team) && day == r.(team := day.team)
      && (r.team.hour.Unread? ==> hour.team == r.team.(hour := hourAnswer))
      && (r.team.hour.Got? && r.team.day.Unread? ==> day.team == r.team.(day := dayAnswer))
      && (!r.team.hour.Unread? ==> hour == r)
      && (!r.team.hour.Got? || !r.team.day.Unread? ==> day == r)
  {
  }

  /** Has a reader stopped: after a failed hour, or with its day answered or failed. */
  predicate Stopped(r: Readings) {
    r.hour == Lost || (r.hour.Got? && r.day != Unread)
  }

  predicate Failed(r: Readings) {
    r.hour == Lost || r.day == Lost
  }

  /** The decision waits for both readers. If either failed the request passes to its stream, whatever the limits; with
      all answers the limits decide, and a denial names its window and its seconds from the present instant. */
  lemma DecisionStep(s: State, i: nat)
    requires i < |s.reqs| && s.reqs[i].phase.ReadingUsage? && WellPhased(s.reqs[i])
    ensures var r, after := s.reqs[i], Exec(s, DecideAdmission(i)).reqs[i];
      var stopped := Stopped(r.user) && (r.who.team.Some? ==> Stopped(r.team));
      var failed := Failed(r.user) || (r.who.team.Some? && Failed(r.team));
      && after == r.(phase := after.phase)
      && (!stopped ==> after.phase.ReadingUsage?)
      && (stopped && failed ==> after.phase.Streaming?)
      && (stopped && !failed ==>
            var team := if r.who.team.Some? then Some(Windows(r.team.hour.use, r.team.day.use)) else None;
            match Decide(r.policy.limits, Windows(r.user.hour.use, r.user.day.use), team)
            case None => after.phase.Streaming?
            case Some(w) => after.phase == Refused(w, RetryAfterSeconds(s.now, w)))
  {
  }

  /** A refused request is never streamed or charged, and one that is done changes no more. */
  lemma EndedForGood(s: State, a: Action, i: nat)
    requires i < |s.reqs| && (s.reqs[i].phase.Refused? || s.reqs[i].phase.Done?)
    ensures i < |Exec(s, a).reqs| && Exec(s, a).reqs[i] == s.reqs[i]
  {
    if Subject(a).Some? && Subject(a).value < |s.reqs| {
      RequestFrame(s, Subject(a).value, a);
    }
  }
}
