/** The two waits in closed form: which call stands at which position, and at which events,
    told by their position and their answer alone, a wait ends. */
module Waits {
  import opened Options
  import opened Railway
  import opened Polling

  // ---------- what the answers show ----------

  /** The platform's statuses: settled well, settled badly, or still on the way. */
  lemma StatusesExactly(status: DeploymentStatus)
    ensures TerminalFailure(status) <==>
            status !in {SUCCESS, BUILDING, DEPLOYING, INITIALIZING, PENDING, QUEUED, WAITING}
  {
  }

  ghost predicate FirstOfKind(domains: seq<Domain>, kind: string, k: int) {
    0 <= k < |domains| && domains[k].kind == kind && forall j :: 0 <= j < k ==> domains[j].kind != kind
  }

  lemma {:induction false} ServiceDomainIsFirst(domains: seq<Domain>)
    ensures var found := FindServiceDomain(domains);
            if found.Some? then exists k :: FirstOfKind(domains, "service", k) && domains[k] == found.value
            else forall k :: 0 <= k < |domains| ==> domains[k].kind != "service"
  {
    if domains != [] {
      if domains[0].kind == "service" {
        assert FirstOfKind(domains, "service", 0);
      } else {
        ServiceDomainIsFirst(domains[1..]);
        if k :| FirstOfKind(domains[1..], "service", k) && FindServiceDomain(domains[1..]) == Some(domains[1..][k]) {
          assert FirstOfKind(domains, "service", k + 1);
        }
        assert forall k :: 1 <= k < |domains| ==> domains[k] == domains[1..][k - 1];
      }
    }
  }

  /** The domain used: the first one of kind "service", wherever it stands, else the first
      one listed, and none only if none is listed. */
  lemma PickDomainExactly(domains: seq<Domain>)
    ensures forall k :: FirstOfKind(domains, "service", k) ==> PickDomain(domains) == Some(domains[k])
    ensures domains != [] && (forall k :: 0 <= k < |domains| ==> domains[k].kind != "service") ==>
              PickDomain(domains) == Some(domains[0])
    ensures PickDomain(domains).None? <==> domains == []
  {
    ServiceDomainIsFirst(domains);
    forall k | FirstOfKind(domains, "service", k) ensures PickDomain(domains) == Some(domains[k]) {
      var j :| FirstOfKind(domains, "service", j) && FindServiceDomain(domains) == Some(domains[j]);
      assert j == k;
    }
  }

  /** The prior id is that of the latest deployment of the first service of the name. */
  lemma PriorIdExactly(services: seq<Service>, name: string, id: string)
    ensures PriorId(services, name) == Some(id) <==>
            exists k :: FirstNamed(services, name, k) && services[k].latestDeployment.Some?
                        && services[k].latestDeployment.value.id == Some(id)
  {
    FindsTheFirst(services, name);
    forall k | FirstNamed(services, name, k) ensures FindService(services, name) == Some(services[k]) {
      var j :| FirstNamed(services, name, j) && FindService(services, name) == Some(services[j]);
      assert j == k;
    }
  }

  /** The event at i is this call, with an answer it can have. */
  predicate SendsAt(t: seq<Event>, i: nat, call: Call) {
    i < |t| && t[i].call == call && Fits(t[i].call, t[i].reply)
  }

  // ---------- waiting for a deployment ----------

  /** Clock, then over and over: sleep, list, clock. */
  function PollCallAt(w: Wait, i: nat): Call {
    if i % 3 == 0 then ReadClock else if i % 3 == 1 then Sleep(w.pollSeconds * 1000) else ListServices
  }

  /** The reading at i is at or past the timeout after the first reading. */
  predicate LateAt(w: Wait, t: seq<Event>, i: int) {
    && 0 < i < |t| && t[i].reply.Time? && t[0].reply.Time?
    && t[i].reply.t >= t[0].reply.t + w.timeoutMinutes * 60000
  }

  /** What the event at i ends the wait with, if it does. */
  ghost predicate PollEndsAt(w: Wait, guard: Option<string>, t: seq<Event>, i: int, result: PollResult) {
    && 0 < i < |t|
    && match result
       case TimedOut => i % 3 == 0 && LateAt(w, t, i)
       case RunnerFailed => i % 3 == 2 && t[i].reply.Failed?
       case Settled(s) =>
         i % 3 == 2 && t[i].reply.Services?
         && exists k :: SettledAt(t[i].reply.services, w.service, guard, k) && t[i].reply.services[k] == s
                        && s.Status() == Some(SUCCESS)
       case EndedIn(status) =>
         i % 3 == 2 && t[i].reply.Services?
         && exists k :: SettledAt(t[i].reply.services, w.service, guard, k)
                        && t[i].reply.services[k].Status() == Some(status) && status != SUCCESS
  }

  ghost predicate PollOver(w: Wait, guard: Option<string>, t: seq<Event>, i: int) {
    exists result :: PollEndsAt(w, guard, t, i, result)
  }

  /** The wait as a set of traces. */
  ghost predicate PollForm(w: Wait, guard: Option<string>, t: seq<Event>) {
    && (forall i :: 0 <= i < |t| ==> t[i].call == PollCallAt(w, i) && Fits(t[i].call, t[i].reply))
    && (forall i :: 0 <= i < |t| - 1 ==> !PollOver(w, guard, t, i))
  }

  lemma VerdictEnds(w: Wait, guard: Option<string>, t: seq<Event>, i: nat)
    requires 0 < i < |t| && i % 3 == 2 && t[i].reply.Services?
    ensures forall result :: PollEndsAt(w, guard, t, i, result) <==>
              Verdict(w.service, guard, t[i].reply.services) == Some(result)
  {
    var services := t[i].reply.services;
    VerdictExactly(w.service, guard, services);
    forall result ensures PollEndsAt(w, guard, t, i, result) <==> Verdict(w.service, guard, services) == Some(result) {
      if Verdict(w.service, guard, services) == Some(result) {
        var k :| SettledAt(services, w.service, guard, k);
      }
    }
  }

  /** Where a wait that is not over stands after n events. */
  predicate PollStandsAt(w: Wait, t: seq<Event>, q: Poll) {
    if t == [] then q == PollStart
    else
      t[0].reply.Time? &&
      var deadline := t[0].reply.t + w.timeoutMinutes * 60000;
      q == if |t| % 3 == 1 then PollSleep(deadline) else if |t| % 3 == 2 then PollList(deadline) else PollCheck(deadline)
  }

  ghost predicate PollAgrees(w: Wait, guard: Option<string>, t: seq<Event>) {
    var q := PollRun(w, guard, t);
    && (q.PollStuck? <==> !PollForm(w, guard, t))
    && (PollForm(w, guard, t) ==>
          && (forall result :: q == PollDone(result) <==> PollEndsAt(w, guard, t, |t| - 1, result))
          && (!q.PollDone? ==> PollStandsAt(w, t, q)))
  }

  lemma PollFormSnoc(w: Wait, guard: Option<string>, t: seq<Event>)
    requires t != []
    ensures var init, n := t[..|t| - 1], |t| - 1;
            PollForm(w, guard, t) <==>
            && PollForm(w, guard, init) && !PollOver(w, guard, init, n - 1)
            && t[n].call == PollCallAt(w, n) && Fits(t[n].call, t[n].reply)
  {
    var init, n := t[..|t| - 1], |t| - 1;
    forall i | 0 <= i < n ensures PollOver(w, guard, t, i) <==> PollOver(w, guard, init, i) {
      assert forall result :: PollEndsAt(w, guard, t, i, result) <==> PollEndsAt(w, guard, init, i, result);
    }
  }

  /** The wait is exactly this set of traces, and it ends exactly where they say. */
  lemma {:induction false} PollExactly(w: Wait, guard: Option<string>, t: seq<Event>)
    ensures PollRun(w, guard, t).PollStuck? <==> !PollForm(w, guard, t)
    ensures forall result ::
              PollRun(w, guard, t) == PollDone(result) <==>
              PollForm(w, guard, t) && PollEndsAt(w, guard, t, |t| - 1, result)
  {
    PollAgreement(w, guard, t);
  }

  lemma {:induction false} PollAgreement(w: Wait, guard: Option<string>, t: seq<Event>)
    ensures PollAgrees(w, guard, t)
  {
    if t != [] {
      var init := t[..|t| - 1];
      PollAgreement(w, guard, init);
      PollFormSnoc(w, guard, t);
      PollStepAgrees(w, guard, t);
    }
  }

  lemma PollOverIsDone(w: Wait, guard: Option<string>, t: seq<Event>)
    requires PollAgrees(w, guard, t) && PollForm(w, guard, t)
    ensures PollRun(w, guard, t).PollDone? <==> PollOver(w, guard, t, |t| - 1)
  {
    var q := PollRun(w, guard, t);
    if q.PollDone? {
      assert PollEndsAt(w, guard, t, |t| - 1, q.result);
    }
    if PollOver(w, guard, t, |t| - 1) {
      var result :| PollEndsAt(w, guard, t, |t| - 1, result);
      assert q == PollDone(result);
    }
  }

  lemma PollStepAgrees(w: Wait, guard: Option<string>, t: seq<Event>)
    requires t != [] && PollAgrees(w, guard, t[..|t| - 1])
    requires var init, n := t[..|t| - 1], |t| - 1;
             PollForm(w, guard, t) <==>
             && PollForm(w, guard, init) && !PollOver(w, guard, init, n - 1)
             && t[n].call == PollCallAt(w, n) && Fits(t[n].call, t[n].reply)
    ensures PollAgrees(w, guard, t)
  {
    var init, n := t[..|t| - 1], |t| - 1;
    var q := PollRun(w, guard, init);
    if PollForm(w, guard, init) {
      PollOverIsDone(w, guard, init);
      if !q.PollDone? {
        assert PollCall(w, q) == PollCallAt(w, n);
        if PollForm(w, guard, t) {
          PollAdvanceAgrees(w, guard, t, q);
        }
      }
    }
  }

  lemma PollAdvanceAgrees(w: Wait, guard: Option<string>, t: seq<Event>, q: Poll)
    requires t != [] && PollStandsAt(w, t[..|t| - 1], q)
    requires var n := |t| - 1; t[n].call == PollCallAt(w, n) && Fits(t[n].call, t[n].reply)
    ensures var next := PollAdvance(w, guard, q, t[|t| - 1].reply);
            && !next.PollStuck?
            && (forall result :: next == PollDone(result) <==> PollEndsAt(w, guard, t, |t| - 1, result))
            && (!next.PollDone? ==> PollStandsAt(w, t, next))
  {
    var n := |t| - 1;
    if n % 3 == 2 && t[n].reply.Services? {
      VerdictEnds(w, guard, t, n);
    }
  }

  // ---------- waiting for an authenticated answer ----------

  /** Clock, then over and over: request, sleep, clock. */
  function ReadyCallAt(w: Wait, username: string, password: string, domain: string, i: nat): Call {
    if i % 3 == 0 then ReadClock
    else if i % 3 == 1 then CheckSetup(domain, username, password)
    else Sleep(w.pollSeconds * 1000)
  }

  /** The event at i ends the wait: a 200 well; a request that throws, or a clock reading at
      or past the timeout after the first one, badly; and nothing else does. */
  predicate ReadyEndsAt(w: Wait, t: seq<Event>, i: int, ok: bool) {
    && 0 < i < |t|
    && if ok then i % 3 == 1 && t[i].reply == HttpStatus(200)
       else (i % 3 == 1 && t[i].reply.Failed?) || (i % 3 == 0 && LateAt(w, t, i))
  }

  predicate ReadyOver(w: Wait, t: seq<Event>, i: int) {
    ReadyEndsAt(w, t, i, true) || ReadyEndsAt(w, t, i, false)
  }

  ghost predicate ReadyForm(w: Wait, username: string, password: string, domain: string, t: seq<Event>) {
    && (forall i :: 0 <= i < |t| ==>
          t[i].call == ReadyCallAt(w, username, password, domain, i) && Fits(t[i].call, t[i].reply))
    && (forall i :: 0 <= i < |t| - 1 ==> !ReadyOver(w, t, i))
  }

  predicate ReadyStandsAt(w: Wait, password: string, domain: string, t: seq<Event>, q: Ready) {
    if t == [] then q == ReadyStart(password, domain)
    else
      t[0].reply.Time? &&
      var deadline := t[0].reply.t + w.timeoutMinutes * 60000;
      q == if |t| % 3 == 1 then ReadyCheck(password, domain, deadline)
           else if |t| % 3 == 2 then ReadySleep(password, domain, deadline)
           else ReadyClock(password, domain, deadline)
  }

  ghost predicate ReadyAgrees(w: Wait, username: string, password: string, domain: string, t: seq<Event>) {
    var q := ReadyRun(w, username, ReadyStart(password, domain), t);
    && (q.ReadyStuck? <==> !ReadyForm(w, username, password, domain, t))
    && (ReadyForm(w, username, password, domain, t) ==>
          && (forall ok :: q == ReadyDone(ok) <==> ReadyEndsAt(w, t, |t| - 1, ok))
          && (!q.ReadyDone? ==> ReadyStandsAt(w, password, domain, t, q)))
  }

  lemma ReadyFormSnoc(w: Wait, username: string, password: string, domain: string, t: seq<Event>)
    requires t != []
    ensures var init, n := t[..|t| - 1], |t| - 1;
            ReadyForm(w, username, password, domain, t) <==>
            && ReadyForm(w, username, password, domain, init) && !ReadyOver(w, init, n - 1)
            && t[n].call == ReadyCallAt(w, username, password, domain, n) && Fits(t[n].call, t[n].reply)
  {
    var init, n := t[..|t| - 1], |t| - 1;
    forall i | 0 <= i < n ensures ReadyOver(w, t, i) <==> ReadyOver(w, init, i) {
      assert forall ok :: ReadyEndsAt(w, t, i, ok) <==> ReadyEndsAt(w, init, i, ok);
    }
  }

  /** The readiness wait is exactly this set of traces, and it ends exactly where they say:
      in particular whatever answers anything but 200 before the deadline is asked again. */
  lemma ReadyExactly(w: Wait, username: string, password: string, domain: string, t: seq<Event>)
    ensures ReadyRun(w, username, ReadyStart(password, domain), t).ReadyStuck? <==> !ReadyForm(w, username, password, domain, t)
    ensures forall ok ::
              ReadyRun(w, username, ReadyStart(password, domain), t) == ReadyDone(ok) <==>
              ReadyForm(w, username, password, domain, t) && ReadyEndsAt(w, t, |t| - 1, ok)
  {
    ReadyAgreement(w, username, password, domain, t);
  }

  lemma {:induction false} ReadyAgreement(w: Wait, username: string, password: string, domain: string, t: seq<Event>)
    ensures ReadyAgrees(w, username, password, domain, t)
  {
    if t != [] {
      ReadyAgreement(w, username, password, domain, t[..|t| - 1]);
      ReadyFormSnoc(w, username, password, domain, t);
      ReadyStepAgrees(w, username, password, domain, t);
    }
  }

  lemma ReadyOverIsDone(w: Wait, username: string, password: string, domain: string, t: seq<Event>)
    requires ReadyAgrees(w, username, password, domain, t) && ReadyForm(w, username, password, domain, t)
    ensures ReadyRun(w, username, ReadyStart(password, domain), t).ReadyDone? <==> ReadyOver(w, t, |t| - 1)
  {
    var q := ReadyRun(w, username, ReadyStart(password, domain), t);
    if q.ReadyDone? {
      assert ReadyEndsAt(w, t, |t| - 1, q.ok);
    }
  }

  lemma ReadyStepAgrees(w: Wait, username: string, password: string, domain: string, t: seq<Event>)
    requires t != [] && ReadyAgrees(w, username, password, domain, t[..|t| - 1])
    requires var init, n := t[..|t| - 1], |t| - 1;
             ReadyForm(w, username, password, domain, t) <==>
             && ReadyForm(w, username, password, domain, init) && !ReadyOver(w, init, n - 1)
             && t[n].call == ReadyCallAt(w, username, password, domain, n) && Fits(t[n].call, t[n].reply)
    ensures ReadyAgrees(w, username, password, domain, t)
  {
    var init, n := t[..|t| - 1], |t| - 1;
    var q := ReadyRun(w, username, ReadyStart(password, domain), init);
    if ReadyForm(w, username, password, domain, init) {
      ReadyOverIsDone(w, username, password, domain, init);
      if !q.ReadyDone? {
        assert ReadyCall(w, username, q) == ReadyCallAt(w, username, password, domain, n);
        if ReadyForm(w, username, password, domain, t) {
          ReadyAdvanceAgrees(w, username, password, domain, t, q);
        }
      }
    }
  }

  lemma ReadyAdvanceAgrees(w: Wait, username: string, password: string, domain: string, t: seq<Event>, q: Ready)
    requires t != [] && ReadyStandsAt(w, password, domain, t[..|t| - 1], q)
    requires var n := |t| - 1;
             t[n].call == ReadyCallAt(w, username, password, domain, n) && Fits(t[n].call, t[n].reply)
    ensures var next := ReadyAdvance(w, q, t[|t| - 1].reply);
            && !next.ReadyStuck?
            && (forall ok :: next == ReadyDone(ok) <==> ReadyEndsAt(w, t, |t| - 1, ok))
            && (!next.ReadyDone? ==> ReadyStandsAt(w, password, domain, t, next))
  {
  }

  // ---------- with the password and the domain read first ----------

  /** The readiness check as a whole has this form: the password, the domain, the wait; it
      ends early only without a nonempty password or without any domain. */
  ghost predicate ConfirmForm(w: Wait, username: string, t: seq<Event>, ok: bool) {
    && |t| >= 1 && t[0].call == ListVariables(w.service) && Fits(t[0].call, t[0].reply)
    && if t[0].reply.Failed? || Lookup(t[0].reply.vars, "SETUP_PASSWORD") in {None, Some("")} then |t| == 1 && !ok
       else
         && |t| >= 2 && t[1].call == ListDomains(w.service) && Fits(t[1].call, t[1].reply)
         && if t[1].reply.Failed? || t[1].reply.domains == [] then |t| == 2 && !ok
            else
              var password := t[0].reply.vars["SETUP_PASSWORD"];
              && PickDomain(t[1].reply.domains).Some?
              && var domain := PickDomain(t[1].reply.domains).value.domain;
                 ReadyForm(w, username, password, domain, t[2..]) && ReadyEndsAt(w, t[2..], |t| - 3, ok)
  }

  lemma ReadyFrom(w: Wait, username: string, from: Ready, e: Event, t: seq<Event>)
    ensures ReadyRun(w, username, from, [e] + t) == ReadyRun(w, username, ReadyStep(w, username, from, e), t)
  {
    ReadyConcat(w, username, from, [e], t);
    assert [e][..0] == [];
    assert ReadyRun(w, username, from, [e]) == ReadyStep(w, username, ReadyRun(w, username, from, []), e);
  }

  /** Nothing is left once the check has ended. */
  lemma {:induction false} ReadyOnceDone(w: Wait, username: string, from: Ready, t: seq<Event>)
    requires from.ReadyDone? || from.ReadyStuck?
    ensures ReadyRun(w, username, from, t) == if t == [] then from else ReadyStuck
  {
    if t != [] {
      ReadyOnceDone(w, username, from, t[..|t| - 1]);
    }
  }

  lemma ConfirmExactly(w: Wait, username: string, t: seq<Event>, ok: bool)
    ensures ReadyRun(w, username, ReadPassword, t) == ReadyDone(ok) <==> ConfirmForm(w, username, t, ok)
  {
    if t != [] {
      assert t == [t[0]] + t[1..];
      ReadyFrom(w, username, ReadPassword, t[0], t[1..]);
      var q := ReadyStep(w, username, ReadPassword, t[0]);
      if q.ReadDomains? {
        DomainExactly(w, username, q.password, t[1..], ok);
        assert |t| >= 2 ==> t[1..][1..] == t[2..];
      } else {
        ReadyOnceDone(w, username, q, t[1..]);
      }
    }
  }

  lemma DomainExactly(w: Wait, username: string, password: string, t: seq<Event>, ok: bool)
    ensures ReadyRun(w, username, ReadDomains(password), t) == ReadyDone(ok) <==>
            && |t| >= 1 && t[0].call == ListDomains(w.service) && Fits(t[0].call, t[0].reply)
            && if t[0].reply.Failed? || t[0].reply.domains == [] then |t| == 1 && !ok
               else
                 && PickDomain(t[0].reply.domains).Some?
                 && var domain := PickDomain(t[0].reply.domains).value.domain;
                    ReadyForm(w, username, password, domain, t[1..]) && ReadyEndsAt(w, t[1..], |t| - 2, ok)
  {
    if t != [] {
      assert t == [t[0]] + t[1..];
      ReadyFrom(w, username, ReadDomains(password), t[0], t[1..]);
      var q := ReadyStep(w, username, ReadDomains(password), t[0]);
      if t[0].reply.Domains? {
        PickDomainExactly(t[0].reply.domains);
      }
      if q.ReadyStart? {
        ReadyExactly(w, username, password, q.domain, t[1..]);
      } else {
        ReadyOnceDone(w, username, q, t[1..]);
      }
    }
  }

  /** Why a readiness check that ended badly ended: nothing to authenticate with, nothing to
      ask, a request that threw, or the whole timeout gone by. */
  ghost predicate GaveUp(w: Wait, t: seq<Event>) {
    || (|t| == 1 && (t[0].reply.Variables? ==> Lookup(t[0].reply.vars, "SETUP_PASSWORD") in {None, Some("")}))
    || (|t| == 2 && (t[1].reply.Domains? ==> t[1].reply.domains == []))
    || (|t| >= 3 && t[|t| - 1].call.CheckSetup? && t[|t| - 1].reply.Failed?)
    || (|t| >= 4 && t[2].call.ReadClock? && t[|t| - 1].call.ReadClock? && LateAt(w, t[2..], |t| - 3))
  }

  lemma FormGaveUp(w: Wait, username: string, t: seq<Event>)
    requires ConfirmForm(w, username, t, false)
    ensures GaveUp(w, t)
  {
  }

  /** A request that was answered, but not by 200, is repeated unless a clock reading shows
      the whole timeout to have passed since the wait began. */
  lemma GivesUpOnlyLate(w: Wait, username: string, t: seq<Event>)
    requires ReadyRun(w, username, ReadPassword, t) == ReadyDone(false)
    ensures GaveUp(w, t)
  {
    ConfirmExactly(w, username, t, false);
    FormGaveUp(w, username, t);
  }
}
