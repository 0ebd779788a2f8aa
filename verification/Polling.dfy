/** The two waits of an update: polling `service list` until a deployment settles, and
    the authenticated readiness check.  Each is a resumption: a state says which call
    comes next, and the reply to it gives the next state. */
module Polling {
  import opened Options
  import opened Railway
  import opened Ceiling

  datatype Wait = Wait(service: string, pollSeconds: nat, timeoutMinutes: nat) {
    function PollMs(): nat { pollSeconds * 1000 }

    function TimeoutMs(): nat { timeoutMinutes * 60000 }

    /** max(1, ceil(timeout / period)). */
    function MostObservations(): nat
      requires pollSeconds >= 1
    {
      var whole := (TimeoutMs() + PollMs() - 1) / PollMs();
      if whole == 0 then 1 else whole
    }
  }

  // ---------- waiting for a deployment ----------

  datatype PollResult =
    | Settled(settled: Service)
    | EndedIn(status: DeploymentStatus)
    | TimedOut
    | RunnerFailed

  datatype Poll =
    | PollStart
    | PollSleep(deadline: int)
    | PollList(deadline: int)
    | PollCheck(deadline: int)
    | PollDone(result: PollResult)
    | PollStuck

  /** What one `service list` answer decides; None means poll again.  An answer decides
      when it shows the service in SUCCESS or in a terminal failure, and, if `guard` (the
      deployment that was there before) is given, under an identified different one. */
  function Verdict(service: string, guard: Option<string>, services: seq<Service>): Option<PollResult> {
    var found := FindService(services, service);
    if found.None? || found.value.Status().None? then None
    else
      var status, id := found.value.Status().value, found.value.DeploymentId();
      if status != SUCCESS && !TerminalFailure(status) then None
      else if guard.Some? && (id.None? || id == guard) then None
      else Some(if status == SUCCESS then Settled(found.value) else EndedIn(status))
  }

  ghost predicate FirstNamed(services: seq<Service>, name: string, k: int) {
    0 <= k < |services| && services[k].name == name && forall j :: 0 <= j < k ==> services[j].name != name
  }

  lemma {:induction false} FindsTheFirst(services: seq<Service>, name: string)
    ensures var found := FindService(services, name);
            if found.Some? then exists k :: FirstNamed(services, name, k) && services[k] == found.value
            else forall k :: 0 <= k < |services| ==> services[k].name != name
  {
    if services != [] {
      if services[0].name == name {
        assert FirstNamed(services, name, 0);
      } else {
        FindsTheFirst(services[1..], name);
        if k :| FirstNamed(services[1..], name, k) && FindService(services[1..], name) == Some(services[1..][k]) {
          assert FirstNamed(services, name, k + 1);
        }
        assert forall k :: 1 <= k < |services| ==> services[k] == services[1..][k - 1];
      }
    }
  }

  /** The first service of the name has settled, and under an identified other deployment
      than the guarded one if there is a guard. */
  ghost predicate SettledAt(services: seq<Service>, name: string, guard: Option<string>, k: int) {
    && FirstNamed(services, name, k) && services[k].Status().Some?
    && (services[k].Status().value == SUCCESS || TerminalFailure(services[k].Status().value))
    && (guard.Some? ==> services[k].DeploymentId().Some? && services[k].DeploymentId().value != guard.value)
  }

  /** Exactly which answers decide, and what. */
  lemma VerdictExactly(service: string, guard: Option<string>, services: seq<Service>)
    ensures Verdict(service, guard, services).Some? <==> exists k :: SettledAt(services, service, guard, k)
    ensures forall k :: SettledAt(services, service, guard, k) ==>
              Verdict(service, guard, services) ==
              Some(if services[k].Status() == Some(SUCCESS) then Settled(services[k]) else EndedIn(services[k].Status().value))
  {
    FindsTheFirst(services, service);
    forall k | SettledAt(services, service, guard, k) ensures FindService(services, service) == Some(services[k]) {
      var j :| FirstNamed(services, service, j) && FindService(services, service) == Some(services[j]);
      assert j == k;
    }
    if Verdict(service, guard, services).Some? {
      var k :| FirstNamed(services, service, k) && FindService(services, service) == Some(services[k]);
      assert SettledAt(services, service, guard, k);
    }
  }

  function PollCall(w: Wait, q: Poll): Call {
    match q
    case PollSleep(_) => Sleep(w.PollMs())
    case PollList(_) => ListServices
    case _ => ReadClock
  }

  function PollAdvance(w: Wait, guard: Option<string>, q: Poll, reply: Reply): Poll {
    match q
    case PollStart => if reply.Time? then PollSleep(reply.t + w.TimeoutMs()) else PollStuck
    case PollSleep(d) => PollList(d)
    case PollList(d) =>
      if reply.Services? then
        var verdict := Verdict(w.service, guard, reply.services);
        if verdict.Some? then PollDone(verdict.value) else PollCheck(d)
      else PollDone(RunnerFailed)
    case PollCheck(d) =>
      if reply.Time? && reply.t < d then PollSleep(d) else PollDone(TimedOut)
    case PollDone(_) => PollStuck
    case PollStuck => PollStuck
  }

  function PollStep(w: Wait, guard: Option<string>, q: Poll, e: Event): Poll {
    if !q.PollDone? && e.call == PollCall(w, q) && Fits(e.call, e.reply)
    then PollAdvance(w, guard, q, e.reply)
    else PollStuck
  }

  /** The state after a trace of calls and replies. */
  function PollRun(w: Wait, guard: Option<string>, t: seq<Event>): Poll {
    if t == [] then PollStart
    else PollStep(w, guard, PollRun(w, guard, t[..|t| - 1]), t[|t| - 1])
  }

  /** The `service list` answers in a trace, oldest first. */
  function Listings(t: seq<Event>): seq<seq<Service>> {
    if t == [] then []
    else
      var last := t[|t| - 1];
      Listings(t[..|t| - 1]) + if last.call.ListServices? && last.reply.Services? then [last.reply.services] else []
  }

  /** The whole specification of the wait: the first answer that decides anything. */
  function FirstDecisive(service: string, guard: Option<string>, listings: seq<seq<Service>>): Option<PollResult> {
    if listings == [] then None
    else
      var verdict := Verdict(service, guard, listings[0]);
      if verdict.Some? then verdict else FirstDecisive(service, guard, listings[1..])
  }

  lemma {:induction false} FirstDecisiveSnoc(
    service: string, guard: Option<string>, listings: seq<seq<Service>>, last: seq<Service>)
    ensures FirstDecisive(service, guard, listings + [last]) ==
            var before := FirstDecisive(service, guard, listings);
            if before.Some? then before else Verdict(service, guard, last)
  {
    if listings != [] {
      assert (listings + [last])[1..] == listings[1..] + [last];
      FirstDecisiveSnoc(service, guard, listings[1..], last);
    }
  }

  /** A finished wait yields exactly the first decisive answer; it ends without one
      only by timing out or by a failing call, and never looks past a decisive answer. */
  lemma {:induction false} PollYieldsFirstDecisive(w: Wait, guard: Option<string>, t: seq<Event>)
    requires !PollRun(w, guard, t).PollStuck?
    ensures var q := PollRun(w, guard, t);
            var first := FirstDecisive(w.service, guard, Listings(t));
            if q.PollDone? && (q.result.Settled? || q.result.EndedIn?)
            then first == Some(q.result) && FirstDecisive(w.service, guard, Listings(t[..|t| - 1])).None?
            else first.None?
  {
    if t != [] {
      var init, last := t[..|t| - 1], t[|t| - 1];
      PollYieldsFirstDecisive(w, guard, init);
      if last.reply.Services? {
        FirstDecisiveSnoc(w.service, guard, Listings(init), last.reply.services);
      } else {
        assert Listings(init) + [] == Listings(init);
      }
    }
  }

  /** However often the guarded deployment, or one without an id, is seen in whatever
      state, the wait goes on to the next answer: a client already in a terminal state
      can be recovered by a redeploy. */
  lemma {:induction false} StaleAnswersAreSkipped(
    service: string, prior: string, stale: seq<seq<Service>>, newest: seq<Service>)
    requires forall k :: 0 <= k < |stale| ==> PriorId(stale[k], service) in {None, Some(prior)}
    ensures FirstDecisive(service, Some(prior), stale + [newest]) == Verdict(service, Some(prior), newest)
  {
    if stale != [] {
      assert (stale + [newest])[1..] == stale[1..] + [newest];
      assert PriorId(stale[0], service) in {None, Some(prior)};
      StaleAnswersAreSkipped(service, prior, stale[1..], newest);
    }
  }

  /** How far a wait that has read n answers has got: its clock has moved on by a period
      for every answer, and it has gone on to each further answer before the deadline. */
  ghost predicate PollPace(w: Wait, q: Poll, n: nat, start: int, now: Option<int>) {
    var period, deadline := w.PollMs(), start + w.TimeoutMs();
    match q
    case PollStart => n == 0
    case PollSleep(d) =>
      d == deadline && now.Some? && start + n * period <= now.value && (n >= 1 ==> n * period < w.TimeoutMs())
    case PollList(d) =>
      d == deadline && now.Some? && start + n * period + period <= now.value
      && (n >= 1 ==> n * period < w.TimeoutMs())
    case PollCheck(d) =>
      d == deadline && now.Some? && start + n * period <= now.value && n >= 1
      && (n >= 2 ==> n * period - period < w.TimeoutMs())
    case PollDone(_) => n >= 2 ==> n * period - period < w.TimeoutMs()
    case PollStuck => false
  }

  lemma PollPaceStep(w: Wait, guard: Option<string>, q: Poll, n: nat, start: int, now: Option<int>, e: Event)
    returns (start': int, n': nat)
    requires PollPace(w, q, n, start, now) && !PollStep(w, guard, q, e).PollStuck? && ClockAllows(now, e)
    ensures n' == n + if e.call.ListServices? && e.reply.Services? then 1 else 0
    ensures PollPace(w, PollStep(w, guard, q, e), n', start', ClockAfter(now, e))
  {
    start', n' := start, n;
    assert (n + 1) * w.PollMs() == n * w.PollMs() + w.PollMs();
    match q {
      case PollStart => start' := e.reply.t;
      case PollList(_) => n' := if e.reply.Services? then n + 1 else n;
      case _ =>
    }
  }

  /** `start` is the first clock reading. */
  lemma {:induction false} PollProgress(w: Wait, guard: Option<string>, t: seq<Event>) returns (start: int)
    requires !PollRun(w, guard, t).PollStuck? && ClockLaw(t)
    ensures PollPace(w, PollRun(w, guard, t), |Listings(t)|, start, Earliest(t))
  {
    if t == [] {
      start := 0;
    } else {
      var init, last := t[..|t| - 1], t[|t| - 1];
      start := PollProgress(w, guard, init);
      assert t == init + [last];
      var n;
      start, n := PollPaceStep(w, guard, PollRun(w, guard, init), |Listings(init)|, start, Earliest(init), last);
    }
  }

  /** The deadline is the timeout after the first clock reading. */
  predicate DueAt(w: Wait, q: Poll, t: seq<Event>) {
    match q
    case PollStart => t == []
    case PollSleep(d) => t != [] && t[0].reply.Time? && d == t[0].reply.t + w.TimeoutMs()
    case PollList(d) => t != [] && t[0].reply.Time? && d == t[0].reply.t + w.TimeoutMs()
    case PollCheck(d) => t != [] && t[0].reply.Time? && d == t[0].reply.t + w.TimeoutMs()
    case PollDone(TimedOut) =>
      t != [] && t[0].reply.Time? && t[|t| - 1].reply.Time? && t[|t| - 1].reply.t >= t[0].reply.t + w.TimeoutMs()
    case _ => true
  }

  /** The wait gives up only when a clock reading shows the whole timeout to have passed. */
  lemma {:induction false} TimesOutOnlyLate(w: Wait, guard: Option<string>, t: seq<Event>)
    requires !PollRun(w, guard, t).PollStuck?
    ensures DueAt(w, PollRun(w, guard, t), t)
  {
    if t != [] {
      TimesOutOnlyLate(w, guard, t[..|t| - 1]);
    }
  }

  /** The pace of a wait bounds its answers. */
  lemma PaceBound(w: Wait, n: nat)
    requires w.pollSeconds >= 1 && (n >= 2 ==> n * w.PollMs() - w.PollMs() < w.TimeoutMs())
    ensures n <= w.MostObservations()
  {
    if n >= 2 {
      assert n * w.PollMs() - w.PollMs() == (n - 1) * w.PollMs();
      CeilingBound(n, w.PollMs(), w.TimeoutMs());
    }
  }

  /** Over any clock on which every sleep takes at least its length, the wait reads at
      most max(1, ceil(timeout / period)) answers. */
  lemma PollObservationBound(w: Wait, guard: Option<string>, t: seq<Event>)
    requires !PollRun(w, guard, t).PollStuck? && ClockLaw(t) && w.pollSeconds >= 1
    ensures |Listings(t)| <= w.MostObservations()
  {
    var start := PollProgress(w, guard, t);
    PaceBound(w, |Listings(t)|);
  }

  /** A clock that is lawful over a whole trace is lawful over any tail of it. */
  lemma {:induction false} ClockLawOfTail(base: seq<Event>, t: seq<Event>)
    requires ClockLaw(base + t)
    ensures ClockLaw(t)
    ensures Earliest(t).Some? ==> Earliest(base + t) == Earliest(t)
  {
    if t != [] {
      assert (base + t)[..|base + t| - 1] == base + t[..|t| - 1];
      ClockLawOfTail(base, t[..|t| - 1]);
    }
  }

  /** One call of the wait and the state it leads to. */
  method PollAsk(pf: Platform, call: Call, w: Wait, guard: Option<string>, ghost base: seq<Event>, ghost seen: seq<Event>)
    returns (reply: Reply, ghost seen': seq<Event>)
    requires pf.Valid() && pf.trace == base + seen
    modifies pf
    ensures pf.Valid() && pf.trace == base + seen' && Fits(call, reply)
    ensures PollRun(w, guard, seen') == PollStep(w, guard, PollRun(w, guard, seen), Event(call, reply))
    ensures pf.now >= old(pf.now) + if call.Sleep? then call.ms else 0
    ensures call.ReadClock? ==> reply.t == pf.now
  {
    reply := pf.Invoke(call);
    seen' := seen + [Event(call, reply)];
    assert base + seen + [Event(call, reply)] == base + seen';
  }

  /** One turn of the loop's branches over an answer. */
  method Observe(service: string, guard: Option<string>, services: seq<Service>)
    returns (decision: Option<PollResult>)
    ensures decision == Verdict(service, guard, services)
  {
    var found := FindService(services, service);
    if found.None? {
      return None;
    }
    var status, observedId := found.value.Status(), found.value.DeploymentId();
    if status == Some(SUCCESS) {
      if guard.None? {
        return Some(Settled(found.value));
      }
      if observedId.Some? && observedId != guard {
        return Some(Settled(found.value));
      }
      return None;
    }
    if status.Some? && TerminalFailure(status.value) {
      var isPriorDeployment := guard.Some? && (observedId.None? || observedId == guard);
      if !isPriorDeployment {
        return Some(EndedIn(status.value));
      }
    }
    return None;
  }

  /** One `service list` of the loop: None means go on to the deadline check. */
  method ListOnce(pf: Platform, w: Wait, guard: Option<string>, ghost deadline: int,
                  ghost base: seq<Event>, ghost seen: seq<Event>)
    returns (decision: Option<PollResult>, ghost seen': seq<Event>)
    requires pf.Valid() && pf.trace == base + seen && PollRun(w, guard, seen) == PollList(deadline)
    modifies pf
    ensures pf.Valid() && pf.trace == base + seen' && pf.now >= old(pf.now)
    ensures PollRun(w, guard, seen') == if decision.Some? then PollDone(decision.value) else PollCheck(deadline)
  {
    var listed;
    listed, seen' := PollAsk(pf, ListServices, w, guard, base, seen);
    if listed.Failed? {
      return Some(RunnerFailed), seen';
    }
    decision := Observe(w.service, guard, listed.services);
  }

  /** pollServiceUntilSuccess. */
  method PollServiceUntilSuccess(pf: Platform, w: Wait, guard: Option<string>)
    returns (result: PollResult, ghost seen: seq<Event>)
    requires pf.Valid() && w.pollSeconds >= 1
    modifies pf
    ensures pf.Valid() && pf.trace == old(pf.trace) + seen
    ensures PollRun(w, guard, seen) == PollDone(result)
    ensures result.Settled? || result.EndedIn? <==> FirstDecisive(w.service, guard, Listings(seen)).Some?
    ensures result.Settled? || result.EndedIn? ==> FirstDecisive(w.service, guard, Listings(seen)) == Some(result)
    ensures |Listings(seen)| <= w.MostObservations()
  {
    result, seen := PollLoop(pf, w, guard);
    ClockLawOfTail(old(pf.trace), seen);
    PollYieldsFirstDecisive(w, guard, seen);
    PollObservationBound(w, guard, seen);
  }

  /** One turn of the loop: a sleep, a listing, and the deadline check if undecided. */
  method PollTurn(pf: Platform, w: Wait, guard: Option<string>, deadline: int,
                  ghost base: seq<Event>, ghost seen: seq<Event>)
    returns (decision: Option<PollResult>, ghost seen': seq<Event>)
    requires pf.Valid() && pf.trace == base + seen && PollRun(w, guard, seen) == PollSleep(deadline)
    modifies pf
    ensures pf.Valid() && pf.trace == base + seen'
    ensures PollRun(w, guard, seen') == if decision.Some? then PollDone(decision.value) else PollSleep(deadline)
    ensures decision.None? ==> old(pf.now) + w.PollMs() <= pf.now < deadline
  {
    var slept, clock;
    slept, seen' := PollAsk(pf, Sleep(w.PollMs()), w, guard, base, seen);
    decision, seen' := ListOnce(pf, w, guard, deadline, base, seen');
    if decision.None? {
      clock, seen' := PollAsk(pf, ReadClock, w, guard, base, seen');
      if clock.t >= deadline {
        decision := Some(TimedOut);
      }
    }
  }

  method PollLoop(pf: Platform, w: Wait, guard: Option<string>)
    returns (result: PollResult, ghost seen: seq<Event>)
    requires pf.Valid() && w.pollSeconds >= 1
    modifies pf
    ensures pf.Valid() && pf.trace == old(pf.trace) + seen
    ensures PollRun(w, guard, seen) == PollDone(result)
  {
    ghost var base := pf.trace;
    assert base == base + [];
    var clock;
    clock, seen := PollAsk(pf, ReadClock, w, guard, base, []);
    var deadline := clock.t + w.TimeoutMs();
    var decision: Option<PollResult> := None;
    while decision.None?
      invariant pf.Valid() && pf.trace == base + seen
      invariant PollRun(w, guard, seen) == if decision.Some? then PollDone(decision.value) else PollSleep(deadline)
      decreases decision.None?, deadline - pf.now
    {
      decision, seen := PollTurn(pf, w, guard, deadline, base, seen);
    }
    result := decision.value;
  }

  // ---------- waiting for an authenticated answer ----------

  datatype Ready =
    | ReadPassword
    | ReadDomains(password: string)
    | ReadyStart(password: string, domain: string)
    | ReadyCheck(password: string, domain: string, deadline: int)
    | ReadySleep(password: string, domain: string, deadline: int)
    | ReadyClock(password: string, domain: string, deadline: int)
    | ReadyDone(ok: bool)
    | ReadyStuck

  function ReadyCall(w: Wait, username: string, q: Ready): Call {
    match q
    case ReadPassword => ListVariables(w.service)
    case ReadDomains(_) => ListDomains(w.service)
    case ReadyCheck(password, domain, _) => CheckSetup(domain, username, password)
    case ReadySleep(_, _, _) => Sleep(w.PollMs())
    case _ => ReadClock
  }

  function ReadyAdvance(w: Wait, q: Ready, reply: Reply): Ready {
    match q
    case ReadPassword =>
      if reply.Variables? && Lookup(reply.vars, "SETUP_PASSWORD") !in {None, Some("")}
      then ReadDomains(reply.vars["SETUP_PASSWORD"])
      else ReadyDone(false)
    case ReadDomains(password) =>
      if reply.Domains? && PickDomain(reply.domains).Some?
      then ReadyStart(password, PickDomain(reply.domains).value.domain)
      else ReadyDone(false)
    case ReadyStart(password, domain) =>
      if reply.Time? then ReadyCheck(password, domain, reply.t + w.TimeoutMs()) else ReadyStuck
    case ReadyCheck(password, domain, d) =>
      if reply.Failed? then ReadyDone(false)
      else if reply == HttpStatus(200) then ReadyDone(true)
      else ReadySleep(password, domain, d)
    case ReadySleep(password, domain, d) => ReadyClock(password, domain, d)
    case ReadyClock(password, domain, d) =>
      if reply.Time? && reply.t < d then ReadyCheck(password, domain, d) else ReadyDone(false)
    case ReadyDone(_) => ReadyStuck
    case ReadyStuck => ReadyStuck
  }

  function ReadyStep(w: Wait, username: string, q: Ready, e: Event): Ready {
    if !q.ReadyDone? && e.call == ReadyCall(w, username, q) && Fits(e.call, e.reply)
    then ReadyAdvance(w, q, e.reply)
    else ReadyStuck
  }

  /** The state after a trace that starts in state `from`. */
  function ReadyRun(w: Wait, username: string, from: Ready, t: seq<Event>): Ready {
    if t == [] then from
    else ReadyStep(w, username, ReadyRun(w, username, from, t[..|t| - 1]), t[|t| - 1])
  }

  lemma {:induction false} ReadyConcat(w: Wait, username: string, from: Ready, a: seq<Event>, b: seq<Event>)
    ensures ReadyRun(w, username, from, a + b) == ReadyRun(w, username, ReadyRun(w, username, from, a), b)
  {
    if b == [] {
      assert a + b == a;
    } else {
      ReadyConcat(w, username, from, a, b[..|b| - 1]);
      assert a + b == (a + b[..|b| - 1]) + [b[|b| - 1]];
    }
  }

  /** The readiness answers in a trace. */
  function Checks(t: seq<Event>): nat {
    if t == [] then 0
    else Checks(t[..|t| - 1]) + if t[|t| - 1].call.CheckSetup? then 1 else 0
  }

  ghost predicate ReadyPace(w: Wait, q: Ready, n: nat, start: int, now: Option<int>) {
    var period, deadline := w.PollMs(), start + w.TimeoutMs();
    match q
    case ReadyCheck(_, _, d) =>
      d == deadline && now.Some? && start + n * period <= now.value && (n >= 1 ==> n * period < w.TimeoutMs())
    case ReadySleep(_, _, d) =>
      d == deadline && now.Some? && start + n * period - period <= now.value && n >= 1
      && (n >= 2 ==> n * period - period < w.TimeoutMs())
    case ReadyClock(_, _, d) =>
      d == deadline && now.Some? && start + n * period <= now.value && n >= 1
      && (n >= 2 ==> n * period - period < w.TimeoutMs())
    case ReadyDone(_) => n >= 2 ==> n * period - period < w.TimeoutMs()
    case ReadyStuck => false
    case _ => n == 0
  }

  lemma ReadyPaceStep(w: Wait, username: string, q: Ready, n: nat, start: int, now: Option<int>, e: Event)
    returns (start': int, n': nat)
    requires ReadyPace(w, q, n, start, now) && !ReadyStep(w, username, q, e).ReadyStuck? && ClockAllows(now, e)
    ensures n' == n + if e.call.CheckSetup? then 1 else 0
    ensures ReadyPace(w, ReadyStep(w, username, q, e), n', start', ClockAfter(now, e))
  {
    start', n' := start, n;
    assert (n + 1) * w.PollMs() == n * w.PollMs() + w.PollMs();
    match q {
      case ReadyStart(_, _) => start' := e.reply.t;
      case ReadyCheck(_, _, _) => n' := n + 1;
      case _ =>
    }
  }

  /** A wait that has not asked yet. */
  predicate Unasked(q: Ready) {
    q.ReadPassword? || q.ReadDomains? || q.ReadyStart?
  }

  lemma {:induction false} ReadyProgress(w: Wait, username: string, from: Ready, t: seq<Event>) returns (start: int)
    requires Unasked(from) && !ReadyRun(w, username, from, t).ReadyStuck? && ClockLaw(t)
    ensures ReadyPace(w, ReadyRun(w, username, from, t), Checks(t), start, Earliest(t))
  {
    if t == [] {
      start := 0;
    } else {
      var init, last := t[..|t| - 1], t[|t| - 1];
      start := ReadyProgress(w, username, from, init);
      var n;
      start, n := ReadyPaceStep(w, username, ReadyRun(w, username, from, init), Checks(init), start, Earliest(init), last);
    }
  }

  lemma PaceOf(w: Wait, q: Ready, n: nat, start: int, now: Option<int>)
    requires ReadyPace(w, q, n, start, now)
    ensures n >= 2 ==> n * w.PollMs() - w.PollMs() < w.TimeoutMs()
  {
    assert n * w.PollMs() == (n - 1) * w.PollMs() + w.PollMs();
  }

  /** The readiness wait asks at most max(1, ceil(timeout / period)) times. */
  lemma ReadyCheckBound(w: Wait, username: string, from: Ready, t: seq<Event>)
    requires Unasked(from) && !ReadyRun(w, username, from, t).ReadyStuck? && ClockLaw(t) && w.pollSeconds >= 1
    ensures Checks(t) <= w.MostObservations()
  {
    var start := ReadyProgress(w, username, from, t);
    PaceOf(w, ReadyRun(w, username, from, t), Checks(t), start, Earliest(t));
    PaceBound(w, Checks(t));
  }

  ghost predicate Entered(w: Wait, t: seq<Event>, password: string, domain: string) {
    && |t| >= 2
    && t[0].call == ListVariables(w.service) && t[0].reply.Variables?
    && Lookup(t[0].reply.vars, "SETUP_PASSWORD") == Some(password) && password != ""
    && t[1].call == ListDomains(w.service) && t[1].reply.Domains?
    && Some(domain) == (if PickDomain(t[1].reply.domains).Some? then Some(PickDomain(t[1].reply.domains).value.domain) else None)
  }

  ghost predicate Authenticated(w: Wait, username: string, t: seq<Event>, q: Ready) {
    match q
    case ReadPassword => t == []
    case ReadDomains(p) =>
      |t| == 1 && t[0].call == ListVariables(w.service) && t[0].reply.Variables?
      && Lookup(t[0].reply.vars, "SETUP_PASSWORD") == Some(p) && p != ""
    case ReadyStart(p, d) => Entered(w, t, p, d)
    case ReadyCheck(p, d, _) => Entered(w, t, p, d)
    case ReadySleep(p, d, _) => Entered(w, t, p, d)
    case ReadyClock(p, d, _) => Entered(w, t, p, d)
    case ReadyDone(true) =>
      exists p, d :: Entered(w, t, p, d) && |t| >= 3 && t[|t| - 1] == Event(CheckSetup(d, username, p), HttpStatus(200))
    case _ => true
  }

  /** The readiness check succeeds only on a 200 to a request made with the service's own
      nonempty setup password at the service's own domain. */
  lemma {:induction false} ReadyMeansAuthenticated(w: Wait, username: string, t: seq<Event>)
    requires !ReadyRun(w, username, ReadPassword, t).ReadyStuck?
    ensures Authenticated(w, username, t, ReadyRun(w, username, ReadPassword, t))
  {
    if t != [] {
      var init, last := t[..|t| - 1], t[|t| - 1];
      ReadyMeansAuthenticated(w, username, init);
      assert t == init + [last];
      StaysAuthenticated(w, username, init, ReadyRun(w, username, ReadPassword, init), last);
    }
  }

  lemma StaysAuthenticated(w: Wait, username: string, t: seq<Event>, q: Ready, e: Event)
    requires Authenticated(w, username, t, q) && !ReadyStep(w, username, q, e).ReadyStuck?
    ensures Authenticated(w, username, t + [e], ReadyStep(w, username, q, e))
  {
    match q {
      case ReadyCheck(p, d, _) => assert Entered(w, t + [e], p, d);
      case _ =>
    }
  }

  /** One call of the readiness check and the state it leads to. */
  method ReadyAsk(pf: Platform, call: Call, w: Wait, username: string, ghost from: Ready, ghost base: seq<Event>, ghost seen: seq<Event>)
    returns (reply: Reply, ghost seen': seq<Event>)
    requires pf.Valid() && pf.trace == base + seen
    modifies pf
    ensures pf.Valid() && pf.trace == base + seen' && Fits(call, reply)
    ensures ReadyRun(w, username, from, seen') == ReadyStep(w, username, ReadyRun(w, username, from, seen), Event(call, reply))
    ensures pf.now >= old(pf.now) + if call.Sleep? then call.ms else 0
    ensures call.ReadClock? ==> reply.t == pf.now
  {
    reply := pf.Invoke(call);
    seen' := seen + [Event(call, reply)];
    assert base + seen + [Event(call, reply)] == base + seen';
  }

  /** One turn of the loop: a request, and if it answers anything but 200 a sleep and the
      deadline check. */
  method ReadyTurn(pf: Platform, w: Wait, username: string, password: string, domain: string, deadline: int,
                   ghost from: Ready, ghost base: seq<Event>, ghost seen: seq<Event>)
    returns (decision: Option<bool>, ghost seen': seq<Event>)
    requires pf.Valid() && pf.trace == base + seen
    requires ReadyRun(w, username, from, seen) == ReadyCheck(password, domain, deadline)
    modifies pf
    ensures pf.Valid() && pf.trace == base + seen'
    ensures ReadyRun(w, username, from, seen') ==
            if decision.Some? then ReadyDone(decision.value) else ReadyCheck(password, domain, deadline)
    ensures decision.None? ==> old(pf.now) + w.PollMs() <= pf.now < deadline
  {
    var lastStatus;
    lastStatus, seen' := ReadyAsk(pf, CheckSetup(domain, username, password), w, username, from, base, seen);
    if lastStatus.Failed? {
      return Some(false), seen';
    }
    if lastStatus.code == 200 {
      return Some(true), seen';
    }
    decision, seen' := ReadyPause(pf, w, username, password, domain, deadline, from, base, seen');
  }

  method ReadyPause(pf: Platform, w: Wait, username: string, password: string, domain: string, deadline: int,
                    ghost from: Ready, ghost base: seq<Event>, ghost seen: seq<Event>)
    returns (decision: Option<bool>, ghost seen': seq<Event>)
    requires pf.Valid() && pf.trace == base + seen
    requires ReadyRun(w, username, from, seen) == ReadySleep(password, domain, deadline)
    modifies pf
    ensures pf.Valid() && pf.trace == base + seen'
    ensures ReadyRun(w, username, from, seen') ==
            if decision.Some? then ReadyDone(decision.value) else ReadyCheck(password, domain, deadline)
    ensures decision != Some(true)
    ensures decision.None? ==> old(pf.now) + w.PollMs() <= pf.now < deadline
  {
    var slept, clock;
    slept, seen' := ReadyAsk(pf, Sleep(w.PollMs()), w, username, from, base, seen);
    clock, seen' := ReadyAsk(pf, ReadClock, w, username, from, base, seen');
    decision := if clock.t >= deadline then Some(false) else None;
  }

  /** waitForSetupReady: false stands for every error it throws. */
  method WaitForSetupReady(pf: Platform, w: Wait, username: string, password: string, domain: string)
    returns (ok: bool, ghost seen: seq<Event>)
    requires pf.Valid() && w.pollSeconds >= 1
    modifies pf
    ensures pf.Valid() && pf.trace == old(pf.trace) + seen
    ensures ReadyRun(w, username, ReadyStart(password, domain), seen) == ReadyDone(ok)
    ensures Checks(seen) <= w.MostObservations()
  {
    ok, seen := ReadyLoop(pf, w, username, password, domain);
    ClockLawOfTail(old(pf.trace), seen);
    ReadyCheckBound(w, username, ReadyStart(password, domain), seen);
  }

  method ReadyLoop(pf: Platform, w: Wait, username: string, password: string, domain: string)
    returns (ok: bool, ghost seen: seq<Event>)
    requires pf.Valid() && w.pollSeconds >= 1
    modifies pf
    ensures pf.Valid() && pf.trace == old(pf.trace) + seen
    ensures ReadyRun(w, username, ReadyStart(password, domain), seen) == ReadyDone(ok)
  {
    ghost var base, from := pf.trace, ReadyStart(password, domain);
    assert base == base + [];
    var clock;
    clock, seen := ReadyAsk(pf, ReadClock, w, username, from, base, []);
    var deadline := clock.t + w.TimeoutMs();
    var decision: Option<bool> := None;
    while decision.None?
      invariant pf.Valid() && pf.trace == base + seen
      invariant ReadyRun(w, username, from, seen) ==
                if decision.Some? then ReadyDone(decision.value) else ReadyCheck(password, domain, deadline)
      decreases decision.None?, deadline - pf.now
    {
      decision, seen := ReadyTurn(pf, w, username, password, domain, deadline, from, base, seen);
    }
    ok := decision.value;
  }

  /** The password and the domain to ask; None stands for an error. */
  method FindEntrance(pf: Platform, w: Wait, username: string)
    returns (entrance: Option<(string, string)>, ghost seen: seq<Event>)
    requires pf.Valid()
    modifies pf
    ensures pf.Valid() && pf.trace == old(pf.trace) + seen
    ensures ReadyRun(w, username, ReadPassword, seen) ==
            if entrance.Some? then ReadyStart(entrance.value.0, entrance.value.1) else ReadyDone(false)
  {
    ghost var base := pf.trace;
    assert base == base + [];
    var read, listed;
    read, seen := ReadyAsk(pf, ListVariables(w.service), w, username, ReadPassword, base, []);
    if read.Failed? {
      return None, seen;
    }
    var password := Lookup(read.vars, "SETUP_PASSWORD");
    if password == None || password == Some("") {
      return None, seen;
    }
    listed, seen := ReadyAsk(pf, ListDomains(w.service), w, username, ReadPassword, base, seen);
    if listed.Failed? {
      return None, seen;
    }
    var domain := PickDomain(listed.domains);
    entrance := if domain.Some? then Some((password.value, domain.value.domain)) else None;
  }

  /** assertInstanceReady: false stands for every error it throws. */
  method AssertInstanceReady(pf: Platform, w: Wait, username: string)
    returns (ok: bool, ghost seen: seq<Event>)
    requires pf.Valid() && w.pollSeconds >= 1
    modifies pf
    ensures pf.Valid() && pf.trace == old(pf.trace) + seen
    ensures ReadyRun(w, username, ReadPassword, seen) == ReadyDone(ok)
  {
    var entrance;
    entrance, seen := FindEntrance(pf, w, username);
    if entrance.None? {
      return false, seen;
    }
    ghost var waited;
    ok, waited := WaitForSetupReady(pf, w, username, entrance.value.0, entrance.value.1);
    seen := ReadyJoined(w, username, old(pf.trace), seen, entrance.value, waited, ok);
  }

  lemma ReadyJoined(w: Wait, username: string, base: seq<Event>, found: seq<Event>, entrance: (string, string),
                    waited: seq<Event>, ok: bool)
    returns (whole: seq<Event>)
    requires ReadyRun(w, username, ReadPassword, found) == ReadyStart(entrance.0, entrance.1)
    requires ReadyRun(w, username, ReadyStart(entrance.0, entrance.1), waited) == ReadyDone(ok)
    ensures base + found + waited == base + whole && ReadyRun(w, username, ReadPassword, whole) == ReadyDone(ok)
  {
    ReadyConcat(w, username, ReadPassword, found, waited);
    whole := found + waited;
    assert base + found + waited == base + whole;
  }
}
