/** Provisioning a client: reuse the project's sole healthy service, or create one and
    configure it before its one real build; then a domain and an authenticated answer.
    A resumption over calls and replies like the live update, and the program proved to
    follow it. */
module Provision {
  import opened Options
  import opened Decimal
  import opened Railway
  import opened Polling

  /** `entries` are the variables of a new service, in the order they are written. */
  datatype Plan = Plan(
    entries: seq<(string, string)>, port: nat, username: string, password: string, token: string,
    pollSeconds: nat, timeoutMinutes: nat, forceNew: bool)
  {
    function WaitFor(service: string): Wait { Wait(service, pollSeconds, timeoutMinutes) }
  }

  function Entries(templateRef: string, port: nat, password: string, token: string): seq<(string, string)> {
    [("OPENCLAW_TEMPLATE_REF", templateRef), ("PORT", Digits(port)),
     ("OPENCLAW_STATE_DIR", "/data/.openclaw"), ("OPENCLAW_WORKSPACE_DIR", "/data/workspace"),
     ("SETUP_PASSWORD", password), ("OPENCLAW_GATEWAY_TOKEN", token)]
  }

  datatype Account = Account(service: Service, password: string, token: string, reused: bool)

  datatype Outcome = Errored | Provisioned(account: Account)

  // ---------- choosing the service ----------

  datatype Sole = Nobody | Only(service: Service) | Several

  /** selectSoleService: never picks one of several. */
  function SelectSole(candidates: seq<Service>): Sole {
    if |candidates| > 1 then Several
    else if candidates == [] then Nobody
    else Only(candidates[0])
  }

  predicate HasId(services: seq<Service>, id: string) {
    exists k :: 0 <= k < |services| && services[k].id == id
  }

  /** The services that were not there before, by id. */
  function Created(before: seq<Service>, after: seq<Service>): seq<Service> {
    if after == [] then []
    else (if HasId(before, after[0].id) then [] else [after[0]]) + Created(before, after[1..])
  }

  // ---------- the protocol ----------

  datatype Pc =
    | Linking
    | ListBefore
    | Upping(before: seq<Service>)
    | ListAfter(before: seq<Service>)
    | Selecting(created: Service)
    | Attaching(created: Service)
    | Writing(created: Service, k: nat)
    | Redeploying(created: Service)
    | Awaiting(created: Service, q: Poll)
    | ReadingPassword(service: Service)
    | ReadingToken(service: Service, password: string)
    | FindDomain(account: Account)
    | MakingDomain(account: Account)
    | FindMadeDomain(account: Account)
    | Porting(account: Account, domain: Domain)
    | Readying(account: Account, r: Ready)
    | Halted(outcome: Outcome)
    | Stuck

  function NextCall(o: Plan, pc: Pc): Call {
    match pc
    case Linking => LinkProject
    case ListBefore => ListServices
    case Upping(_) => Up
    case ListAfter(_) => ListServices
    case Selecting(c) => LinkService(c.name)
    case Attaching(_) => AddVolume
    case Writing(c, k) => if k < |o.entries| then SetVariable(c.name, o.entries[k].0, o.entries[k].1) else ReadClock
    case Redeploying(c) => Redeploy(c.name)
    case Awaiting(c, q) => PollCall(o.WaitFor(c.name), q)
    case ReadingPassword(s) => ListVariables(s.name)
    case ReadingToken(s, _) => ListVariables(s.name)
    case FindDomain(a) => ListDomains(a.service.name)
    case MakingDomain(a) => MakeDomain(a.service.name, o.port)
    case FindMadeDomain(a) => ListDomains(a.service.name)
    case Porting(a, d) => SetDomainPort(a.service.name, d.domain, o.port)
    case Readying(a, r) => ReadyCall(o.WaitFor(a.service.name), o.username, r)
    case _ => ReadClock
  }

  /** What the first listing leads to. */
  function Choose(o: Plan, before: seq<Service>): Pc {
    match SelectSole(before)
    case Several => Halted(Errored)
    case Nobody => Upping(before)
    case Only(s) =>
      if o.forceNew then Upping(before)
      else if s.Status() == Some(SUCCESS) then ReadingPassword(s)
      else Halted(Errored)
  }

  function AfterPoll(o: Plan, created: Service, q: Poll): Pc {
    match q
    case PollDone(result) =>
      if result.Settled? then FindDomain(Account(result.settled, o.password, o.token, false)) else Halted(Errored)
    case PollStuck => Stuck
    case _ => Awaiting(created, q)
  }

  function AfterReady(a: Account, r: Ready): Pc {
    match r
    case ReadyDone(ok) => Halted(if ok then Provisioned(a) else Errored)
    case ReadyStuck => Stuck
    case _ => Readying(a, r)
  }

  /** A secret that is set to something. */
  function Secret(reply: Reply, name: string): Option<string> {
    if reply.Variables? && Lookup(reply.vars, name) !in {None, Some("")} then Lookup(reply.vars, name) else None
  }

  function WithDomain(o: Plan, a: Account, d: Domain): Pc {
    if d.port == Some(o.port) then Readying(a, ReadyStart(a.password, d.domain)) else Porting(a, d)
  }

  /** k variables are written. */
  function Written(o: Plan, c: Service, k: nat): Pc {
    if k < |o.entries| then Writing(c, k) else Redeploying(c)
  }

  function Advance(o: Plan, pc: Pc, reply: Reply): Pc {
    match pc
    case Linking => if reply.Done? then ListBefore else Halted(Errored)
    case ListBefore => if reply.Services? then Choose(o, reply.services) else Halted(Errored)
    case Upping(before) => if reply.Done? then ListAfter(before) else Halted(Errored)
    case ListAfter(before) =>
      if reply.Services? && SelectSole(Created(before, reply.services)).Only?
      then Selecting(SelectSole(Created(before, reply.services)).service) else Halted(Errored)
    case Selecting(c) => if reply.Done? then Attaching(c) else Halted(Errored)
    case Attaching(c) => if reply.Done? then Written(o, c, 0) else Halted(Errored)
    case Writing(c, k) => if reply.Done? then Written(o, c, k + 1) else Halted(Errored)
    case Redeploying(c) => if reply.Done? then Awaiting(c, PollStart) else Halted(Errored)
    case Awaiting(c, q) => AfterPoll(o, c, PollAdvance(o.WaitFor(c.name), None, q, reply))
    case ReadingPassword(s) =>
      var password := Secret(reply, "SETUP_PASSWORD");
      if password.Some? then ReadingToken(s, password.value) else Halted(Errored)
    case ReadingToken(s, password) =>
      var token := Secret(reply, "OPENCLAW_GATEWAY_TOKEN");
      if token.Some? then FindDomain(Account(s, password, token.value, true)) else Halted(Errored)
    case FindDomain(a) =>
      if !reply.Domains? then Halted(Errored)
      else if PickDomain(reply.domains).Some? then WithDomain(o, a, PickDomain(reply.domains).value)
      else MakingDomain(a)
    case MakingDomain(a) => if reply.Done? then FindMadeDomain(a) else Halted(Errored)
    case FindMadeDomain(a) =>
      if reply.Domains? && PickDomain(reply.domains).Some?
      then WithDomain(o, a, PickDomain(reply.domains).value) else Halted(Errored)
    case Porting(a, _) =>
      if reply.Domains? && reply.domains != []
      then Readying(a, ReadyStart(a.password, reply.domains[0].domain)) else Halted(Errored)
    case Readying(a, r) => AfterReady(a, ReadyAdvance(o.WaitFor(a.service.name), r, reply))
    case _ => Stuck
  }

  function Step(o: Plan, pc: Pc, e: Event): Pc {
    if !pc.Halted? && e.call == NextCall(o, pc) && Fits(e.call, e.reply)
    then Advance(o, pc, e.reply)
    else Stuck
  }

  function RunFrom(o: Plan, from: Pc, t: seq<Event>): Pc {
    if t == [] then from
    else Step(o, RunFrom(o, from, t[..|t| - 1]), t[|t| - 1])
  }

  function Run(o: Plan, t: seq<Event>): Pc {
    RunFrom(o, Linking, t)
  }

  lemma RunSnoc(o: Plan, from: Pc, t: seq<Event>, e: Event)
    ensures RunFrom(o, from, t + [e]) == Step(o, RunFrom(o, from, t), e)
  {
    assert (t + [e])[..|t|] == t;
  }

  lemma {:induction false} RunConcat(o: Plan, from: Pc, a: seq<Event>, b: seq<Event>)
    ensures RunFrom(o, from, a + b) == RunFrom(o, RunFrom(o, from, a), b)
  {
    if b == [] {
      assert a + b == a;
    } else {
      RunConcat(o, from, a, b[..|b| - 1]);
      assert (a + b)[..|a + b| - 1] == a + b[..|b| - 1];
    }
  }

  lemma Joined(base: seq<Event>, seen: seq<Event>, part: seq<Event>) returns (whole: seq<Event>)
    ensures whole == seen + part && base + seen + part == base + whole
  {
    whole := seen + part;
    assert base + seen + part == base + whole;
  }

  lemma PollMove(o: Plan, c: Service, q: Poll, e: Event)
    requires !PollStep(o.WaitFor(c.name), None, q, e).PollStuck?
    ensures !q.PollStuck? && !q.PollDone?
    ensures Step(o, AfterPoll(o, c, q), e) == AfterPoll(o, c, PollStep(o.WaitFor(c.name), None, q, e))
  {
  }

  lemma ReadyMove(o: Plan, a: Account, r: Ready, e: Event)
    requires !ReadyStep(o.WaitFor(a.service.name), o.username, r, e).ReadyStuck?
    ensures !r.ReadyStuck? && !r.ReadyDone?
    ensures Step(o, AfterReady(a, r), e) == AfterReady(a, ReadyStep(o.WaitFor(a.service.name), o.username, r, e))
  {
  }

  /** A poll, seen from the provisioning run. */
  lemma {:induction false} PollInside(o: Plan, c: Service, s: seq<Event>)
    requires !PollRun(o.WaitFor(c.name), None, s).PollStuck?
    ensures RunFrom(o, Awaiting(c, PollStart), s) == AfterPoll(o, c, PollRun(o.WaitFor(c.name), None, s))
  {
    if s != [] {
      var init, last := s[..|s| - 1], s[|s| - 1];
      PollMove(o, c, PollRun(o.WaitFor(c.name), None, init), last);
      PollInside(o, c, init);
    }
  }

  lemma {:induction false} ReadyInside(o: Plan, a: Account, from: Ready, s: seq<Event>)
    requires !ReadyRun(o.WaitFor(a.service.name), o.username, from, s).ReadyStuck?
    ensures RunFrom(o, AfterReady(a, from), s) ==
            AfterReady(a, ReadyRun(o.WaitFor(a.service.name), o.username, from, s))
  {
    if s != [] {
      var init, last := s[..|s| - 1], s[|s| - 1];
      ReadyMove(o, a, ReadyRun(o.WaitFor(a.service.name), o.username, from, init), last);
      ReadyInside(o, a, from, init);
    }
  }

  lemma PollPart(o: Plan, base: seq<Event>, seen: seq<Event>, c: Service, part: seq<Event>, result: PollResult)
    returns (whole: seq<Event>)
    requires Run(o, seen) == Awaiting(c, PollStart)
    requires PollRun(o.WaitFor(c.name), None, part) == PollDone(result)
    ensures base + seen + part == base + whole && Run(o, whole) == AfterPoll(o, c, PollDone(result))
  {
    PollInside(o, c, part);
    whole := Joined(base, seen, part);
    RunConcat(o, Linking, seen, part);
  }

  lemma ReadyPart(o: Plan, base: seq<Event>, seen: seq<Event>, a: Account, from: Ready, part: seq<Event>, ok: bool)
    returns (whole: seq<Event>)
    requires Run(o, seen) == AfterReady(a, from)
    requires ReadyRun(o.WaitFor(a.service.name), o.username, from, part) == ReadyDone(ok)
    ensures base + seen + part == base + whole && Run(o, whole) == AfterReady(a, ReadyDone(ok))
  {
    ReadyInside(o, a, from, part);
    whole := Joined(base, seen, part);
    RunConcat(o, Linking, seen, part);
  }

  // ---------- the program ----------

  method Ask(pf: Platform, call: Call, o: Plan, ghost base: seq<Event>, ghost seen: seq<Event>)
    returns (reply: Reply, ghost seen': seq<Event>)
    requires pf.Valid() && pf.trace == base + seen
    modifies pf
    ensures pf.Valid() && pf.trace == base + seen' && Fits(call, reply)
    ensures Run(o, seen') == Step(o, Run(o, seen), Event(call, reply))
  {
    reply := pf.Invoke(call);
    seen' := seen + [Event(call, reply)];
    RunSnoc(o, Linking, seen, Event(call, reply));
    assert base + seen + [Event(call, reply)] == base + seen';
  }

  /** `up`, and the one service that is there now and was not before. */
  method CreateService(pf: Platform, o: Plan, before: seq<Service>, ghost base: seq<Event>, ghost seen: seq<Event>)
    returns (created: Option<Service>, ghost seen': seq<Event>)
    requires pf.Valid() && pf.trace == base + seen && Run(o, seen) == Upping(before)
    modifies pf
    ensures pf.Valid() && pf.trace == base + seen'
    ensures Run(o, seen') == if created.Some? then Selecting(created.value) else Halted(Errored)
  {
    var upped, listed;
    upped, seen' := Ask(pf, Up, o, base, seen);
    if upped.Failed? {
      return None, seen';
    }
    listed, seen' := Ask(pf, ListServices, o, base, seen');
    if listed.Failed? {
      return None, seen';
    }
    var sole := SelectSole(Created(before, listed.services));
    created := if sole.Only? then Some(sole.service) else None;
  }

  /** Link, attach the volume, write every variable. */
  method ConfigureService(pf: Platform, o: Plan, created: Service, ghost base: seq<Event>, ghost seen: seq<Event>)
    returns (ok: bool, ghost seen': seq<Event>)
    requires pf.Valid() && pf.trace == base + seen && Run(o, seen) == Selecting(created)
    modifies pf
    ensures pf.Valid() && pf.trace == base + seen'
    ensures Run(o, seen') == if ok then Redeploying(created) else Halted(Errored)
  {
    var linked, attached;
    linked, seen' := Ask(pf, LinkService(created.name), o, base, seen);
    if linked.Failed? {
      return false, seen';
    }
    attached, seen' := Ask(pf, AddVolume, o, base, seen');
    if attached.Failed? {
      return false, seen';
    }
    ok, seen' := WriteEntries(pf, o, created, base, seen');
  }

  method WriteEntries(pf: Platform, o: Plan, created: Service, ghost base: seq<Event>, ghost seen: seq<Event>)
    returns (ok: bool, ghost seen': seq<Event>)
    requires pf.Valid() && pf.trace == base + seen && Run(o, seen) == Written(o, created, 0)
    modifies pf
    ensures pf.Valid() && pf.trace == base + seen'
    ensures Run(o, seen') == if ok then Redeploying(created) else Halted(Errored)
  {
    seen' := seen;
    for k := 0 to |o.entries|
      invariant pf.Valid() && pf.trace == base + seen'
      invariant Run(o, seen') == Written(o, created, k)
    {
      var written;
      written, seen' := Ask(pf, SetVariable(created.name, o.entries[k].0, o.entries[k].1), o, base, seen');
      if written.Failed? {
        return false, seen';
      }
    }
    ok := true;
  }

  /** The one real build; the poll has no deployment to tell it from. */
  method DeployService(pf: Platform, o: Plan, created: Service, ghost base: seq<Event>, ghost seen: seq<Event>)
    returns (account: Option<Account>, ghost seen': seq<Event>)
    requires pf.Valid() && pf.trace == base + seen && Run(o, seen) == Redeploying(created) && o.pollSeconds >= 1
    modifies pf
    ensures pf.Valid() && pf.trace == base + seen'
    ensures Run(o, seen') == if account.Some? then FindDomain(account.value) else Halted(Errored)
  {
    var redeployed, result;
    redeployed, seen' := Ask(pf, Redeploy(created.name), o, base, seen);
    if redeployed.Failed? {
      return None, seen';
    }
    ghost var part;
    result, part := PollServiceUntilSuccess(pf, o.WaitFor(created.name), None);
    seen' := PollPart(o, base, seen', created, part, result);
    account := if result.Settled? then Some(Account(result.settled, o.password, o.token, false)) else None;
  }

  /** A reused service's own credentials. */
  method ReadCredentials(pf: Platform, o: Plan, service: Service, ghost base: seq<Event>, ghost seen: seq<Event>)
    returns (account: Option<Account>, ghost seen': seq<Event>)
    requires pf.Valid() && pf.trace == base + seen && Run(o, seen) == ReadingPassword(service)
    modifies pf
    ensures pf.Valid() && pf.trace == base + seen'
    ensures Run(o, seen') == if account.Some? then FindDomain(account.value) else Halted(Errored)
  {
    var read;
    read, seen' := Ask(pf, ListVariables(service.name), o, base, seen);
    var password := Secret(read, "SETUP_PASSWORD");
    if password.None? {
      return None, seen';
    }
    account, seen' := ReadGatewayToken(pf, o, service, password.value, base, seen');
  }

  method ReadGatewayToken(pf: Platform, o: Plan, service: Service, password: string,
                          ghost base: seq<Event>, ghost seen: seq<Event>)
    returns (account: Option<Account>, ghost seen': seq<Event>)
    requires pf.Valid() && pf.trace == base + seen && Run(o, seen) == ReadingToken(service, password)
    modifies pf
    ensures pf.Valid() && pf.trace == base + seen'
    ensures Run(o, seen') == if account.Some? then FindDomain(account.value) else Halted(Errored)
  {
    var read;
    read, seen' := Ask(pf, ListVariables(service.name), o, base, seen);
    var token := Secret(read, "OPENCLAW_GATEWAY_TOKEN");
    account := if token.Some? then Some(Account(service, password, token.value, true)) else None;
  }

  /** ensureDomainPort: writes only if there is no domain or its port differs. */
  method EnsureDomainPort(pf: Platform, o: Plan, a: Account, ghost base: seq<Event>, ghost seen: seq<Event>)
    returns (domain: Option<string>, ghost seen': seq<Event>)
    requires pf.Valid() && pf.trace == base + seen && Run(o, seen) == FindDomain(a)
    modifies pf
    ensures pf.Valid() && pf.trace == base + seen'
    ensures Run(o, seen') ==
            if domain.Some? then Readying(a, ReadyStart(a.password, domain.value)) else Halted(Errored)
  {
    var found;
    found, seen' := FindOrMakeDomain(pf, o, a, base, seen);
    if found.None? {
      return None, seen';
    }
    if found.value.port == Some(o.port) {
      return Some(found.value.domain), seen';
    }
    domain, seen' := UpdatePort(pf, o, a, found.value, base, seen');
  }

  method UpdatePort(pf: Platform, o: Plan, a: Account, d: Domain, ghost base: seq<Event>, ghost seen: seq<Event>)
    returns (domain: Option<string>, ghost seen': seq<Event>)
    requires pf.Valid() && pf.trace == base + seen && Run(o, seen) == Porting(a, d)
    modifies pf
    ensures pf.Valid() && pf.trace == base + seen'
    ensures Run(o, seen') ==
            if domain.Some? then Readying(a, ReadyStart(a.password, domain.value)) else Halted(Errored)
  {
    var updated;
    updated, seen' := Ask(pf, SetDomainPort(a.service.name, d.domain, o.port), o, base, seen);
    domain := if updated.Domains? && updated.domains != [] then Some(updated.domains[0].domain) else None;
  }

  method FindOrMakeDomain(pf: Platform, o: Plan, a: Account, ghost base: seq<Event>, ghost seen: seq<Event>)
    returns (found: Option<Domain>, ghost seen': seq<Event>)
    requires pf.Valid() && pf.trace == base + seen && Run(o, seen) == FindDomain(a)
    modifies pf
    ensures pf.Valid() && pf.trace == base + seen'
    ensures Run(o, seen') == if found.Some? then WithDomain(o, a, found.value) else Halted(Errored)
  {
    var listed;
    listed, seen' := Ask(pf, ListDomains(a.service.name), o, base, seen);
    if listed.Failed? {
      return None, seen';
    }
    found := PickDomain(listed.domains);
    if found.None? {
      found, seen' := MakeNewDomain(pf, o, a, base, seen');
    }
  }

  method MakeNewDomain(pf: Platform, o: Plan, a: Account, ghost base: seq<Event>, ghost seen: seq<Event>)
    returns (found: Option<Domain>, ghost seen': seq<Event>)
    requires pf.Valid() && pf.trace == base + seen && Run(o, seen) == MakingDomain(a)
    modifies pf
    ensures pf.Valid() && pf.trace == base + seen'
    ensures Run(o, seen') == if found.Some? then WithDomain(o, a, found.value) else Halted(Errored)
  {
    var made;
    made, seen' := Ask(pf, MakeDomain(a.service.name, o.port), o, base, seen);
    if made.Failed? {
      return None, seen';
    }
    found, seen' := FindMade(pf, o, a, base, seen');
  }

  method FindMade(pf: Platform, o: Plan, a: Account, ghost base: seq<Event>, ghost seen: seq<Event>)
    returns (found: Option<Domain>, ghost seen': seq<Event>)
    requires pf.Valid() && pf.trace == base + seen && Run(o, seen) == FindMadeDomain(a)
    modifies pf
    ensures pf.Valid() && pf.trace == base + seen'
    ensures Run(o, seen') == if found.Some? then WithDomain(o, a, found.value) else Halted(Errored)
  {
    var listed;
    listed, seen' := Ask(pf, ListDomains(a.service.name), o, base, seen);
    found := if listed.Failed? then None else PickDomain(listed.domains);
  }

  method FinishProvision(pf: Platform, o: Plan, a: Account, ghost base: seq<Event>, ghost seen: seq<Event>)
    returns (outcome: Outcome, ghost seen': seq<Event>)
    requires pf.Valid() && pf.trace == base + seen && Run(o, seen) == FindDomain(a) && o.pollSeconds >= 1
    modifies pf
    ensures pf.Valid() && pf.trace == base + seen' && Run(o, seen') == Halted(outcome)
  {
    var domain, ok;
    domain, seen' := EnsureDomainPort(pf, o, a, base, seen);
    if domain.None? {
      return Errored, seen';
    }
    ghost var part;
    ok, part := WaitForSetupReady(pf, o.WaitFor(a.service.name), o.username, a.password, domain.value);
    seen' := ReadyPart(o, base, seen', a, ReadyStart(a.password, domain.value), part, ok);
    outcome := if ok then Provisioned(a) else Errored;
  }

  method NewAccount(pf: Platform, o: Plan, before: seq<Service>, ghost base: seq<Event>, ghost seen: seq<Event>)
    returns (account: Option<Account>, ghost seen': seq<Event>)
    requires pf.Valid() && pf.trace == base + seen && Run(o, seen) == Upping(before) && o.pollSeconds >= 1
    modifies pf
    ensures pf.Valid() && pf.trace == base + seen'
    ensures Run(o, seen') == if account.Some? then FindDomain(account.value) else Halted(Errored)
  {
    var created, ok;
    created, seen' := CreateService(pf, o, before, base, seen);
    if created.None? {
      return None, seen';
    }
    ok, seen' := ConfigureService(pf, o, created.value, base, seen');
    if !ok {
      return None, seen';
    }
    account, seen' := DeployService(pf, o, created.value, base, seen');
  }

  /** provisionClientInstance, up to the authenticated answer; fresh secrets are given. */
  method ProvisionClientInstance(pf: Platform, templateRef: string, port: nat, username: string, password: string,
                                 token: string, pollSeconds: nat, timeoutMinutes: nat, forceNew: bool)
    returns (outcome: Outcome, ghost seen: seq<Event>)
    requires pf.Valid() && pollSeconds >= 1
    modifies pf
    ensures pf.Valid() && pf.trace == old(pf.trace) + seen
    ensures Run(Plan(Entries(templateRef, port, password, token), port, username, password, token,
                     pollSeconds, timeoutMinutes, forceNew), seen) == Halted(outcome)
  {
    var variableEntries := Entries(templateRef, port, password, token);
    outcome, seen := ProvisionWith(
      pf, Plan(variableEntries, port, username, password, token, pollSeconds, timeoutMinutes, forceNew));
  }

  method ProvisionWith(pf: Platform, o: Plan) returns (outcome: Outcome, ghost seen: seq<Event>)
    requires pf.Valid() && o.pollSeconds >= 1
    modifies pf
    ensures pf.Valid() && pf.trace == old(pf.trace) + seen && Run(o, seen) == Halted(outcome)
  {
    ghost var base := pf.trace;
    var account;
    account, seen := ChooseAccount(pf, o, base);
    if account.None? {
      return Errored, seen;
    }
    outcome, seen := FinishProvision(pf, o, account.value, base, seen);
  }

  method ChooseAccount(pf: Platform, o: Plan, ghost base: seq<Event>)
    returns (account: Option<Account>, ghost seen: seq<Event>)
    requires pf.Valid() && o.pollSeconds >= 1 && base == pf.trace
    modifies pf
    ensures pf.Valid() && pf.trace == base + seen
    ensures Run(o, seen) == if account.Some? then FindDomain(account.value) else Halted(Errored)
  {
    assert base == base + [];
    var linked, listed;
    linked, seen := Ask(pf, LinkProject, o, base, []);
    if linked.Failed? {
      return None, seen;
    }
    listed, seen := Ask(pf, ListServices, o, base, seen);
    if listed.Failed? {
      return None, seen;
    }
    var existing := SelectSole(listed.services);
    if existing.Several? {
      return None, seen;
    }
    if existing.Only? && !o.forceNew {
      if existing.service.Status() != Some(SUCCESS) {
        return None, seen;
      }
      account, seen := ReadCredentials(pf, o, existing.service, base, seen);
    } else {
      account, seen := NewAccount(pf, o, listed.services, base, seen);
    }
  }
}
