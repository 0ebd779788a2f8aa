/** What a provisioning run does to the project, over all behaviours of the platform:
    which services it touches, what it writes before the one build, and whose
    credentials it returns. */
module ProvisionRuns {
  import opened Options
  import opened Decimal
  import opened Railway
  import opened Polling
  import opened Provision

  // ---------- the service the diff finds ----------

  ghost predicate OnlyNewAt(before: seq<Service>, after: seq<Service>, i: int) {
    && 0 <= i < |after| && !HasId(before, after[i].id)
    && forall j :: 0 <= j < |after| && j != i ==> HasId(before, after[j].id)
  }

  lemma {:induction false} NothingCreated(before: seq<Service>, after: seq<Service>)
    ensures Created(before, after) == [] <==> forall j :: 0 <= j < |after| ==> HasId(before, after[j].id)
  {
    if after != [] {
      NothingCreated(before, after[1..]);
      assert forall j :: 1 <= j < |after| ==> after[j] == after[1..][j - 1];
      assert forall j :: 0 <= j < |after| - 1 ==> after[1..][j] == after[j + 1];
    }
  }

  /** The id diff picks a service exactly when it is the one and only new one, wherever it
      stands in the listing and however many services were there before. */
  lemma {:induction false} DiffFindsTheNewOne(before: seq<Service>, after: seq<Service>, c: Service)
    ensures SelectSole(Created(before, after)) == Only(c) <==> exists i :: OnlyNewAt(before, after, i) && after[i] == c
  {
    if after != [] {
      var rest := after[1..];
      DiffFindsTheNewOne(before, rest, c);
      NothingCreated(before, rest);
      if HasId(before, after[0].id) {
        assert Created(before, after) == Created(before, rest);
        assert forall i :: OnlyNewAt(before, rest, i) ==> OnlyNewAt(before, after, i + 1);
        assert forall i :: OnlyNewAt(before, after, i) ==> OnlyNewAt(before, rest, i - 1);
      } else {
        assert forall i :: OnlyNewAt(before, after, i) ==> i == 0;
        assert OnlyNewAt(before, after, 0) <==> Created(before, rest) == [];
      }
    }
  }

  // ---------- what has happened at every point ----------

  /** The first listing. */
  predicate Began(t: seq<Event>, before: seq<Service>) {
    |t| >= 2 && t[0] == Event(LinkProject, Done) && t[1] == Event(ListServices, Services(before))
  }

  /** A service was created, and is the only one whose id was not there before. */
  predicate CreatedHere(o: Plan, t: seq<Event>, before: seq<Service>, c: Service) {
    && Began(t, before) && Choose(o, before) == Upping(before)
    && |t| >= 4 && t[2] == Event(Up, Done)
    && t[3].call == ListServices && t[3].reply.Services?
    && SelectSole(Created(before, t[3].reply.services)) == Only(c)
  }

  /** Linked, with its volume, and the first k variables written, in order. */
  ghost predicate ConfiguredUpTo(o: Plan, t: seq<Event>, c: Service, k: int) {
    && 0 <= k <= |o.entries| && |t| >= 6 + k
    && t[4] == Event(LinkService(c.name), Done) && t[5] == Event(AddVolume, Done)
    && forall j :: 0 <= j < k ==> t[6 + j] == Event(SetVariable(c.name, o.entries[j].0, o.entries[j].1), Done)
  }

  predicate DomainCall(call: Call, name: string) {
    (call.MakeDomain? || call.SetDomainPort?) && call.service == name
  }

  /** From k on nothing is changed but the domain of the named service. */
  ghost predicate OnlyDomainFrom(t: seq<Event>, k: nat, name: string) {
    forall i :: k <= i < |t| && Mutates(t[i].call) ==> DomainCall(t[i].call, name)
  }

  ghost predicate NoMutationFrom(t: seq<Event>, k: nat) {
    forall i :: k <= i < |t| ==> !Mutates(t[i].call)
  }

  /** Created, configured and redeployed, in this order. */
  ghost predicate Built(o: Plan, t: seq<Event>, before: seq<Service>, c: Service) {
    && CreatedHere(o, t, before, c) && ConfiguredUpTo(o, t, c, |o.entries|)
    && |t| >= 7 + |o.entries| && t[6 + |o.entries|] == Event(Redeploy(c.name), Done)
  }

  /** Listing m shows, as the first service of the created name, s in SUCCESS. */
  predicate SeenRunning(t: seq<Event>, m: int, name: string, s: Service) {
    && 0 <= m < |t| && t[m].call == ListServices && t[m].reply.Services?
    && FindService(t[m].reply.services, name) == Some(s) && s.Status() == Some(SUCCESS)
  }

  /** A new account: what is returned was written, before the build. */
  ghost predicate FreshAccount(o: Plan, t: seq<Event>, a: Account) {
    && !a.reused && a.password == o.password && a.token == o.token
    && exists before, c, m :: Built(o, t, before, c) && 7 + |o.entries| <= m && SeenRunning(t, m, c.name, a.service)
  }

  predicate ReadSecret(e: Event, service: string, name: string, value: string) {
    e.call == ListVariables(service) && Secret(e.reply, name) == Some(value)
  }

  predicate Reused(o: Plan, t: seq<Event>, s: Service) {
    && !o.forceNew && |t| >= 2 && t[0] == Event(LinkProject, Done)
    && t[1] == Event(ListServices, Services([s])) && s.Status() == Some(SUCCESS)
  }

  /** A reused account: what is returned was read from the service. */
  predicate ReusedAccount(o: Plan, t: seq<Event>, a: Account) {
    && a.reused && Reused(o, t, a.service) && |t| >= 4
    && ReadSecret(t[2], a.service.name, "SETUP_PASSWORD", a.password)
    && ReadSecret(t[3], a.service.name, "OPENCLAW_GATEWAY_TOKEN", a.token)
  }

  /** Where the part of the run that is about the account begins. */
  ghost predicate HasAccount(o: Plan, t: seq<Event>, a: Account) {
    if a.reused then ReusedAccount(o, t, a) && OnlyDomainFrom(t, 0, a.service.name)
    else FreshAccount(o, t, a) && OnlyDomainFrom(t, 7 + |o.entries|, a.service.name)
  }

  ghost predicate AnsweredWith(o: Plan, e: Event, password: string) {
    e.call.CheckSetup? && e.call.username == o.username && e.call.password == password && e.reply == HttpStatus(200)
  }

  predicate AsksWith(r: Ready, password: string) {
    match r
    case ReadyStart(p, _) => p == password
    case ReadyCheck(p, _, _) => p == password
    case ReadySleep(p, _, _) => p == password
    case ReadyClock(p, _, _) => p == password
    case _ => false
  }

  predicate InSetup(pc: Pc) {
    pc.Selecting? || pc.Attaching? || pc.Writing? || pc.Redeploying?
  }

  predicate InDomain(pc: Pc) {
    pc.FindDomain? || pc.MakingDomain? || pc.FindMadeDomain? || pc.Porting?
  }

  /** What holds of a trace after which the run stands at pc. */
  ghost predicate History(o: Plan, t: seq<Event>, pc: Pc) {
    if InDomain(pc) then HasAccount(o, t, pc.account)
    else if pc.Readying? then HasAccount(o, t, pc.account) && AsksWith(pc.r, pc.account.password)
    else if InSetup(pc) then SetupHistory(o, t, pc)
    else if pc.Halted? then
      pc.outcome.Provisioned? ==>
        HasAccount(o, t, pc.outcome.account) && |t| > 0 && AnsweredWith(o, t[|t| - 1], pc.outcome.account.password)
    else ChoiceHistory(o, t, pc)
  }

  ghost predicate SetupHistory(o: Plan, t: seq<Event>, pc: Pc)
    requires InSetup(pc)
  {
    && (exists before :: CreatedHere(o, t, before, pc.created))
    && match pc
       case Selecting(_) => |t| == 4
       case Attaching(c) => |t| == 5 && t[4] == Event(LinkService(c.name), Done)
       case Writing(c, k) => |t| == 6 + k && k < |o.entries| && ConfiguredUpTo(o, t, c, k)
       case Redeploying(c) => |t| == 6 + |o.entries| && ConfiguredUpTo(o, t, c, |o.entries|)
  }

  ghost predicate ChoiceHistory(o: Plan, t: seq<Event>, pc: Pc) {
    match pc
    case Linking => t == []
    case ListBefore => |t| == 1 && t[0] == Event(LinkProject, Done)
    case Upping(before) => |t| == 2 && Began(t, before) && Choose(o, before) == Upping(before)
    case ListAfter(before) =>
      |t| == 3 && Began(t, before) && Choose(o, before) == Upping(before) && t[2] == Event(Up, Done)
    case Awaiting(c, _) => NoMutationFrom(t, 7 + |o.entries|) && exists before :: Built(o, t, before, c)
    case ReadingPassword(s) => |t| == 2 && Reused(o, t, s)
    case ReadingToken(s, password) => |t| == 3 && Reused(o, t, s) && ReadSecret(t[2], s.name, "SETUP_PASSWORD", password)
    case _ => true
  }

  /** Every trace the protocol can produce has the history its state claims. */
  lemma {:induction false} HistoryHolds(o: Plan, t: seq<Event>)
    requires !Run(o, t).Stuck?
    ensures History(o, t, Run(o, t))
  {
    if t != [] {
      var init, last := t[..|t| - 1], t[|t| - 1];
      assert t == init + [last];
      HistoryHolds(o, init);
      HistoryStep(o, init, Run(o, init), last);
    }
  }

  lemma HistoryStep(o: Plan, t: seq<Event>, pc: Pc, e: Event)
    requires History(o, t, pc) && !pc.Stuck? && !Step(o, pc, e).Stuck?
    ensures History(o, t + [e], Step(o, pc, e))
  {
    if InSetup(pc) {
      SetupStep(o, t, pc, e);
    } else if pc.Awaiting? {
      AwaitingStep(o, t, e, pc.created, pc.q);
    } else if pc.Readying? {
      ReadyingStep(o, t, e, pc.account, pc.r);
    } else if InDomain(pc) {
      DomainStep(o, t, pc, e, pc.account);
    } else if pc.ReadingPassword? || pc.ReadingToken? {
    } else {
      ChoosingStep(o, t, pc, e);
    }
  }

  lemma SetupStep(o: Plan, t: seq<Event>, pc: Pc, e: Event)
    requires History(o, t, pc) && InSetup(pc) && !Step(o, pc, e).Stuck?
    ensures History(o, t + [e], Step(o, pc, e))
  {
    if pc.Redeploying? {
      RedeployStep(o, t, e, pc.created);
    } else {
      ConfiguringStep(o, t, pc, e, pc.created);
    }
  }

  lemma ChoosingStep(o: Plan, t: seq<Event>, pc: Pc, e: Event)
    requires History(o, t, pc) && !Step(o, pc, e).Stuck?
    requires pc.Linking? || pc.ListBefore? || pc.Upping? || pc.ListAfter? || pc.Halted?
    ensures History(o, t + [e], Step(o, pc, e))
  {
    var t', pc' := t + [e], Step(o, pc, e);
    if pc'.Selecting? {
      assert CreatedHere(o, t', pc.before, pc'.created);
    }
  }

  lemma StillCreated(o: Plan, t: seq<Event>, e: Event, c: Service)
    requires exists before :: CreatedHere(o, t, before, c)
    ensures exists before :: CreatedHere(o, t + [e], before, c)
  {
    var before :| CreatedHere(o, t, before, c);
    assert CreatedHere(o, t + [e], before, c);
  }

  lemma ConfiguringStep(o: Plan, t: seq<Event>, pc: Pc, e: Event, c: Service)
    requires History(o, t, pc) && !Step(o, pc, e).Stuck?
    requires (pc.Selecting? || pc.Attaching? || pc.Writing?) && pc.created == c
    ensures History(o, t + [e], Step(o, pc, e))
  {
    StillCreated(o, t, e, c);
  }

  lemma RedeployStep(o: Plan, t: seq<Event>, e: Event, c: Service)
    requires History(o, t, Redeploying(c)) && !Step(o, Redeploying(c), e).Stuck?
    ensures History(o, t + [e], Step(o, Redeploying(c), e))
  {
    var before :| CreatedHere(o, t, before, c);
    if e.reply.Done? {
      assert Built(o, t + [e], before, c);
    }
  }

  lemma AwaitingStep(o: Plan, t: seq<Event>, e: Event, c: Service, q: Poll)
    requires History(o, t, Awaiting(c, q)) && !Step(o, Awaiting(c, q), e).Stuck?
    ensures History(o, t + [e], Step(o, Awaiting(c, q), e))
  {
    var t' := t + [e];
    var before :| Built(o, t, before, c);
    assert Built(o, t', before, c) && !Mutates(e.call);
    var pc' := Step(o, Awaiting(c, q), e);
    if pc'.FindDomain? {
      assert SeenRunning(t', |t|, c.name, pc'.account.service);
      assert FreshAccount(o, t', pc'.account);
    }
  }

  lemma StillAccount(o: Plan, t: seq<Event>, e: Event, a: Account)
    requires HasAccount(o, t, a) && (Mutates(e.call) ==> DomainCall(e.call, a.service.name))
    ensures HasAccount(o, t + [e], a)
  {
    var t' := t + [e];
    if !a.reused {
      var before, c, m :| Built(o, t, before, c) && 7 + |o.entries| <= m && SeenRunning(t, m, c.name, a.service);
      assert Built(o, t', before, c) && SeenRunning(t', m, c.name, a.service);
    }
  }

  /** A step of the domain part stays in it, goes on to the readiness wait, or fails. */
  lemma DomainShape(o: Plan, pc: Pc, e: Event)
    requires InDomain(pc) && !Step(o, pc, e).Stuck?
    ensures Mutates(e.call) ==> DomainCall(e.call, pc.account.service.name)
    ensures var pc', a := Step(o, pc, e), pc.account;
            || (InDomain(pc') && pc'.account == a) || pc' == Halted(Errored)
            || (pc'.Readying? && pc'.account == a && AsksWith(pc'.r, a.password))
  {
  }

  lemma AccountKept(o: Plan, t: seq<Event>, e: Event, a: Account, pc': Pc)
    requires HasAccount(o, t, a) && (Mutates(e.call) ==> DomainCall(e.call, a.service.name))
    requires || (InDomain(pc') && pc'.account == a) || pc' == Halted(Errored)
             || (pc'.Readying? && pc'.account == a && AsksWith(pc'.r, a.password))
             || (pc' == Halted(Provisioned(a)) && AnsweredWith(o, e, a.password))
    ensures History(o, t + [e], pc')
  {
    StillAccount(o, t, e, a);
  }

  lemma ReadyShape(o: Plan, a: Account, r: Ready, e: Event)
    requires AsksWith(r, a.password) && !Step(o, Readying(a, r), e).Stuck?
    ensures !Mutates(e.call)
    ensures var pc' := Step(o, Readying(a, r), e);
            || (pc'.Readying? && pc'.account == a && AsksWith(pc'.r, a.password)) || pc' == Halted(Errored)
            || (pc' == Halted(Provisioned(a)) && AnsweredWith(o, e, a.password))
  {
  }

  lemma DomainStep(o: Plan, t: seq<Event>, pc: Pc, e: Event, a: Account)
    requires History(o, t, pc) && !Step(o, pc, e).Stuck? && InDomain(pc) && pc.account == a
    ensures History(o, t + [e], Step(o, pc, e))
  {
    DomainShape(o, pc, e);
    AccountKept(o, t, e, a, Step(o, pc, e));
  }

  lemma ReadyingStep(o: Plan, t: seq<Event>, e: Event, a: Account, r: Ready)
    requires History(o, t, Readying(a, r)) && !Step(o, Readying(a, r), e).Stuck?
    ensures History(o, t + [e], Step(o, Readying(a, r), e))
  {
    ReadyShape(o, a, r, e);
    AccountKept(o, t, e, a, Step(o, Readying(a, r), e));
  }

  // ---------- the main results ----------

  /** The call at position i was made in the state the calls before it led to. */
  lemma {:induction false} MadeFrom(o: Plan, t: seq<Event>, i: nat)
    requires !Run(o, t).Stuck? && i < |t|
    ensures !Run(o, t[..i]).Stuck? && !Step(o, Run(o, t[..i]), t[i]).Stuck?
    decreases |t|
  {
    var init, last := t[..|t| - 1], t[|t| - 1];
    if i < |t| - 1 {
      MadeFrom(o, init, i);
      assert init[..i] == t[..i];
    } else {
      assert t[..i] == init;
    }
  }

  ghost predicate OnCreated(o: Plan, t: seq<Event>, name: string) {
    exists before, c :: CreatedHere(o, t, before, c) && c.name == name
  }

  ghost predicate OnReused(o: Plan, t: seq<Event>, name: string) {
    exists s :: Reused(o, t, s) && s.name == name
  }

  lemma CreatedStays(o: Plan, t: seq<Event>, i: nat, name: string)
    requires i <= |t|
    ensures OnCreated(o, t[..i], name) ==> OnCreated(o, t, name)
    ensures OnReused(o, t[..i], name) ==> OnReused(o, t, name)
  {
    if OnCreated(o, t[..i], name) {
      var before, c :| CreatedHere(o, t[..i], before, c) && c.name == name;
      assert CreatedHere(o, t, before, c);
    }
    if OnReused(o, t[..i], name) {
      var s :| Reused(o, t[..i], s) && s.name == name;
      assert Reused(o, t, s);
    }
  }

  /** In every run, however it ends: a variable is written, a redeploy made or a service
      linked only under the name of a service this run has created, told by its id from
      all that were there before; a domain is only changed on that service or on the
      healthy one being reused; and a service is created only when none may be reused. */
  lemma WhatIsTouched(o: Plan, t: seq<Event>, i: nat)
    requires !Run(o, t).Stuck? && i < |t|
    ensures var call := t[i].call;
            && (call.SetVariable? || call.Redeploy? || call.LinkService? ==> OnCreated(o, t, call.service))
            && (call.MakeDomain? || call.SetDomainPort? ==> OnCreated(o, t, call.service) || OnReused(o, t, call.service))
            && (call.AddVolume? ==> i == 5 && t[4].call.LinkService? && OnCreated(o, t, t[4].call.service))
            && (call.Up? ==> i == 2 && exists before :: Began(t, before) && Choose(o, before) == Upping(before))
  {
    MadeFrom(o, t, i);
    HistoryHolds(o, t[..i]);
    var pc, call, past := Run(o, t[..i]), t[i].call, t[..i];
    if InSetup(pc) {
      SetupIsOnCreated(o, past, pc);
      CreatedStays(o, t, i, pc.created.name);
    } else if InDomain(pc) {
      AccountIsKnown(o, past, pc.account);
      CreatedStays(o, t, i, pc.account.service.name);
    } else if pc.Upping? {
      assert Began(t, pc.before);
    }
  }

  lemma SetupIsOnCreated(o: Plan, t: seq<Event>, pc: Pc)
    requires History(o, t, pc) && InSetup(pc)
    ensures OnCreated(o, t, pc.created.name)
    ensures pc.Attaching? ==> |t| == 5 && t[4].call == LinkService(pc.created.name)
  {
    var before :| CreatedHere(o, t, before, pc.created);
    assert CreatedHere(o, t, before, pc.created);
  }

  lemma {:induction false} FoundByName(services: seq<Service>, name: string)
    ensures var found := FindService(services, name);
            found.Some? ==> found.value.name == name && exists k :: 0 <= k < |services| && services[k] == found.value
  {
    if services != [] && services[0].name != name {
      FoundByName(services[1..], name);
      var found := FindService(services[1..], name);
      if found.Some? {
        var k :| 0 <= k < |services| - 1 && services[1..][k] == found.value;
        assert services[k + 1] == found.value;
      }
    }
  }

  lemma AccountIsKnown(o: Plan, t: seq<Event>, a: Account)
    requires HasAccount(o, t, a)
    ensures if a.reused then OnReused(o, t, a.service.name) else OnCreated(o, t, a.service.name)
  {
    if a.reused {
      assert Reused(o, t, a.service);
    } else {
      var before, c, m :| Built(o, t, before, c) && 7 + |o.entries| <= m && SeenRunning(t, m, c.name, a.service);
      FoundByName(t[m].reply.services, c.name);
      assert CreatedHere(o, t, before, c);
    }
  }

  /** A sole healthy service that is not to be replaced is left alone: whatever happens,
      at most its domain is changed, and the credentials returned are its own. */
  lemma ReusedIsLeftAlone(o: Plan, t: seq<Event>, s: Service)
    requires !Run(o, t).Stuck? && Reused(o, t, s)
    ensures OnlyDomainFrom(t, 0, s.name)
    ensures forall a :: Run(o, t) == Halted(Provisioned(a)) ==> ReusedAccount(o, t, a) && a.service == s
  {
    assert Choose(o, [s]) == ReadingPassword(s);
    forall i | 0 <= i < |t| && Mutates(t[i].call) ensures DomainCall(t[i].call, s.name) {
      WhatIsTouched(o, t, i);
    }
    HistoryHolds(o, t);
  }

  /** A new client: the variables are written once each, in order and with the given
      values, after the volume and before the one redeploy; the service returned is the
      first one of the created name that was then seen in SUCCESS, and it has the created
      id if no other service bears that name; and the credentials returned are the
      written ones, with which an authenticated request was answered 200. */
  lemma FreshEvidence(o: Plan, t: seq<Event>, a: Account) returns (before: seq<Service>, c: Service, m: nat)
    requires Run(o, t) == Halted(Provisioned(a)) && !a.reused
    ensures Built(o, t, before, c) && 7 + |o.entries| <= m && SeenRunning(t, m, c.name, a.service)
    ensures forall i :: 0 <= i < |t| && t[i].call.SetVariable? ==> 6 <= i < 6 + |o.entries|
    ensures forall i :: 0 <= i < |t| && t[i].call.Redeploy? ==> i == 6 + |o.entries|
    ensures a.password == o.password && a.token == o.token && AnsweredWith(o, t[|t| - 1], o.password)
    ensures var seen := t[m].reply.services;
            (forall k :: 0 <= k < |seen| && seen[k].name == c.name ==> seen[k].id == c.id) ==> a.service.id == c.id
  {
    HistoryHolds(o, t);
    before, c, m :| Built(o, t, before, c) && 7 + |o.entries| <= m && SeenRunning(t, m, c.name, a.service);
    FoundByName(t[m].reply.services, c.name);
    WritesArePlaced(o, t, before, c, a.service.name);
  }

  lemma WritesArePlaced(o: Plan, t: seq<Event>, before: seq<Service>, c: Service, name: string)
    requires Built(o, t, before, c) && OnlyDomainFrom(t, 7 + |o.entries|, name)
    ensures forall i :: 0 <= i < |t| && t[i].call.SetVariable? ==> 6 <= i < 6 + |o.entries|
    ensures forall i :: 0 <= i < |t| && t[i].call.Redeploy? ==> i == 6 + |o.entries|
  {
    forall i | 0 <= i < |t| && (t[i].call.SetVariable? || t[i].call.Redeploy?) ensures 6 <= i < 7 + |o.entries| {
      assert Mutates(t[i].call);
    }
    forall i | 6 <= i < 6 + |o.entries| ensures !t[i].call.Redeploy? {
      assert t[6 + (i - 6)] == Event(SetVariable(c.name, o.entries[i - 6].0, o.entries[i - 6].1), Done);
    }
  }

  /** Every read of the variables shows what the first run wrote. */
  ghost predicate Shows(t: seq<Event>, entries: seq<(string, string)>) {
    forall i, k :: 0 <= i < |t| && t[i].reply.Variables? && 0 <= k < |entries| ==>
      Lookup(t[i].reply.vars, entries[k].0) == Some(entries[k].1)
  }

  lemma FreshCredentials(o: Plan, t: seq<Event>, a: Account)
    requires Run(o, t) == Halted(Provisioned(a)) && !a.reused
    ensures a.password == o.password && a.token == o.token
  {
    HistoryHolds(o, t);
  }

  lemma ReusedCredentials(o: Plan, t: seq<Event>, a: Account)
    requires Run(o, t) == Halted(Provisioned(a)) && a.reused
    ensures |t| >= 4 && ReadSecret(t[2], a.service.name, "SETUP_PASSWORD", a.password)
    ensures ReadSecret(t[3], a.service.name, "OPENCLAW_GATEWAY_TOKEN", a.token)
  {
    HistoryHolds(o, t);
  }

  /** A credential that may have been handed out is never replaced: a rerun that reuses the
      service returns what the first run returned, with whatever secrets it was started. */
  lemma RerunKeepsCredentials(o: Plan, a: Account, t: seq<Event>, again: Plan, t': seq<Event>, a': Account,
                              templateRef: string)
    requires o.entries == Entries(templateRef, o.port, o.password, o.token)
    requires Run(o, t) == Halted(Provisioned(a)) && !a.reused
    requires Run(again, t') == Halted(Provisioned(a')) && a'.reused && Shows(t', o.entries)
    ensures a'.password == a.password && a'.token == a.token
  {
    FreshCredentials(o, t, a);
    ReusedCredentials(again, t', a');
    EntriesHoldSecrets(templateRef, o.port, o.password, o.token);
    ReadsWhatIsShown(t'[2], a'.service.name, "SETUP_PASSWORD", a'.password, o.entries, 4);
    ReadsWhatIsShown(t'[3], a'.service.name, "OPENCLAW_GATEWAY_TOKEN", a'.token, o.entries, 5);
  }

  lemma EntriesHoldSecrets(templateRef: string, port: nat, password: string, token: string)
    ensures var entries := Entries(templateRef, port, password, token);
            |entries| == 6 && entries[4] == ("SETUP_PASSWORD", password) && entries[5] == ("OPENCLAW_GATEWAY_TOKEN", token)
  {
  }

  /** The variables a new service is given: the ref, the port in decimal, both directories
      on the volume, the two secrets, and nothing else. */
  lemma EntriesExactly(templateRef: string, port: nat, password: string, token: string, e: (string, string))
    ensures e in Entries(templateRef, port, password, token) <==>
            || e == ("OPENCLAW_TEMPLATE_REF", templateRef)
            || (e.0 == "PORT" && e.1 == Digits(port))
            || e == ("OPENCLAW_STATE_DIR", "/data/.openclaw") || e == ("OPENCLAW_WORKSPACE_DIR", "/data/workspace")
            || e == ("SETUP_PASSWORD", password) || e == ("OPENCLAW_GATEWAY_TOKEN", token)
    ensures e in Entries(templateRef, port, password, token) && e.0 == "PORT" ==> AllDigits(e.1) && Denotes(e.1) == port
  {
    DigitsRoundTrip(port);
    var entries := Entries(templateRef, port, password, token);
    assert entries[0].0 == "OPENCLAW_TEMPLATE_REF" && entries[1] == ("PORT", Digits(port));
    assert entries[2].0 == "OPENCLAW_STATE_DIR" && entries[3].0 == "OPENCLAW_WORKSPACE_DIR";
    assert entries[4].0 == "SETUP_PASSWORD" && entries[5].0 == "OPENCLAW_GATEWAY_TOKEN";
  }

  lemma ReadsWhatIsShown(e: Event, service: string, name: string, value: string, entries: seq<(string, string)>, k: nat)
    requires ReadSecret(e, service, name, value) && Shows([e], entries) && k < |entries| && entries[k].0 == name
    ensures entries[k].1 == value
  {
    assert [e][0].reply.Variables?;
  }
}
