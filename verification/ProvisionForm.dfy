/** A provisioning run in closed form, part by part from its start: what each part sends, on
    what it depends how it goes on, and how every run ends. */
module ProvisionForm {
  import opened Options
  import opened Railway
  import opened Polling
  import opened Waits
  import opened Provision
  import opened ProvisionRuns

  /** The last request of the wait that begins t was answered 200, or the wait gave up. */
  ghost predicate ServeForm(o: Plan, t: seq<Event>, a: Account, domain: string, outcome: Outcome) {
    var w := o.WaitFor(a.service.name);
    && ReadyForm(w, o.username, a.password, domain, t)
    && ((outcome == Provisioned(a) && ReadyEndsAt(w, t, |t| - 1, true))
        || (outcome == Errored && ReadyEndsAt(w, t, |t| - 1, false)))
  }

  /** The port is changed if and only if it is not the one wanted. */
  ghost predicate PortForm(o: Plan, t: seq<Event>, a: Account, d: Domain, outcome: Outcome) {
    if d.port == Some(o.port) then ServeForm(o, t, a, d.domain, outcome)
    else
      && SendsAt(t, 0, SetDomainPort(a.service.name, d.domain, o.port))
      && if t[0].reply.Failed? || t[0].reply.domains == [] then |t| == 1 && outcome == Errored
         else ServeForm(o, t[1..], a, t[0].reply.domains[0].domain, outcome)
  }

  ghost predicate MadeForm(o: Plan, t: seq<Event>, a: Account, outcome: Outcome) {
    && SendsAt(t, 0, ListDomains(a.service.name))
    && if t[0].reply.Failed? || PickDomain(t[0].reply.domains).None? then |t| == 1 && outcome == Errored
       else PortForm(o, t[1..], a, PickDomain(t[0].reply.domains).value, outcome)
  }

  /** A domain is made if and only if none is listed. */
  ghost predicate DomainForm(o: Plan, t: seq<Event>, a: Account, outcome: Outcome) {
    && SendsAt(t, 0, ListDomains(a.service.name))
    && if t[0].reply.Failed? then |t| == 1 && outcome == Errored
       else if PickDomain(t[0].reply.domains).Some?
       then PortForm(o, t[1..], a, PickDomain(t[0].reply.domains).value, outcome)
       else MakeForm(o, t[1..], a, outcome)
  }

  ghost predicate MakeForm(o: Plan, t: seq<Event>, a: Account, outcome: Outcome) {
    && SendsAt(t, 0, MakeDomain(a.service.name, o.port))
    && if t[0].reply.Failed? then |t| == 1 && outcome == Errored else MadeForm(o, t[1..], a, outcome)
  }

  /** The listing gives a secret of this name that is not empty. */
  predicate Gives(e: Event, name: string) {
    e.reply.Variables? && name in e.reply.vars && e.reply.vars[name] != ""
  }

  ghost predicate ReuseForm(o: Plan, t: seq<Event>, s: Service, outcome: Outcome) {
    && SendsAt(t, 0, ListVariables(s.name))
    && if !Gives(t[0], "SETUP_PASSWORD") then |t| == 1 && outcome == Errored
       else TokenForm(o, t[1..], s, t[0].reply.vars["SETUP_PASSWORD"], outcome)
  }

  ghost predicate TokenForm(o: Plan, t: seq<Event>, s: Service, password: string, outcome: Outcome) {
    && SendsAt(t, 0, ListVariables(s.name))
    && if !Gives(t[0], "OPENCLAW_GATEWAY_TOKEN") then |t| == 1 && outcome == Errored
       else DomainForm(o, t[1..], Account(s, password, t[0].reply.vars["OPENCLAW_GATEWAY_TOKEN"], true), outcome)
  }

  /** The poll, with nothing to tell its deployment from, takes the first m events. */
  ghost predicate BuiltAt(o: Plan, t: seq<Event>, c: Service, m: int, result: PollResult) {
    0 < m <= |t| && PollForm(o.WaitFor(c.name), None, t[..m]) && PollEndsAt(o.WaitFor(c.name), None, t[..m], m - 1, result)
  }

  ghost predicate AwaitForm(o: Plan, t: seq<Event>, c: Service, outcome: Outcome) {
    exists m, result ::
      BuiltAt(o, t, c, m, result) && AfterForm(o, t[m..], result, outcome)
  }

  ghost predicate AfterForm(o: Plan, t: seq<Event>, result: PollResult, outcome: Outcome) {
    if result.Settled? then DomainForm(o, t, Account(result.settled, o.password, o.token, false), outcome)
    else t == [] && outcome == Errored
  }

  ghost predicate BuildForm(o: Plan, t: seq<Event>, c: Service, outcome: Outcome) {
    && SendsAt(t, 0, Redeploy(c.name))
    && if t[0].reply.Failed? then |t| == 1 && outcome == Errored else AwaitForm(o, t[1..], c, outcome)
  }

  /** The first n entries are written, in order. */
  ghost predicate WritesFirst(o: Plan, t: seq<Event>, c: Service, n: nat) {
    && n <= |o.entries| && n <= |t|
    && forall j :: 0 <= j < n ==> t[j] == Event(SetVariable(c.name, o.entries[j].0, o.entries[j].1), Done)
  }

  /** All entries are written in order and then the service is built, once; or the write of
      one of them fails, and that is the end. */
  ghost predicate WriteForm(o: Plan, t: seq<Event>, c: Service, outcome: Outcome) {
    exists n: nat ::
      WritesFirst(o, t, c, n) &&
      if n == |o.entries| then BuildForm(o, t[n..], c, outcome)
      else
        && |t| == n + 1 && outcome == Errored
        && t[n] == Event(SetVariable(c.name, o.entries[n].0, o.entries[n].1), Failed)
  }

  ghost predicate ConfigureForm(o: Plan, t: seq<Event>, c: Service, outcome: Outcome) {
    && SendsAt(t, 0, LinkService(c.name))
    && if t[0].reply.Failed? then |t| == 1 && outcome == Errored
       else AttachForm(o, t[1..], c, outcome)
  }

  ghost predicate AttachForm(o: Plan, t: seq<Event>, c: Service, outcome: Outcome) {
    && SendsAt(t, 0, AddVolume)
    && if t[0].reply.Failed? then |t| == 1 && outcome == Errored else WriteForm(o, t[1..], c, outcome)
  }

  /** One `up`; it goes on only with the one service that is new. */
  ghost predicate CreateForm(o: Plan, t: seq<Event>, before: seq<Service>, outcome: Outcome) {
    && SendsAt(t, 0, Up)
    && if t[0].reply.Failed? then |t| == 1 && outcome == Errored
       else DiffForm(o, t[1..], before, outcome)
  }

  ghost predicate DiffForm(o: Plan, t: seq<Event>, before: seq<Service>, outcome: Outcome) {
    && SendsAt(t, 0, ListServices)
    && if t[0].reply.Failed? then |t| == 1 && outcome == Errored
       else
         || (exists i :: OnlyNewAt(before, t[0].reply.services, i)
                         && ConfigureForm(o, t[1..], t[0].reply.services[i], outcome))
         || ((forall i :: !OnlyNewAt(before, t[0].reply.services, i)) && |t| == 1 && outcome == Errored)
  }

  /** What the listing allows: a service is created if there is none, or exactly one that
      may be replaced; the sole healthy one is reused; everything else is an error. */
  ghost predicate ChooseForm(o: Plan, t: seq<Event>, before: seq<Service>, outcome: Outcome) {
    if before == [] || (|before| == 1 && o.forceNew) then CreateForm(o, t, before, outcome)
    else if |before| == 1 && before[0].Status() == Some(SUCCESS) then ReuseForm(o, t, before[0], outcome)
    else t == [] && outcome == Errored
  }

  ghost predicate ProvisionForm(o: Plan, t: seq<Event>, outcome: Outcome) {
    && SendsAt(t, 0, LinkProject)
    && if t[0].reply.Failed? then |t| == 1 && outcome == Errored
       else ListForm(o, t[1..], outcome)
  }

  ghost predicate ListForm(o: Plan, t: seq<Event>, outcome: Outcome) {
    && SendsAt(t, 0, ListServices)
    && if t[0].reply.Failed? then |t| == 1 && outcome == Errored
       else ChooseForm(o, t[1..], t[0].reply.services, outcome)
  }

  // ---------- every run has this form ----------

  lemma {:induction false} Over(o: Plan, pc: Pc, t: seq<Event>)
    requires pc.Halted? || pc.Stuck?
    ensures RunFrom(o, pc, t) == if t == [] then pc else Stuck
  {
    if t != [] {
      Over(o, pc, t[..|t| - 1]);
    }
  }

  /** The first event of a part, and the rest. */
  lemma Peel(o: Plan, pc: Pc, t: seq<Event>, outcome: Outcome) returns (next: Pc)
    requires RunFrom(o, pc, t) == Halted(outcome) && !pc.Halted?
    ensures t != [] && next == Step(o, pc, t[0]) && RunFrom(o, next, t[1..]) == Halted(outcome)
    ensures SendsAt(t, 0, NextCall(o, pc)) && next == Advance(o, pc, t[0].reply)
    ensures next.Halted? ==> |t| == 1 && next.outcome == outcome
  {
    assert t != [];
    assert t == [t[0]] + t[1..] && [t[0]][..0] == [];
    RunConcat(o, pc, [t[0]], t[1..]);
    assert RunFrom(o, pc, [t[0]]) == Step(o, RunFrom(o, pc, []), t[0]);
    next := Step(o, pc, t[0]);
    if next.Halted? || next.Stuck? {
      Over(o, next, t[1..]);
    }
  }

  lemma ReadyShape(o: Plan, a: Account, r: Ready, e: Event)
    requires !r.ReadyStuck? && !r.ReadyDone? && !Step(o, Readying(a, r), e).Stuck?
    ensures !ReadyStep(o.WaitFor(a.service.name), o.username, r, e).ReadyStuck?
  {
  }

  lemma {:induction false} ReadyKeepsOn(o: Plan, a: Account, from: Ready, t: seq<Event>)
    requires !from.ReadyStuck? && !from.ReadyDone? && !RunFrom(o, Readying(a, from), t).Stuck?
    ensures !ReadyRun(o.WaitFor(a.service.name), o.username, from, t).ReadyStuck?
  {
    if t != [] {
      var init, last := t[..|t| - 1], t[|t| - 1];
      ReadyKeepsOn(o, a, from, init);
      ReadyInside(o, a, from, init);
      ReadyShape(o, a, ReadyRun(o.WaitFor(a.service.name), o.username, from, init), last);
    }
  }

  lemma Served(o: Plan, t: seq<Event>, a: Account, domain: string, outcome: Outcome)
    requires RunFrom(o, Readying(a, ReadyStart(a.password, domain)), t) == Halted(outcome)
    ensures ServeForm(o, t, a, domain, outcome)
  {
    var w, from := o.WaitFor(a.service.name), ReadyStart(a.password, domain);
    ReadyKeepsOn(o, a, from, t);
    ReadyInside(o, a, from, t);
    ReadyExactly(w, o.username, a.password, domain, t);
  }

  lemma Ported(o: Plan, t: seq<Event>, a: Account, d: Domain, outcome: Outcome)
    requires RunFrom(o, WithDomain(o, a, d), t) == Halted(outcome)
    ensures PortForm(o, t, a, d, outcome)
  {
    if d.port == Some(o.port) {
      Served(o, t, a, d.domain, outcome);
    } else {
      var next := Peel(o, Porting(a, d), t, outcome);
      if next.Readying? {
        Served(o, t[1..], a, t[0].reply.domains[0].domain, outcome);
      }
    }
  }

  lemma MadeDomain(o: Plan, t: seq<Event>, a: Account, outcome: Outcome)
    requires RunFrom(o, FindMadeDomain(a), t) == Halted(outcome)
    ensures MadeForm(o, t, a, outcome)
  {
    var next := Peel(o, FindMadeDomain(a), t, outcome);
    if !next.Halted? {
      Ported(o, t[1..], a, PickDomain(t[0].reply.domains).value, outcome);
    }
  }

  lemma MakingDomainOf(o: Plan, t: seq<Event>, a: Account, outcome: Outcome)
    requires RunFrom(o, MakingDomain(a), t) == Halted(outcome)
    ensures MakeForm(o, t, a, outcome)
  {
    var next := Peel(o, MakingDomain(a), t, outcome);
    if !next.Halted? {
      MadeDomain(o, t[1..], a, outcome);
    }
  }

  lemma FoundDomain(o: Plan, t: seq<Event>, a: Account, outcome: Outcome)
    requires RunFrom(o, FindDomain(a), t) == Halted(outcome)
    ensures DomainForm(o, t, a, outcome)
  {
    var next := Peel(o, FindDomain(a), t, outcome);
    if next.MakingDomain? {
      MakingDomainOf(o, t[1..], a, outcome);
    } else if !next.Halted? {
      Ported(o, t[1..], a, PickDomain(t[0].reply.domains).value, outcome);
    }
  }

  lemma ReadTokenOf(o: Plan, t: seq<Event>, s: Service, password: string, outcome: Outcome)
    requires RunFrom(o, ReadingToken(s, password), t) == Halted(outcome)
    ensures TokenForm(o, t, s, password, outcome)
  {
    var next := Peel(o, ReadingToken(s, password), t, outcome);
    if !next.Halted? {
      FoundDomain(o, t[1..], next.account, outcome);
    }
  }

  lemma ReadCredentialsOf(o: Plan, t: seq<Event>, s: Service, outcome: Outcome)
    requires RunFrom(o, ReadingPassword(s), t) == Halted(outcome)
    ensures ReuseForm(o, t, s, outcome)
  {
    var next := Peel(o, ReadingPassword(s), t, outcome);
    if !next.Halted? {
      ReadTokenOf(o, t[1..], s, next.password, outcome);
    }
  }

  lemma PollShape(o: Plan, c: Service, q: Poll, e: Event)
    requires !q.PollStuck? && !q.PollDone? && !Step(o, Awaiting(c, q), e).Stuck?
    ensures !PollStep(o.WaitFor(c.name), None, q, e).PollStuck?
  {
  }

  /** A run that awaits a deployment polls until the poll is done; what is left goes on. */
  lemma {:induction false} PollParts(o: Plan, c: Service, t: seq<Event>) returns (m: nat)
    requires !RunFrom(o, Awaiting(c, PollStart), t).Stuck?
    ensures m <= |t| && !PollRun(o.WaitFor(c.name), None, t[..m]).PollStuck?
    ensures m < |t| ==> PollRun(o.WaitFor(c.name), None, t[..m]).PollDone?
  {
    var w := o.WaitFor(c.name);
    if t == [] {
      m := 0;
    } else {
      var init, last := t[..|t| - 1], t[|t| - 1];
      m := PollParts(o, c, init);
      assert init[..m] == t[..m];
      if m == |init| {
        PollInside(o, c, init);
        var q := PollRun(w, None, init);
        assert t[..m] == init;
        if !q.PollDone? {
          PollShape(o, c, q, last);
          m := |t|;
          assert t[..m] == t;
        }
      }
    }
  }

  lemma Awaited(o: Plan, t: seq<Event>, c: Service, outcome: Outcome)
    requires RunFrom(o, Awaiting(c, PollStart), t) == Halted(outcome)
    ensures AwaitForm(o, t, c, outcome)
  {
    var m := PollParts(o, c, t);
    assert t[..m] + t[m..] == t;
    AwaitedParts(o, t[..m], t[m..], c, outcome);
  }

  lemma AwaitedParts(o: Plan, polled: seq<Event>, rest: seq<Event>, c: Service, outcome: Outcome)
    requires RunFrom(o, Awaiting(c, PollStart), polled + rest) == Halted(outcome)
    requires !PollRun(o.WaitFor(c.name), None, polled).PollStuck?
    requires rest != [] ==> PollRun(o.WaitFor(c.name), None, polled).PollDone?
    ensures AwaitForm(o, polled + rest, c, outcome)
  {
    var w, t := o.WaitFor(c.name), polled + rest;
    var q := PollRun(w, None, polled);
    PollInside(o, c, polled);
    RunConcat(o, Awaiting(c, PollStart), polled, rest);
    assert RunFrom(o, AfterPoll(o, c, q), rest) == Halted(outcome);
    assert q.PollDone?;
    PollExactly(w, None, polled);
    assert t[..|polled|] == polled && t[|polled|..] == rest;
    assert BuiltAt(o, t, c, |polled|, q.result);
    AfterBuild(o, rest, c, q.result, outcome);
  }

  lemma AfterBuild(o: Plan, t: seq<Event>, c: Service, result: PollResult, outcome: Outcome)
    requires RunFrom(o, AfterPoll(o, c, PollDone(result)), t) == Halted(outcome)
    ensures AfterForm(o, t, result, outcome)
  {
    if result.Settled? {
      FoundDomain(o, t, Account(result.settled, o.password, o.token, false), outcome);
    } else {
      Over(o, Halted(Errored), t);
    }
  }

  lemma Built(o: Plan, t: seq<Event>, c: Service, outcome: Outcome)
    requires RunFrom(o, Redeploying(c), t) == Halted(outcome)
    ensures BuildForm(o, t, c, outcome)
  {
    var next := Peel(o, Redeploying(c), t, outcome);
    if !next.Halted? {
      Awaited(o, t[1..], c, outcome);
    }
  }

  lemma WroteOne(o: Plan, t: seq<Event>, c: Service, k: nat, outcome: Outcome)
    requires k < |o.entries| && RunFrom(o, Writing(c, k), t) == Halted(outcome)
    ensures SendsAt(t, 0, SetVariable(c.name, o.entries[k].0, o.entries[k].1))
    ensures if t[0].reply.Failed? then |t| == 1 && outcome == Errored
            else t[0].reply == Done && RunFrom(o, Written(o, c, k + 1), t[1..]) == Halted(outcome)
  {
    var _ := Peel(o, Writing(c, k), t, outcome);
  }

  lemma {:induction false} Wrote(o: Plan, t: seq<Event>, c: Service, k: nat, outcome: Outcome)
    requires WritesFirst(o, t, c, k) && RunFrom(o, Written(o, c, k), t[k..]) == Halted(outcome)
    ensures WriteForm(o, t, c, outcome)
    decreases |o.entries| - k
  {
    var rest := t[k..];
    if k == |o.entries| {
      Built(o, rest, c, outcome);
    } else {
      WroteOne(o, rest, c, k, outcome);
      if rest[0].reply.Done? {
        assert rest[1..] == t[k + 1..];
        Wrote(o, t, c, k + 1, outcome);
      }
    }
  }

  lemma Attached(o: Plan, t: seq<Event>, c: Service, outcome: Outcome)
    requires RunFrom(o, Attaching(c), t) == Halted(outcome)
    ensures AttachForm(o, t, c, outcome)
  {
    var next := Peel(o, Attaching(c), t, outcome);
    if !next.Halted? {
      assert t[1..][0..] == t[1..];
      Wrote(o, t[1..], c, 0, outcome);
    }
  }

  lemma Configured(o: Plan, t: seq<Event>, c: Service, outcome: Outcome)
    requires RunFrom(o, Selecting(c), t) == Halted(outcome)
    ensures ConfigureForm(o, t, c, outcome)
  {
    var next := Peel(o, Selecting(c), t, outcome);
    if !next.Halted? {
      Attached(o, t[1..], c, outcome);
    }
  }

  lemma FoundNew(o: Plan, t: seq<Event>, before: seq<Service>, outcome: Outcome)
    requires RunFrom(o, ListAfter(before), t) == Halted(outcome)
    ensures DiffForm(o, t, before, outcome)
  {
    var next := Peel(o, ListAfter(before), t, outcome);
    if t[0].reply.Services? {
      NewOne(o, before, t[0].reply.services, next);
      if next.Selecting? {
        Configured(o, t[1..], next.created, outcome);
      }
    }
  }

  lemma CreatedNew(o: Plan, t: seq<Event>, before: seq<Service>, outcome: Outcome)
    requires RunFrom(o, Upping(before), t) == Halted(outcome)
    ensures CreateForm(o, t, before, outcome)
  {
    var next := Peel(o, Upping(before), t, outcome);
    if !next.Halted? {
      FoundNew(o, t[1..], before, outcome);
    }
  }

  lemma NewOne(o: Plan, before: seq<Service>, after: seq<Service>, listed: Pc)
    requires listed == Advance(o, ListAfter(before), Services(after))
    ensures if listed.Selecting? then exists i :: OnlyNewAt(before, after, i) && after[i] == listed.created
            else listed == Halted(Errored) && forall i :: !OnlyNewAt(before, after, i)
  {
    var sole := SelectSole(Created(before, after));
    if sole.Only? {
      DiffFindsTheNewOne(before, after, sole.service);
    }
    forall i | OnlyNewAt(before, after, i) ensures sole == Only(after[i]) {
      DiffFindsTheNewOne(before, after, after[i]);
    }
  }

  lemma Chose(o: Plan, t: seq<Event>, before: seq<Service>, outcome: Outcome)
    requires RunFrom(o, Choose(o, before), t) == Halted(outcome)
    ensures ChooseForm(o, t, before, outcome)
  {
    if before == [] || (|before| == 1 && o.forceNew) {
      CreatedNew(o, t, before, outcome);
    } else if |before| == 1 && before[0].Status() == Some(SUCCESS) {
      ReadCredentialsOf(o, t, before[0], outcome);
    } else {
      Over(o, Halted(Errored), t);
    }
  }

  lemma Listed(o: Plan, t: seq<Event>, outcome: Outcome)
    requires RunFrom(o, ListBefore, t) == Halted(outcome)
    ensures ListForm(o, t, outcome)
  {
    var next := Peel(o, ListBefore, t, outcome);
    if t[0].reply.Services? {
      Chose(o, t[1..], t[0].reply.services, outcome);
    }
  }

  // ---------- the main results ----------

  /** Every finished provisioning run is a trace of the closed form. */
  lemma RunHasTheForm(o: Plan, t: seq<Event>, outcome: Outcome)
    requires Run(o, t) == Halted(outcome)
    ensures ProvisionForm(o, t, outcome)
  {
    var next := Peel(o, Linking, t, outcome);
    if !next.Halted? {
      Listed(o, t[1..], outcome);
    }
  }

  /** When a service is created, when one is reused and when neither, told from the first
      listing alone and at whatever point the run stands. */
  lemma WhenItCreates(o: Plan, t: seq<Event>, before: seq<Service>)
    requires !Run(o, t).Stuck? && |t| >= 2 && t[1].reply == Services(before)
    ensures |t| >= 3 ==> (t[2].call == Up <==> before == [] || (|before| == 1 && o.forceNew))
    ensures |t| >= 3 ==>
              (t[2].call.ListVariables? <==> |before| == 1 && before[0].Status() == Some(SUCCESS) && !o.forceNew)
    ensures |t| == 2 ==>
              (Run(o, t) == Halted(Errored) <==>
               |before| > 1 || (|before| == 1 && before[0].Status() != Some(SUCCESS) && !o.forceNew))
    ensures |t| >= 3 ==> |before| <= 1
  {
    MadeFrom(o, t, 0);
    MadeFrom(o, t, 1);
    assert t[..1][..0] == t[..0] == [] && t[..2][..1] == t[..1];
    if |t| >= 3 {
      MadeFrom(o, t, 2);
    } else {
      assert t[..2] == t;
    }
  }
}
