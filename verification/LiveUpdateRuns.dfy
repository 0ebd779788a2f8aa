/** What the result of a live update says about everything that happened, over all runs
    against a platform that answers in any way at all. */
module LiveUpdateRuns {
  import opened Options
  import opened Railway
  import opened Polling
  import opened LiveUpdate

  /** The first read, with what it was decided to do. */
  predicate Decided(u: Update, e: Event, decision: Decision) {
    && e.call == ListVariables(u.wait.service) && e.reply.Variables?
    && Decide(u, Lookup(e.reply.vars, u.variable)) == decision
  }

  predicate CapturedPrior(u: Update, e: Event, prior: string) {
    e.call == ListServices && e.reply.Services? && PriorId(e.reply.services, u.wait.service) == Some(prior)
  }

  predicate Written(u: Update, e: Event) {
    e == Event(SetVariable(u.wait.service, u.variable, u.next), Done)
  }

  /** The service is seen in SUCCESS under an identified deployment other than `prior`. */
  predicate RolledOver(u: Update, prior: string, e: Event) {
    && e.call == ListServices && e.reply.Services?
    && var found := FindService(e.reply.services, u.wait.service);
       found.Some? && found.value.Status() == Some(SUCCESS)
       && found.value.DeploymentId().Some? && found.value.DeploymentId() != Some(prior)
  }

  predicate Answered(u: Update, e: Event) {
    e.call.CheckSetup? && e.call.username == u.username && e.reply == HttpStatus(200)
  }

  predicate ReadsBack(u: Update, e: Event) {
    && e.call == ListVariables(u.wait.service) && e.reply.Variables?
    && Lookup(e.reply.vars, u.variable) == Some(u.next)
  }

  ghost predicate NoMutationFrom(t: seq<Event>, k: nat) {
    forall i :: k <= i < |t| ==> !Mutates(t[i].call)
  }

  /** The write returned: the only mutating calls are it and, right after it, at most one
      redeploy, and both name the given service. */
  ghost predicate WriteReturned(u: Update, t: seq<Event>, prior: string) {
    && |t| >= 3
    && Decided(u, t[0], Proceed) && CapturedPrior(u, t[1], prior) && Written(u, t[2])
    && (|t| >= 4 ==> t[3].call == Redeploy(u.wait.service))
    && NoMutationFrom(t, 4)
  }

  ghost predicate Redeployed(u: Update, t: seq<Event>, prior: string) {
    WriteReturned(u, t, prior) && |t| >= 4 && t[3].reply == Done
  }

  ghost predicate RolledAt(u: Update, t: seq<Event>, prior: string, s: int) {
    4 <= s < |t| && RolledOver(u, prior, t[s])
  }

  ghost predicate AnsweredAt(u: Update, t: seq<Event>, h: int) {
    0 <= h < |t| && Answered(u, t[h])
  }

  /** A different deployment reached SUCCESS and the service answered 200 afterwards. */
  ghost predicate Served(u: Update, t: seq<Event>, prior: string) {
    exists s, h :: RolledAt(u, t, prior, s) && AnsweredAt(u, t, h) && s < h
  }

  /** What holds of a trace wherever the run stands. */
  ghost predicate History(u: Update, t: seq<Event>) {
    match Run(u, t)
    case ReadCurrent => t == []
    case CaptureId => |t| == 1 && Decided(u, t[0], Proceed)
    case Writing(prior) => |t| == 2 && Decided(u, t[0], Proceed) && CapturedPrior(u, t[1], prior)
    case Redeploying(prior) => |t| == 3 && WriteReturned(u, t, prior)
    case Awaiting(prior, _) =>
      Redeployed(u, t, prior)
      && forall k :: 4 <= k < |t| ==> !RolledOver(u, prior, t[k]) && !t[k].call.CheckSetup?
    case Readying(None, _) =>
      |t| >= 1 && Decided(u, t[0], ConfirmOnly) && NoMutationFrom(t, 0)
      && forall k :: 0 <= k < |t| ==> !Answered(u, t[k])
    case Readying(Some(prior), _) =>
      Redeployed(u, t, prior)
      && (exists s :: RolledAt(u, t, prior, s))
      && forall k :: 4 <= k < |t| ==> !Answered(u, t[k])
    case ReadBack(prior) =>
      Redeployed(u, t, prior) && AnsweredAt(u, t, |t| - 1) && exists s :: RolledAt(u, t, prior, s) && s < |t| - 1
    case Halted(outcome) => Concluded(u, t, outcome)
    case Stuck => true
  }

  ghost predicate Concluded(u: Update, t: seq<Event>, outcome: Outcome) {
    match outcome
    case Aborted => NoMutationFrom(t, 0) && 1 <= |t| <= 2 && t[|t| - 1].reply.Failed?
    case Refused =>
      NoMutationFrom(t, 0)
      && (|| (|t| == 1 && Decided(u, t[0], Refuse))
          || (|t| == 2 && Decided(u, t[0], Proceed) && t[1].call == ListServices && t[1].reply.Services?
              && PriorId(t[1].reply.services, u.wait.service).None?))
    case NotServing =>
      NoMutationFrom(t, 0) && |t| >= 2 && Decided(u, t[0], ConfirmOnly)
      && forall k :: 0 <= k < |t| ==> !Answered(u, t[k])
    case NoOp =>
      NoMutationFrom(t, 0) && |t| >= 2 && Decided(u, t[0], ConfirmOnly) && Answered(u, t[|t| - 1])
    case WriteUncertain =>
      |t| == 3 && Decided(u, t[0], Proceed)
      && (exists prior :: CapturedPrior(u, t[1], prior))
      && t[2] == Event(SetVariable(u.wait.service, u.variable, u.next), Failed)
    case Unconfirmed =>
      |t| >= 4 && exists prior :: WriteReturned(u, t, prior) && !Served(u, t, prior)
    case VerificationFailed =>
      AnsweredAt(u, t, |t| - 2) && t[|t| - 1].call == ListVariables(u.wait.service) && !ReadsBack(u, t[|t| - 1])
      && exists prior, s :: Redeployed(u, t, prior) && RolledAt(u, t, prior, s) && s < |t| - 2
    case Changed =>
      AnsweredAt(u, t, |t| - 2) && ReadsBack(u, t[|t| - 1])
      && exists prior, s :: Redeployed(u, t, prior) && RolledAt(u, t, prior, s) && s < |t| - 2
  }

  /** Every trace the protocol can produce has the history its state claims. */
  lemma {:induction false} HistoryHolds(u: Update, t: seq<Event>)
    requires !Run(u, t).Stuck?
    ensures History(u, t)
  {
    if t != [] {
      var init, last := t[..|t| - 1], t[|t| - 1];
      assert t == init + [last];
      HistoryHolds(u, init);
      match Run(u, init) {
        case Awaiting(prior, q) => AwaitingStep(u, init, last, prior, q);
        case Readying(None, r) => ConfirmingStep(u, init, last, r);
        case Readying(Some(prior), r) => ReadyingStep(u, init, last, prior, r);
        case ReadBack(prior) => ReadBackStep(u, init, last, prior);
        case _ => EarlyStep(u, init, last);
      }
    }
  }

  lemma EarlyStep(u: Update, t: seq<Event>, e: Event)
    requires History(u, t) && !Run(u, t + [e]).Stuck?
    requires var pc := Run(u, t); pc.ReadCurrent? || pc.CaptureId? || pc.Writing? || pc.Redeploying? || pc.Halted? || pc.Stuck?
    ensures History(u, t + [e])
  {
    RunSnoc(u, t, e);
    var pc, t' := Run(u, t), t + [e];
    match pc {
      case ReadCurrent =>
      case CaptureId =>
      case Writing(prior) => assert CapturedPrior(u, t'[1], prior);
      case Redeploying(prior) =>
        if e.reply.Failed? {
          assert WriteReturned(u, t', prior) && !Served(u, t', prior);
        }
      case _ =>
    }
  }

  lemma AwaitingStep(u: Update, t: seq<Event>, e: Event, prior: string, q: Poll)
    requires History(u, t) && Run(u, t) == Awaiting(prior, q) && !Run(u, t + [e]).Stuck?
    ensures History(u, t + [e])
  {
    RunSnoc(u, t, e);
    var t' := t + [e];
    assert !Mutates(e.call) && !e.call.CheckSetup?;
    assert Redeployed(u, t', prior);
    var pc' := Run(u, t');
    if pc'.Readying? {
      assert RolledAt(u, t', prior, |t|);
    } else if pc'.Halted? {
      assert WriteReturned(u, t', prior) && !Served(u, t', prior);
    }
  }

  lemma ConfirmingStep(u: Update, t: seq<Event>, e: Event, r: Ready)
    requires History(u, t) && Run(u, t) == Readying(None, r) && !Run(u, t + [e]).Stuck?
    ensures History(u, t + [e])
  {
    RunSnoc(u, t, e);
    assert !Mutates(e.call);
  }

  lemma ReadyingStep(u: Update, t: seq<Event>, e: Event, prior: string, r: Ready)
    requires History(u, t) && Run(u, t) == Readying(Some(prior), r) && !Run(u, t + [e]).Stuck?
    ensures History(u, t + [e])
  {
    RunSnoc(u, t, e);
    var t' := t + [e];
    assert !Mutates(e.call);
    assert Redeployed(u, t', prior);
    var s :| RolledAt(u, t, prior, s);
    assert RolledAt(u, t', prior, s);
    if Run(u, t').Halted? {
      assert WriteReturned(u, t', prior) && !Served(u, t', prior);
    }
  }

  lemma ReadBackStep(u: Update, t: seq<Event>, e: Event, prior: string)
    requires History(u, t) && Run(u, t) == ReadBack(prior) && !Run(u, t + [e]).Stuck?
    ensures History(u, t + [e])
  {
    RunSnoc(u, t, e);
    var t' := t + [e];
    var s :| RolledAt(u, t, prior, s) && s < |t| - 1;
    assert AnsweredAt(u, t', |t'| - 2);
    assert Redeployed(u, t', prior) && RolledAt(u, t', prior, s);
  }

  // ---------- the main results ----------

  /** Success means, in this order: a read that matched the declared belief, the captured
      prior id, one write of the requested value, one redeploy, an observed SUCCESS of an
      identified different deployment, the service's own password and domain read (at a
      and b), a 200 answer to a request with that password at that domain, and a read-back
      of the requested value.  No other call of the run changes anything. */
  lemma SuccessEvidence(u: Update, t: seq<Event>)
    returns (prior: string, s: nat, a: nat, b: nat, password: string, domain: string)
    requires Run(u, t) == Halted(Changed)
    ensures 4 <= s < a < b < |t| - 2
    ensures t[0].call == ListVariables(u.wait.service) && t[0].reply.Variables?
    ensures var current := Lookup(t[0].reply.vars, u.variable);
            if u.mode.Rotation? then current.Some?
            else current == Belief(u.mode.expected) && (u.mode.force || current != Some(u.next))
    ensures CapturedPrior(u, t[1], prior)
    ensures t[2] == Event(SetVariable(u.wait.service, u.variable, u.next), Done)
    ensures t[3] == Event(Redeploy(u.wait.service), Done)
    ensures RolledOver(u, prior, t[s])
    ensures GivesPassword(u, t[a], password) && GivesDomain(u, t[b], domain)
    ensures t[|t| - 2] == Event(CheckSetup(domain, u.username, password), HttpStatus(200)) && ReadsBack(u, t[|t| - 1])
    ensures forall i :: 0 <= i < |t| && i != 2 && i != 3 ==> !Mutates(t[i].call)
  {
    prior, s := DeploymentEvidence(u, t);
    EntranceHolds(u, t);
    a, b, password, domain :| Entered(u, t, a, b, password, domain) && Served200(u, t, |t| - 2, password, domain);
    assert t[s].call.ListServices?;
  }

  lemma DeploymentEvidence(u: Update, t: seq<Event>) returns (prior: string, s: nat)
    requires Run(u, t) == Halted(Changed)
    ensures 4 <= s < |t| - 2 && RolledOver(u, prior, t[s]) && CapturedPrior(u, t[1], prior) && Decided(u, t[0], Proceed)
    ensures Written(u, t[2]) && t[3] == Event(Redeploy(u.wait.service), Done) && ReadsBack(u, t[|t| - 1])
    ensures forall i :: 0 <= i < |t| && i != 2 && i != 3 ==> !Mutates(t[i].call)
  {
    HistoryHolds(u, t);
    prior, s :| Redeployed(u, t, prior) && RolledAt(u, t, prior, s) && s < |t| - 2;
  }

  // ---------- whose password, which domain ----------

  predicate GivesPassword(u: Update, e: Event, password: string) {
    && e.call == ListVariables(u.wait.service) && e.reply.Variables?
    && Lookup(e.reply.vars, "SETUP_PASSWORD") == Some(password) && password != ""
  }

  predicate GivesDomain(u: Update, e: Event, domain: string) {
    && e.call == ListDomains(u.wait.service) && e.reply.Domains?
    && PickDomain(e.reply.domains).Some? && PickDomain(e.reply.domains).value.domain == domain
  }

  ghost predicate NoListingAfter(t: seq<Event>, a: int) {
    forall i :: 0 <= a < i < |t| ==> !t[i].call.ListServices?
  }

  ghost predicate HasPassword(u: Update, t: seq<Event>, a: int, password: string) {
    1 <= a < |t| && GivesPassword(u, t[a], password) && NoListingAfter(t, a)
  }

  ghost predicate Entered(u: Update, t: seq<Event>, a: int, b: int, password: string, domain: string) {
    HasPassword(u, t, a, password) && a < b < |t| && GivesDomain(u, t[b], domain)
  }

  predicate Served200(u: Update, t: seq<Event>, k: int, password: string, domain: string) {
    0 <= k < |t| && t[k] == Event(CheckSetup(domain, u.username, password), HttpStatus(200))
  }

  ghost predicate EnteredAndServed(u: Update, t: seq<Event>, k: int) {
    exists a, b, p, d :: Entered(u, t, a, b, p, d) && b < k && Served200(u, t, k, p, d)
  }

  /** What is known of the entrance wherever the run stands. */
  ghost predicate Entrance(u: Update, t: seq<Event>, pc: Pc) {
    match pc
    case ReadCurrent => true
    case Readying(_, r) =>
      |t| >= 1 &&
      (match r
       case ReadDomains(p) => exists a :: HasPassword(u, t, a, p)
       case ReadyStart(p, d) => exists a, b :: Entered(u, t, a, b, p, d)
       case ReadyCheck(p, d, _) => exists a, b :: Entered(u, t, a, b, p, d)
       case ReadySleep(p, d, _) => exists a, b :: Entered(u, t, a, b, p, d)
       case ReadyClock(p, d, _) => exists a, b :: Entered(u, t, a, b, p, d)
       case _ => true)
    case ReadBack(_) => EnteredAndServed(u, t, |t| - 1)
    case Halted(outcome) =>
      && (outcome == NoOp ==> EnteredAndServed(u, t, |t| - 1))
      && (outcome == Changed || outcome == VerificationFailed ==> EnteredAndServed(u, t, |t| - 2))
    case _ => |t| >= 1
  }

  lemma StillEntered(u: Update, t: seq<Event>, e: Event, a: int, b: int, p: string, d: string)
    requires Entered(u, t, a, b, p, d) && !e.call.ListServices?
    ensures Entered(u, t + [e], a, b, p, d)
  {
  }

  lemma EntranceStep(u: Update, t: seq<Event>, pc: Pc, e: Event)
    requires Entrance(u, t, pc) && !Step(u, pc, e).Stuck?
    ensures Entrance(u, t + [e], Step(u, pc, e))
  {
    var t' := t + [e];
    match pc {
      case Readying(deployed, r) => ReadyingEntrance(u, t, deployed, r, e);
      case ReadBack(prior) =>
        var a, b, p, d :| Entered(u, t, a, b, p, d) && b < |t| - 1 && Served200(u, t, |t| - 1, p, d);
        StillEntered(u, t, e, a, b, p, d);
        assert Served200(u, t', |t'| - 2, p, d);
      case _ =>
    }
  }

  lemma ReadyingEntrance(u: Update, t: seq<Event>, deployed: Option<string>, r: Ready, e: Event)
    requires Entrance(u, t, Readying(deployed, r)) && !Step(u, Readying(deployed, r), e).Stuck?
    ensures Entrance(u, t + [e], Step(u, Readying(deployed, r), e))
  {
    var t' := t + [e];
    match r {
      case ReadPassword =>
        if e.reply.Variables? && Lookup(e.reply.vars, "SETUP_PASSWORD").Some? {
          assert Lookup(e.reply.vars, "SETUP_PASSWORD").value != "" ==>
                 HasPassword(u, t', |t|, Lookup(e.reply.vars, "SETUP_PASSWORD").value);
        }
      case ReadDomains(p) =>
        var a :| HasPassword(u, t, a, p);
        assert HasPassword(u, t', a, p);
        if e.reply.Domains? && PickDomain(e.reply.domains).Some? {
          assert Entered(u, t', a, |t|, p, PickDomain(e.reply.domains).value.domain);
        }
      case ReadyStart(p, d) => KeepEntered(u, t, e, p, d);
      case ReadyCheck(p, d, _) => KeepEntered(u, t, e, p, d);
      case ReadySleep(p, d, _) => KeepEntered(u, t, e, p, d);
      case ReadyClock(p, d, _) => KeepEntered(u, t, e, p, d);
      case _ =>
    }
  }

  lemma KeepEntered(u: Update, t: seq<Event>, e: Event, p: string, d: string)
    requires !e.call.ListServices? && exists a, b :: Entered(u, t, a, b, p, d)
    ensures exists a, b :: Entered(u, t + [e], a, b, p, d)
    ensures e == Event(CheckSetup(d, u.username, p), HttpStatus(200)) ==> EnteredAndServed(u, t + [e], |t|)
  {
    var a, b :| Entered(u, t, a, b, p, d);
    StillEntered(u, t, e, a, b, p, d);
    if e == Event(CheckSetup(d, u.username, p), HttpStatus(200)) {
      assert Served200(u, t + [e], |t|, p, d);
    }
  }

  lemma {:induction false} EntranceHolds(u: Update, t: seq<Event>)
    requires !Run(u, t).Stuck?
    ensures Entrance(u, t, Run(u, t))
  {
    if t != [] {
      var init, last := t[..|t| - 1], t[|t| - 1];
      EntranceHolds(u, init);
      EntranceStep(u, init, Run(u, init), last);
      assert t == init + [last];
    }
  }

  // ---------- the error classes ----------

  ghost predicate ServedByNew(u: Update, t: seq<Event>) {
    exists prior :: WriteReturned(u, t, prior) && Served(u, t, prior)
  }

  /** The error classes are told apart by what happened, both ways round.  Nothing was
      changed in exactly the first four; "not certain" is exactly a failed write call;
      the last three are exactly the runs whose write returned; and of those,
      RefVerificationError and success are exactly the ones in which a different
      deployment reached SUCCESS and then answered 200, split by the read-back. */
  lemma OutcomeClasses(u: Update, t: seq<Event>, outcome: Outcome)
    requires Run(u, t) == Halted(outcome)
    ensures outcome in {Aborted, Refused, NotServing, NoOp} <==> NoMutationFrom(t, 0)
    ensures outcome == WriteUncertain <==> exists i :: 0 <= i < |t| && t[i].call.SetVariable? && t[i].reply.Failed?
    ensures outcome in {Unconfirmed, VerificationFailed, Changed}
            <==> exists i :: 0 <= i < |t| && t[i].call.SetVariable? && t[i].reply.Done?
    ensures outcome in {VerificationFailed, Changed} <==> ServedByNew(u, t)
    ensures outcome == Changed <==> ServedByNew(u, t) && ReadsBack(u, t[|t| - 1])
  {
    HistoryHolds(u, t);
    match outcome {
      case Unconfirmed =>
        var prior :| WriteReturned(u, t, prior) && !Served(u, t, prior);
        assert t[2].call.SetVariable? && t[2].reply.Done?;
        assert forall other :: WriteReturned(u, t, other) ==> other == prior;
      case VerificationFailed => WasServed(u, t);
      case Changed => WasServed(u, t);
      case WriteUncertain => assert t[2].call.SetVariable? && t[2].reply.Failed?;
      case _ =>
    }
  }

  /** At every point of every run, however it ends, a call that changes anything is the one
      write, in third place, or the one redeploy behind it, both of the given service. */
  lemma OnlyTheGivenService(u: Update, t: seq<Event>)
    requires !Run(u, t).Stuck?
    ensures forall i :: 0 <= i < |t| && Mutates(t[i].call) ==>
              || (i == 2 && t[i].call == SetVariable(u.wait.service, u.variable, u.next))
              || (i == 3 && t[i].call == Redeploy(u.wait.service) && t[2].reply.Done?)
  {
    HistoryHolds(u, t);
  }

  /** The four outcomes without a change, told apart by what was read: a failed first or
      second call; a first read that does not match, or no prior id; and for a value
      already in place, whether the last request was answered 200. */
  lemma NoChangeClasses(u: Update, t: seq<Event>, outcome: Outcome)
    requires Run(u, t) == Halted(outcome)
    ensures outcome == Aborted <==>
            t[0].reply.Failed? || (|t| == 2 && Decided(u, t[0], Proceed) && t[1].reply.Failed?)
    ensures outcome == Refused <==>
            || Decided(u, t[0], Refuse)
            || (|t| == 2 && Decided(u, t[0], Proceed) && t[1].reply.Services?
                && PriorId(t[1].reply.services, u.wait.service).None?)
    ensures outcome == NoOp <==> Decided(u, t[0], ConfirmOnly) && Answered(u, t[|t| - 1])
    ensures outcome == NotServing <==> Decided(u, t[0], ConfirmOnly) && !Answered(u, t[|t| - 1])
  {
    HistoryHolds(u, t);
    if outcome == VerificationFailed || outcome == Changed {
      WasServed(u, t);
    }
  }

  lemma WasServed(u: Update, t: seq<Event>)
    requires Concluded(u, t, VerificationFailed) || Concluded(u, t, Changed)
    ensures |t| >= 3 && t[2].call.SetVariable? && t[2].reply.Done? && !NoMutationFrom(t, 0)
    ensures forall i :: 0 <= i < |t| && t[i].call.SetVariable? ==> i == 2
    ensures ServedByNew(u, t)
  {
    var prior, s :| Redeployed(u, t, prior) && RolledAt(u, t, prior, s) && s < |t| - 2;
    assert RolledAt(u, t, prior, s) && AnsweredAt(u, t, |t| - 2);
    assert WriteReturned(u, t, prior) && Served(u, t, prior);
    assert Mutates(t[2].call);
  }

  /** An unforced update whose value is already in place never touches the service. */
  lemma NoOpNeverRedeploys(u: Update, t: seq<Event>)
    requires !Run(u, t).Stuck? && |t| >= 1 && u.mode.CompareFirst? && !u.mode.force
    requires t[0].reply.Variables? && Lookup(t[0].reply.vars, u.variable) == Some(u.next)
    ensures NoMutationFrom(t, 0)
  {
    HistoryHolds(u, t);
  }
}
