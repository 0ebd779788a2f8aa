/** Changing one variable of a live service: check, capture the prior deployment, write,
    redeploy, wait for a different deployment, wait for an authenticated answer, read
    the value back.  The protocol is a resumption over calls and replies; the two
    methods at the end are the program and are proved to follow it. */
module LiveUpdate {
  import opened Options
  import opened Railway
  import opened Polling

  /** The expected value that means "I expect the variable to be unset". */
  const EXPECTED_REF_UNSET := "<unset>"

  datatype Mode = CompareFirst(expected: string, force: bool) | Rotation

  datatype Update = Update(wait: Wait, variable: string, next: string, mode: Mode, username: string)

  /** What a run reports.  The first four are errors or a no-op before any change. */
  datatype Outcome =
    | Aborted             // a read failed before anything was decided
    | Refused             // a precondition does not hold
    | NotServing          // already at the ref, but not answering
    | NoOp                // already at the ref and answering: changed is false
    | WriteUncertain      // the write call itself failed
    | Unconfirmed         // "WAS updated, but not confirmed healthy"
    | VerificationFailed  // RefVerificationError
    | Changed             // changed and newDeploymentReady are true

  datatype Decision = Refuse | ConfirmOnly | Proceed

  /** What the first read leads to: an update goes on only if the caller's belief about
      the live value is right, and then leaves a service already at the ref alone unless
      forced; a rotation only needs something to rotate. */
  function Decide(u: Update, current: Option<string>): Decision {
    match u.mode
    case Rotation => if current.None? then Refuse else Proceed
    case CompareFirst(expected, force) =>
      if current != Belief(expected) then Refuse
      else if current == Some(u.next) && !force then ConfirmOnly
      else Proceed
  }

  /** The live value a caller declares by its expected-current-ref. */
  function Belief(expected: string): Option<string> {
    if expected == EXPECTED_REF_UNSET then None else Some(expected)
  }

  datatype Pc =
    | ReadCurrent
    | CaptureId
    | Writing(prior: string)
    | Redeploying(prior: string)
    | Awaiting(prior: string, q: Poll)
    | Readying(deployed: Option<string>, r: Ready)   // deployed is None on the no-op path
    | ReadBack(prior: string)
    | Halted(outcome: Outcome)
    | Stuck

  function NextCall(u: Update, pc: Pc): Call {
    match pc
    case ReadCurrent => ListVariables(u.wait.service)
    case CaptureId => ListServices
    case Writing(_) => SetVariable(u.wait.service, u.variable, u.next)
    case Redeploying(_) => Redeploy(u.wait.service)
    case Awaiting(_, q) => PollCall(u.wait, q)
    case Readying(_, r) => ReadyCall(u.wait, u.username, r)
    case ReadBack(_) => ListVariables(u.wait.service)
    case _ => ReadClock
  }

  function AfterPoll(prior: string, q: Poll): Pc {
    match q
    case PollDone(result) => if result.Settled? then Readying(Some(prior), ReadPassword) else Halted(Unconfirmed)
    case PollStuck => Stuck
    case _ => Awaiting(prior, q)
  }

  function AfterReady(deployed: Option<string>, r: Ready): Pc {
    match r
    case ReadyDone(ok) =>
      if deployed.None? then Halted(if ok then NoOp else NotServing)
      else if ok then ReadBack(deployed.value)
      else Halted(Unconfirmed)
    case ReadyStuck => Stuck
    case _ => Readying(deployed, r)
  }

  function Advance(u: Update, pc: Pc, reply: Reply): Pc {
    match pc
    case ReadCurrent =>
      if !reply.Variables? then Halted(Aborted)
      else (match Decide(u, Lookup(reply.vars, u.variable))
            case Refuse => Halted(Refused)
            case ConfirmOnly => Readying(None, ReadPassword)
            case Proceed => CaptureId)
    case CaptureId =>
      if !reply.Services? then Halted(Aborted)
      else
        var prior := PriorId(reply.services, u.wait.service);
        if prior.Some? then Writing(prior.value) else Halted(Refused)
    case Writing(prior) => if reply.Done? then Redeploying(prior) else Halted(WriteUncertain)
    case Redeploying(prior) => if reply.Done? then Awaiting(prior, PollStart) else Halted(Unconfirmed)
    case Awaiting(prior, q) => AfterPoll(prior, PollAdvance(u.wait, Some(prior), q, reply))
    case Readying(deployed, r) => AfterReady(deployed, ReadyAdvance(u.wait, r, reply))
    case ReadBack(_) =>
      if reply.Variables? && Lookup(reply.vars, u.variable) == Some(u.next)
      then Halted(Changed) else Halted(VerificationFailed)
    case _ => Stuck
  }

  function Step(u: Update, pc: Pc, e: Event): Pc {
    if !pc.Halted? && e.call == NextCall(u, pc) && Fits(e.call, e.reply)
    then Advance(u, pc, e.reply)
    else Stuck
  }

  /** Where the run stands after a trace of calls and replies; Stuck when the trace is
      not one the protocol can produce. */
  function Run(u: Update, t: seq<Event>): Pc {
    if t == [] then ReadCurrent
    else Step(u, Run(u, t[..|t| - 1]), t[|t| - 1])
  }

  lemma RunSnoc(u: Update, t: seq<Event>, e: Event)
    ensures Run(u, t + [e]) == Step(u, Run(u, t), e)
  {
    assert (t + [e])[..|t|] == t;
  }

  lemma PollMove(u: Update, prior: string, q: Poll, e: Event)
    requires !PollStep(u.wait, Some(prior), q, e).PollStuck?
    ensures !q.PollStuck? && !q.PollDone?
    ensures Step(u, AfterPoll(prior, q), e) == AfterPoll(prior, PollStep(u.wait, Some(prior), q, e))
  {
  }

  lemma ReadyMove(u: Update, deployed: Option<string>, r: Ready, e: Event)
    requires !ReadyStep(u.wait, u.username, r, e).ReadyStuck?
    ensures !r.ReadyStuck? && !r.ReadyDone?
    ensures Step(u, AfterReady(deployed, r), e) == AfterReady(deployed, ReadyStep(u.wait, u.username, r, e))
  {
  }

  /** A finished poll inside a run is a run of the protocol's waiting phase. */
  lemma {:induction false} PollInside(u: Update, t: seq<Event>, prior: string, s: seq<Event>)
    requires Run(u, t) == Awaiting(prior, PollStart)
    requires !PollRun(u.wait, Some(prior), s).PollStuck?
    ensures Run(u, t + s) == AfterPoll(prior, PollRun(u.wait, Some(prior), s))
  {
    if s == [] {
      assert t + s == t;
    } else {
      var init, last := s[..|s| - 1], s[|s| - 1];
      var q := PollRun(u.wait, Some(prior), init);
      PollMove(u, prior, q, last);
      PollInside(u, t, prior, init);
      assert (t + s)[..|t + s| - 1] == t + init && (t + s)[|t + s| - 1] == last;
    }
  }

  lemma {:induction false} ReadyInside(u: Update, t: seq<Event>, deployed: Option<string>, s: seq<Event>)
    requires Run(u, t) == Readying(deployed, ReadPassword)
    requires !ReadyRun(u.wait, u.username, ReadPassword, s).ReadyStuck?
    ensures Run(u, t + s) == AfterReady(deployed, ReadyRun(u.wait, u.username, ReadPassword, s))
  {
    if s == [] {
      assert t + s == t;
    } else {
      var init, last := s[..|s| - 1], s[|s| - 1];
      var r := ReadyRun(u.wait, u.username, ReadPassword, init);
      ReadyMove(u, deployed, r, last);
      ReadyInside(u, t, deployed, init);
      assert (t + s)[..|t + s| - 1] == t + init && (t + s)[|t + s| - 1] == last;
    }
  }

  lemma ReadyPart(u: Update, base: seq<Event>, seen: seq<Event>, deployed: Option<string>, part: seq<Event>, ok: bool)
    returns (whole: seq<Event>)
    requires Run(u, seen) == Readying(deployed, ReadPassword)
    requires ReadyRun(u.wait, u.username, ReadPassword, part) == ReadyDone(ok)
    ensures base + seen + part == base + whole && Run(u, whole) == AfterReady(deployed, ReadyDone(ok))
  {
    ReadyInside(u, seen, deployed, part);
    whole := seen + part;
    assert base + seen + part == base + whole;
  }

  lemma PollPart(u: Update, base: seq<Event>, seen: seq<Event>, prior: string, part: seq<Event>, result: PollResult)
    returns (whole: seq<Event>)
    requires Run(u, seen) == Awaiting(prior, PollStart)
    requires PollRun(u.wait, Some(prior), part) == PollDone(result)
    ensures base + seen + part == base + whole && Run(u, whole) == AfterPoll(prior, PollDone(result))
  {
    PollInside(u, seen, prior, part);
    whole := seen + part;
    assert base + seen + part == base + whole;
  }

  // ---------- the program ----------

  /** One call of the update and the state it leads to. */
  method Ask(pf: Platform, call: Call, u: Update, ghost base: seq<Event>, ghost seen: seq<Event>)
    returns (reply: Reply, ghost seen': seq<Event>)
    requires pf.Valid() && pf.trace == base + seen
    modifies pf
    ensures pf.Valid() && pf.trace == base + seen' && Fits(call, reply)
    ensures Run(u, seen') == Step(u, Run(u, seen), Event(call, reply))
  {
    reply := pf.Invoke(call);
    seen' := seen + [Event(call, reply)];
    RunSnoc(u, seen, Event(call, reply));
    assert base + seen + [Event(call, reply)] == base + seen';
  }

  /** assertInstanceReady as a part of an update. */
  method ConfirmReady(pf: Platform, u: Update, ghost deployed: Option<string>,
                      ghost base: seq<Event>, ghost seen: seq<Event>)
    returns (ok: bool, ghost seen': seq<Event>)
    requires pf.Valid() && pf.trace == base + seen && u.wait.pollSeconds >= 1
    requires Run(u, seen) == Readying(deployed, ReadPassword)
    modifies pf
    ensures pf.Valid() && pf.trace == base + seen'
    ensures Run(u, seen') == AfterReady(deployed, ReadyDone(ok))
  {
    ghost var part;
    ok, part := AssertInstanceReady(pf, u.wait, u.username);
    seen' := ReadyPart(u, base, seen, deployed, part, ok);
  }

  /** pollServiceUntilSuccess as a part of an update. */
  method AwaitDeployment(pf: Platform, u: Update, prior: string, ghost base: seq<Event>, ghost seen: seq<Event>)
    returns (result: PollResult, ghost seen': seq<Event>)
    requires pf.Valid() && pf.trace == base + seen && u.wait.pollSeconds >= 1
    requires Run(u, seen) == Awaiting(prior, PollStart)
    modifies pf
    ensures pf.Valid() && pf.trace == base + seen'
    ensures Run(u, seen') == AfterPoll(prior, PollDone(result))
  {
    ghost var part;
    result, part := PollServiceUntilSuccess(pf, u.wait, Some(prior));
    seen' := PollPart(u, base, seen, prior, part, result);
  }

  /** The tail after the redeploy call, where every error says the write returned. */
  method VerifyDeployed(pf: Platform, u: Update, prior: string, ghost base: seq<Event>, ghost seen: seq<Event>)
    returns (outcome: Outcome, ghost seen': seq<Event>)
    requires pf.Valid() && pf.trace == base + seen && u.wait.pollSeconds >= 1
    requires Run(u, seen) == Awaiting(prior, PollStart)
    modifies pf
    ensures pf.Valid() && pf.trace == base + seen'
    ensures Run(u, seen') == Halted(outcome)
  {
    var result;
    result, seen' := AwaitDeployment(pf, u, prior, base, seen);
    if !result.Settled? {
      return Unconfirmed, seen';
    }
    var ready;
    ready, seen' := ConfirmReady(pf, u, Some(prior), base, seen');
    if !ready {
      return Unconfirmed, seen';
    }
    var applied;
    applied, seen' := Ask(pf, ListVariables(u.wait.service), u, base, seen');
    if applied.Failed? || Lookup(applied.vars, u.variable) != Some(u.next) {
      return VerificationFailed, seen';
    }
    return Changed, seen';
  }

  /** Everything after the decision to go on; the same steps in both functions. */
  method CommitAndVerify(pf: Platform, u: Update, ghost base: seq<Event>, ghost seen: seq<Event>)
    returns (outcome: Outcome, ghost seen': seq<Event>)
    requires pf.Valid() && pf.trace == base + seen && u.wait.pollSeconds >= 1
    requires Run(u, seen) == CaptureId
    modifies pf
    ensures pf.Valid() && pf.trace == base + seen'
    ensures Run(u, seen') == Halted(outcome)
  {
    var listed;
    listed, seen' := Ask(pf, ListServices, u, base, seen);
    if listed.Failed? {
      return Aborted, seen';
    }
    var prior := PriorId(listed.services, u.wait.service);
    if prior.None? {
      return Refused, seen';
    }
    var written;
    written, seen' := Ask(pf, SetVariable(u.wait.service, u.variable, u.next), u, base, seen');
    if written.Failed? {
      return WriteUncertain, seen';
    }
    var redeployed;
    redeployed, seen' := Ask(pf, Redeploy(u.wait.service), u, base, seen');
    if redeployed.Failed? {
      return Unconfirmed, seen';
    }
    outcome, seen' := VerifyDeployed(pf, u, prior.value, base, seen');
  }

  /** updateClientRefVariable. */
  method UpdateClientRefVariable(pf: Platform, wait: Wait, variable: string, nextRef: string,
                                 expectedCurrentRef: string, forceRedeploy: bool, username: string)
    returns (outcome: Outcome, ghost seen: seq<Event>)
    requires pf.Valid() && wait.pollSeconds >= 1
    modifies pf
    ensures pf.Valid() && pf.trace == old(pf.trace) + seen
    ensures Run(Update(wait, variable, nextRef, CompareFirst(expectedCurrentRef, forceRedeploy), username), seen)
            == Halted(outcome)
  {
    ghost var base := pf.trace;
    assert base == base + [];
    var u := Update(wait, variable, nextRef, CompareFirst(expectedCurrentRef, forceRedeploy), username);
    var read;
    read, seen := Ask(pf, ListVariables(wait.service), u, base, []);
    if read.Failed? {
      return Aborted, seen;
    }
    var current := Lookup(read.vars, variable);
    if current.None? {
      if expectedCurrentRef != EXPECTED_REF_UNSET {
        return Refused, seen;
      }
    } else if expectedCurrentRef == EXPECTED_REF_UNSET {
      return Refused, seen;
    }
    if current == Some(nextRef) && !forceRedeploy {
      if expectedCurrentRef != nextRef {
        return Refused, seen;
      }
      var ready;
      ready, seen := ConfirmReady(pf, u, None, base, seen);
      return if ready then NoOp else NotServing, seen;
    }
    if current.Some? && current.value != expectedCurrentRef {
      return Refused, seen;
    }
    outcome, seen := CommitAndVerify(pf, u, base, seen);
  }

  /** rotateGatewayToken; `next` is the freshly drawn secret. */
  method RotateGatewayToken(pf: Platform, wait: Wait, next: string, username: string)
    returns (outcome: Outcome, ghost seen: seq<Event>)
    requires pf.Valid() && wait.pollSeconds >= 1
    modifies pf
    ensures pf.Valid() && pf.trace == old(pf.trace) + seen
    ensures Run(Update(wait, "OPENCLAW_GATEWAY_TOKEN", next, Rotation, username), seen) == Halted(outcome)
  {
    ghost var base := pf.trace;
    assert base == base + [];
    var u := Update(wait, "OPENCLAW_GATEWAY_TOKEN", next, Rotation, username);
    var read;
    read, seen := Ask(pf, ListVariables(wait.service), u, base, []);
    if read.Failed? {
      return Aborted, seen;
    }
    if Lookup(read.vars, "OPENCLAW_GATEWAY_TOKEN").None? {
      return Refused, seen;
    }
    outcome, seen := CommitAndVerify(pf, u, base, seen);
  }
}
