/** A live update in closed form: which call stands at which position, what each branch
    depends on in terms of what was read, and how every run ends. */
module UpdateForm {
  import opened Options
  import opened Railway
  import opened Polling
  import opened Waits
  import opened LiveUpdate

  /** The caller's belief about the live value is right. */
  predicate Matches(expected: string, current: Option<string>) {
    || (current.None? && expected == "<unset>")
    || (expected != "<unset>" && current == Some(expected))
  }

  predicate GoesOn(u: Update, current: Option<string>) {
    match u.mode
    case Rotation => current.Some?
    case CompareFirst(expected, force) => Matches(expected, current) && (force || current != Some(u.next))
  }

  predicate InPlace(u: Update, current: Option<string>) {
    match u.mode
    case Rotation => false
    case CompareFirst(expected, force) => Matches(expected, current) && current == Some(u.next) && !force
  }

  /** The first read, with the value it showed. */
  predicate ReadsFirst(u: Update, t: seq<Event>, current: Option<string>) {
    && |t| >= 1 && t[0].call == ListVariables(u.wait.service) && t[0].reply.Variables?
    && current == Lookup(t[0].reply.vars, u.variable)
  }

  ghost predicate UpdateForm(u: Update, t: seq<Event>, outcome: Outcome) {
    && SendsAt(t, 0, ListVariables(u.wait.service))
    && if t[0].reply.Failed? then |t| == 1 && outcome == Aborted
       else
         var current := Lookup(t[0].reply.vars, u.variable);
         if InPlace(u, current) then
           || (outcome == NoOp && ConfirmForm(u.wait, u.username, t[1..], true))
           || (outcome == NotServing && ConfirmForm(u.wait, u.username, t[1..], false))
         else if GoesOn(u, current) then CommitForm(u, t, outcome)
         else |t| == 1 && outcome == Refused
  }

  /** From the capture of the prior id on. */
  ghost predicate CommitForm(u: Update, t: seq<Event>, outcome: Outcome) {
    && SendsAt(t, 1, ListServices)
    && if t[1].reply.Failed? then |t| == 2 && outcome == Aborted
       else if PriorId(t[1].reply.services, u.wait.service).None? then |t| == 2 && outcome == Refused
       else WriteForm(u, t, PriorId(t[1].reply.services, u.wait.service).value, outcome)
  }

  /** From the write on. */
  ghost predicate WriteForm(u: Update, t: seq<Event>, prior: string, outcome: Outcome) {
    && SendsAt(t, 2, SetVariable(u.wait.service, u.variable, u.next))
    && if t[2].reply.Failed? then |t| == 3 && outcome == WriteUncertain else DeployForm(u, t, prior, outcome)
  }

  /** From the redeploy on. */
  ghost predicate DeployForm(u: Update, t: seq<Event>, prior: string, outcome: Outcome) {
    && SendsAt(t, 3, Redeploy(u.wait.service))
    && if t[3].reply.Failed? then |t| == 4 && outcome == Unconfirmed
       else exists m, result :: Awaited(u, t, prior, m, result) && TailForm(u, t, m, result, outcome)
  }

  /** The poll takes the events 4 to m and has this result. */
  ghost predicate Awaited(u: Update, t: seq<Event>, prior: string, m: int, result: PollResult) {
    && 4 < m <= |t| && PollForm(u.wait, Some(prior), t[4..m])
    && PollEndsAt(u.wait, Some(prior), t[4..m], m - 5, result)
  }

  /** From the end of the poll on. */
  ghost predicate TailForm(u: Update, t: seq<Event>, m: int, result: PollResult, outcome: Outcome)
    requires 0 <= m <= |t|
  {
    if !result.Settled? then m == |t| && outcome == Unconfirmed
    else
      || (outcome == Unconfirmed && ConfirmForm(u.wait, u.username, t[m..], false))
      || (m < |t| && ConfirmForm(u.wait, u.username, t[m..|t| - 1], true)
          && SendsAt(t, |t| - 1, ListVariables(u.wait.service))
          && outcome == if t[|t| - 1].reply.Variables? && Lookup(t[|t| - 1].reply.vars, u.variable) == Some(u.next)
                        then Changed else VerificationFailed)
  }

  // ---------- every run has this form ----------

  /** Read, captured, written, redeployed. */
  predicate Committed(u: Update, t: seq<Event>, prior: string) {
    && ReadyToWrite(u, t, prior) && |t| >= 4
    && t[2] == Event(SetVariable(u.wait.service, u.variable, u.next), Done)
    && t[3] == Event(Redeploy(u.wait.service), Done)
  }

  predicate WentOn(u: Update, t: seq<Event>) {
    ReadsFirst(u, t, if |t| >= 1 && t[0].reply.Variables? then Lookup(t[0].reply.vars, u.variable) else None)
    && GoesOn(u, Lookup(t[0].reply.vars, u.variable))
  }

  predicate ReadyToWrite(u: Update, t: seq<Event>, prior: string) {
    && WentOn(u, t) && |t| >= 2 && t[1].call == ListServices && t[1].reply.Services?
    && PriorId(t[1].reply.services, u.wait.service) == Some(prior)
  }

  predicate Rolled(u: Update, t: seq<Event>, prior: string, m: int) {
    4 <= m <= |t| && PollRun(u.wait, Some(prior), t[4..m]).PollDone? && PollRun(u.wait, Some(prior), t[4..m]).result.Settled?
  }

  /** What the events so far are, where the run has not ended. */
  ghost predicate Stage(u: Update, t: seq<Event>, pc: Pc) {
    match pc
    case ReadCurrent => t == []
    case CaptureId => |t| == 1 && WentOn(u, t)
    case Writing(prior) => |t| == 2 && ReadyToWrite(u, t, prior)
    case Redeploying(prior) =>
      |t| == 3 && ReadyToWrite(u, t, prior) && t[2] == Event(SetVariable(u.wait.service, u.variable, u.next), Done)
    case Awaiting(prior, q) =>
      Committed(u, t, prior) && q == PollRun(u.wait, Some(prior), t[4..]) && !q.PollStuck? && !q.PollDone?
    case Readying(None, r) =>
      && |t| >= 1 && ReadsFirst(u, t, Some(u.next)) && InPlace(u, Some(u.next))
      && r == ReadyRun(u.wait, u.username, ReadPassword, t[1..]) && !r.ReadyStuck? && !r.ReadyDone?
    case Readying(Some(prior), r) =>
      && Committed(u, t, prior) && !r.ReadyStuck? && !r.ReadyDone?
      && exists m :: Rolled(u, t, prior, m) && r == ReadyRun(u.wait, u.username, ReadPassword, t[m..])
    case ReadBack(prior) =>
      && Committed(u, t, prior)
      && exists m :: Rolled(u, t, prior, m) && ReadyRun(u.wait, u.username, ReadPassword, t[m..]) == ReadyDone(true)
    case Halted(outcome) => UpdateForm(u, t, outcome)
    case Stuck => true
  }

  lemma PollSnoc(w: Wait, guard: Option<string>, t: seq<Event>, e: Event)
    ensures PollRun(w, guard, t + [e]) == PollStep(w, guard, PollRun(w, guard, t), e)
  {
    assert (t + [e])[..|t|] == t;
  }

  lemma ReadySnoc(w: Wait, username: string, t: seq<Event>, e: Event)
    ensures ReadyRun(w, username, ReadPassword, t + [e]) == ReadyStep(w, username, ReadyRun(w, username, ReadPassword, t), e)
  {
    assert (t + [e])[..|t|] == t;
  }

  lemma {:induction false} EveryRunHasTheForm(u: Update, t: seq<Event>)
    ensures Stage(u, t, Run(u, t))
  {
    if t != [] {
      var init, last := t[..|t| - 1], t[|t| - 1];
      EveryRunHasTheForm(u, init);
      assert t == init + [last];
      StageStep(u, init, Run(u, init), last);
    }
  }

  lemma StageStep(u: Update, t: seq<Event>, pc: Pc, e: Event)
    requires Stage(u, t, pc)
    ensures Stage(u, t + [e], Step(u, pc, e))
  {
    if !Step(u, pc, e).Stuck? {
      match pc {
        case Awaiting(prior, q) => AwaitingStage(u, t, prior, q, e);
        case Readying(None, r) => ConfirmingStage(u, t, r, e);
        case Readying(Some(prior), r) => ReadyingStage(u, t, prior, r, e);
        case ReadBack(prior) => ReadBackStage(u, t, prior, e);
        case Redeploying(prior) => RedeployingStage(u, t, prior, e);
        case _ =>
      }
    }
  }

  lemma RedeployingStage(u: Update, t: seq<Event>, prior: string, e: Event)
    requires Stage(u, t, Redeploying(prior)) && !Step(u, Redeploying(prior), e).Stuck?
    ensures Stage(u, t + [e], Step(u, Redeploying(prior), e))
  {
    assert (t + [e])[4..] == [];
  }

  lemma CommittedStays(u: Update, t: seq<Event>, e: Event, prior: string)
    requires Committed(u, t, prior)
    ensures Committed(u, t + [e], prior)
  {
  }

  /** A committed run whose poll and tail have the form has it as a whole. */
  lemma CommittedForm(u: Update, t: seq<Event>, prior: string, m: int, result: PollResult, outcome: Outcome)
    requires Committed(u, t, prior) && Awaited(u, t, prior, m, result) && TailForm(u, t, m, result, outcome)
    ensures UpdateForm(u, t, outcome)
  {
    DeployedForm(u, t, prior, m, result, outcome);
    HeadForm(u, t, prior, outcome);
  }

  lemma DeployedForm(u: Update, t: seq<Event>, prior: string, m: int, result: PollResult, outcome: Outcome)
    requires |t| >= 4 && t[3] == Event(Redeploy(u.wait.service), Done)
    requires Awaited(u, t, prior, m, result) && TailForm(u, t, m, result, outcome)
    ensures DeployForm(u, t, prior, outcome)
  {
  }

  lemma HeadForm(u: Update, t: seq<Event>, prior: string, outcome: Outcome)
    requires Committed(u, t, prior) && DeployForm(u, t, prior, outcome)
    ensures UpdateForm(u, t, outcome)
  {
    assert WriteForm(u, t, prior, outcome);
  }

  lemma PollShape(u: Update, prior: string, q: Poll, e: Event)
    requires !q.PollStuck? && !q.PollDone? && !Step(u, Awaiting(prior, q), e).Stuck?
    ensures !PollStep(u.wait, Some(prior), q, e).PollStuck?
    ensures Step(u, Awaiting(prior, q), e) == AfterPoll(prior, PollStep(u.wait, Some(prior), q, e))
  {
  }

  lemma ReadyShape(u: Update, deployed: Option<string>, r: Ready, e: Event)
    requires !r.ReadyStuck? && !r.ReadyDone? && !Step(u, Readying(deployed, r), e).Stuck?
    ensures !ReadyStep(u.wait, u.username, r, e).ReadyStuck?
    ensures Step(u, Readying(deployed, r), e) == AfterReady(deployed, ReadyStep(u.wait, u.username, r, e))
  {
  }

  lemma AwaitingStage(u: Update, t: seq<Event>, prior: string, q: Poll, e: Event)
    requires Stage(u, t, Awaiting(prior, q)) && !Step(u, Awaiting(prior, q), e).Stuck?
    ensures Stage(u, t + [e], Step(u, Awaiting(prior, q), e))
  {
    var t' := t + [e];
    PollShape(u, prior, q, e);
    PollSnoc(u.wait, Some(prior), t[4..], e);
    assert t'[4..] == t[4..] + [e];
    CommittedStays(u, t, e, prior);
    PollLands(u, t', prior, PollStep(u.wait, Some(prior), q, e));
  }

  lemma PollLands(u: Update, t: seq<Event>, prior: string, q: Poll)
    requires Committed(u, t, prior) && q == PollRun(u.wait, Some(prior), t[4..]) && !q.PollStuck?
    ensures Stage(u, t, AfterPoll(prior, q))
  {
    assert t[4..|t|] == t[4..];
    if q.PollDone? {
      PollExactly(u.wait, Some(prior), t[4..]);
      if q.result.Settled? {
        assert Rolled(u, t, prior, |t|) && t[|t|..] == [];
      } else {
        CommittedForm(u, t, prior, |t|, q.result, Unconfirmed);
      }
    }
  }

  lemma ConfirmingStage(u: Update, t: seq<Event>, r: Ready, e: Event)
    requires Stage(u, t, Readying(None, r)) && !Step(u, Readying(None, r), e).Stuck?
    ensures Stage(u, t + [e], Step(u, Readying(None, r), e))
  {
    var t' := t + [e];
    ReadyShape(u, None, r, e);
    ReadySnoc(u.wait, u.username, t[1..], e);
    assert t'[1..] == t[1..] + [e];
    var r' := ReadyStep(u.wait, u.username, r, e);
    if r'.ReadyDone? {
      ConfirmExactly(u.wait, u.username, t'[1..], r'.ok);
    }
  }

  lemma RolledForm(u: Update, t: seq<Event>, prior: string, m: int) returns (result: PollResult)
    requires Committed(u, t, prior) && Rolled(u, t, prior, m)
    ensures Awaited(u, t, prior, m, result) && result.Settled?
  {
    PollExactly(u.wait, Some(prior), t[4..m]);
    result := PollRun(u.wait, Some(prior), t[4..m]).result;
  }

  lemma RolledStays(u: Update, t: seq<Event>, e: Event, prior: string, m: int)
    requires Committed(u, t, prior) && Rolled(u, t, prior, m)
    ensures Committed(u, t + [e], prior) && Rolled(u, t + [e], prior, m)
  {
    assert (t + [e])[4..m] == t[4..m];
  }

  lemma ReadyingStage(u: Update, t: seq<Event>, prior: string, r: Ready, e: Event)
    requires Stage(u, t, Readying(Some(prior), r)) && !Step(u, Readying(Some(prior), r), e).Stuck?
    ensures Stage(u, t + [e], Step(u, Readying(Some(prior), r), e))
  {
    var m :| Rolled(u, t, prior, m) && r == ReadyRun(u.wait, u.username, ReadPassword, t[m..]);
    ReadyShape(u, Some(prior), r, e);
    ReadySnoc(u.wait, u.username, t[m..], e);
    assert (t + [e])[m..] == t[m..] + [e];
    RolledStays(u, t, e, prior, m);
    ReadyLands(u, t + [e], prior, m, ReadyStep(u.wait, u.username, r, e));
  }

  lemma ReadyLands(u: Update, t: seq<Event>, prior: string, m: int, r: Ready)
    requires Committed(u, t, prior) && Rolled(u, t, prior, m)
    requires r == ReadyRun(u.wait, u.username, ReadPassword, t[m..]) && !r.ReadyStuck?
    ensures Stage(u, t, AfterReady(Some(prior), r))
  {
    if r == ReadyDone(false) {
      var result := RolledForm(u, t, prior, m);
      ConfirmExactly(u.wait, u.username, t[m..], false);
      CommittedForm(u, t, prior, m, result, Unconfirmed);
    }
  }

  lemma ReadBackShape(u: Update, prior: string, e: Event)
    requires !Step(u, ReadBack(prior), e).Stuck?
    ensures e.call == ListVariables(u.wait.service) && Fits(e.call, e.reply)
    ensures Step(u, ReadBack(prior), e) == Halted(AfterReadBack(u, e))
  {
  }

  function AfterReadBack(u: Update, e: Event): Outcome {
    if e.reply.Variables? && Lookup(e.reply.vars, u.variable) == Some(u.next) then Changed else VerificationFailed
  }

  lemma ReadBackStage(u: Update, t: seq<Event>, prior: string, e: Event)
    requires Stage(u, t, ReadBack(prior)) && !Step(u, ReadBack(prior), e).Stuck?
    ensures Stage(u, t + [e], Step(u, ReadBack(prior), e))
  {
    var t' := t + [e];
    var m :| Rolled(u, t, prior, m) && ReadyRun(u.wait, u.username, ReadPassword, t[m..]) == ReadyDone(true);
    assert t'[m..|t'| - 1] == t[m..];
    RolledStays(u, t, e, prior, m);
    ReadBackShape(u, prior, e);
    ReadBackLands(u, t', prior, m);
  }

  lemma ReadBackLands(u: Update, t: seq<Event>, prior: string, m: int)
    requires Committed(u, t, prior) && Rolled(u, t, prior, m) && m < |t|
    requires ReadyRun(u.wait, u.username, ReadPassword, t[m..|t| - 1]) == ReadyDone(true)
    requires SendsAt(t, |t| - 1, ListVariables(u.wait.service))
    ensures UpdateForm(u, t, AfterReadBack(u, t[|t| - 1]))
  {
    var result := RolledForm(u, t, prior, m);
    ConfirmExactly(u.wait, u.username, t[m..|t| - 1], true);
    CommittedForm(u, t, prior, m, result, AfterReadBack(u, t[|t| - 1]));
  }

  // ---------- the main results ----------

  /** Every finished run of an update is a trace of the closed form. */
  lemma RunHasTheForm(u: Update, t: seq<Event>, outcome: Outcome)
    requires Run(u, t) == Halted(outcome)
    ensures UpdateForm(u, t, outcome)
  {
    EveryRunHasTheForm(u, t);
  }

  lemma OneStep(u: Update, t: seq<Event>, n: nat)
    requires n < |t|
    ensures Run(u, t[..n + 1]) == Step(u, Run(u, t[..n]), t[n])
  {
    assert t[..n + 1][..n] == t[..n];
  }

  lemma {:induction false} PrefixRuns(u: Update, t: seq<Event>, n: nat)
    requires !Run(u, t).Stuck? && n < |t|
    ensures !Run(u, t[..n]).Stuck? && Run(u, t[..n + 1]) == Step(u, Run(u, t[..n]), t[n]) && !Run(u, t[..n + 1]).Stuck?
    decreases |t|
  {
    OneStep(u, t, n);
    if n < |t| - 1 {
      PrefixRuns(u, t[..|t| - 1], n);
      assert t[..|t| - 1][..n] == t[..n] && t[..|t| - 1][..n + 1] == t[..n + 1];
    } else {
      assert t[..n + 1] == t;
    }
  }

  /** When an update goes on, at whatever point the run stands: past the first read it lists
      the services, to write and to redeploy, if and only if the belief is right and either
      the value is not in place or the redeploy is forced; it only asks the instance if and
      only if the belief is right and the unforced value is in place; otherwise it is over. */
  lemma WhenItGoesOn(u: Update, t: seq<Event>, current: Option<string>)
    requires !Run(u, t).Stuck? && ReadsFirst(u, t, current) && u.mode.CompareFirst?
    ensures |t| >= 2 ==>
              (t[1].call == ListServices <==>
               Matches(u.mode.expected, current) && (u.mode.force || current != Some(u.next)))
    ensures |t| >= 2 ==>
              (t[1].call == ListVariables(u.wait.service) <==>
               Matches(u.mode.expected, current) && current == Some(u.next) && !u.mode.force)
    ensures |t| == 1 ==> (Run(u, t) == Halted(Refused) <==> !Matches(u.mode.expected, current))
    ensures |t| >= 2 ==> Matches(u.mode.expected, current)
  {
    PrefixRuns(u, t, 0);
    assert t[..0] == [];
    if |t| >= 2 {
      PrefixRuns(u, t, 1);
    } else {
      assert t[..1] == t;
    }
  }

  /** A rotation goes on if and only if there is a value to rotate. */
  lemma WhenItRotates(u: Update, t: seq<Event>, current: Option<string>)
    requires !Run(u, t).Stuck? && ReadsFirst(u, t, current) && u.mode.Rotation?
    ensures |t| >= 2 ==> t[1].call == ListServices && current.Some?
    ensures |t| == 1 ==> (Run(u, t) == Halted(Refused) <==> current.None?)
  {
    PrefixRuns(u, t, 0);
    assert t[..0] == [];
    if |t| >= 2 {
      PrefixRuns(u, t, 1);
    } else {
      assert t[..1] == t;
    }
  }

  /** A value in place is reported as not serving only after a check that gave up. */
  lemma NotServingOnlyLate(u: Update, t: seq<Event>)
    requires Run(u, t) == Halted(NotServing)
    ensures |t| >= 1 && GaveUp(u.wait, t[1..])
  {
    RunHasTheForm(u, t, NotServing);
    FormGaveUp(u.wait, u.username, t[1..]);
  }

  /** An update that redeployed is left unconfirmed only if the redeploy call failed, the
      poll ended without a new deployment in SUCCESS, or the check behind it gave up. */
  lemma UnconfirmedOnlyLate(u: Update, t: seq<Event>)
    requires Run(u, t) == Halted(Unconfirmed)
    ensures || (|t| == 4 && t[3] == Event(Redeploy(u.wait.service), Failed))
            || exists prior, m, result ::
                 Awaited(u, t, prior, m, result) && if result.Settled? then GaveUp(u.wait, t[m..]) else m == |t|
  {
    RunHasTheForm(u, t, Unconfirmed);
    var prior := PriorId(t[1].reply.services, u.wait.service).value;
    assert DeployForm(u, t, prior, Unconfirmed);
    if |t| != 4 {
      DeployedGaveUp(u, t, prior);
    }
  }

  lemma DeployedGaveUp(u: Update, t: seq<Event>, prior: string)
    requires DeployForm(u, t, prior, Unconfirmed) && |t| != 4
    ensures exists m, result ::
              Awaited(u, t, prior, m, result) && if result.Settled? then GaveUp(u.wait, t[m..]) else m == |t|
  {
    var m, result :| Awaited(u, t, prior, m, result) && TailForm(u, t, m, result, Unconfirmed);
    if result.Settled? {
      FormGaveUp(u.wait, u.username, t[m..]);
    }
  }
}
