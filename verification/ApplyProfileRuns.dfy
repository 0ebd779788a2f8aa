/** What applying a profile does to keys, variables and the instance, over all runs and
    over any sequence of runs. */
module ApplyProfileRuns {
  import opened Options
  import opened Channels
  import opened ApplyProfile
  import opened Ceiling

  predicate Acts(call: Call) {
    call.Mint? || call.Write? || call.RunSetup?
  }

  ghost predicate NoActFrom(t: seq<Event>, k: nat) {
    forall i :: k <= i < |t| ==> !Acts(t[i].call)
  }

  /** The first two calls: not configured, and the variables. */
  ghost predicate Opened(t: seq<Event>, vars: map<string, string>) {
    && |t| >= 2
    && t[0].call == GetStatus && t[0].reply == Configured(false)
    && t[1].call == ListVariables && t[1].reply == Variables(vars)
  }

  /** A key was minted for an absent secret. */
  ghost predicate MintedFor(profile: Profile, t: seq<Event>, vars: map<string, string>, key: string, hash: string) {
    && Opened(t, vars) && |t| >= 3 && Resolve(profile, vars).NeedsMint?
    && t[2].call == Mint(SecretName(profile)) && t[2].reply == Minted(key, hash)
  }

  ghost predicate WrittenFor(profile: Profile, t: seq<Event>, vars: map<string, string>, key: string, hash: string) {
    && MintedFor(profile, t, vars, key, hash) && |t| >= 4
    && t[3].call == Write(SecretName(profile), key, Redeploys(profile)) && t[3].reply == Done
  }

  /** The calls before the setup run: nothing but the optional mint and write. */
  ghost predicate Prepared(profile: Profile, t: seq<Event>, payload: Payload, minted: Option<string>, n: int) {
    exists vars :: PreparedWith(profile, t, payload, minted, n, vars)
  }

  ghost predicate PreparedWith(profile: Profile, t: seq<Event>, payload: Payload, minted: Option<string>, n: int,
                               vars: map<string, string>)
  {
    && n <= |t| && Opened(t, vars)
    && ChannelFields(profile, vars) == Some(payload.fields)
    && (forall i :: 4 <= i < n ==> !Acts(t[i].call))
    && (if minted.None?
        then (forall i :: 2 <= i < n ==> !Acts(t[i].call)) && Resolve(profile, vars) == Ready(payload.authSecret)
        else exists key :: WrittenFor(profile, t, vars, key, minted.value) && payload.authSecret == Some(Text(key)))
  }

  ghost predicate HealthyBetween(t: seq<Event>, from: nat, to: int) {
    exists h :: from <= h < to && h < |t| && t[h].call.CheckHealth? && t[h].reply == Health(true)
  }

  /** The setup run happened at r, as the only one, prepared and, after a redeploying
      write, only after a healthy answer. */
  ghost predicate RanAt(profile: Profile, t: seq<Event>, payload: Payload, minted: Option<string>, r: int) {
    && 0 <= r < |t| && t[r].call == RunSetup(payload) && Prepared(profile, t, payload, minted, r)
    && (minted.Some? && Redeploys(profile) ==> HealthyBetween(t, 4, r))
    && NoActFrom(t, r + 1)
  }

  ghost predicate History(profile: Profile, settings: Settings, t: seq<Event>) {
    match Run(profile, settings, t)
    case AskStatus => t == []
    case AskVariables => |t| == 1 && t[0].call == GetStatus && t[0].reply == Configured(false)
    case AskMint(vars) => |t| == 2 && Opened(t, vars) && Resolve(profile, vars).NeedsMint?
    case AskWrite(vars, key, hash) => |t| == 3 && MintedFor(profile, t, vars, key, hash)
    case HealthStart(p, m) => m.Some? && Prepared(profile, t, p, m, |t|) && Redeploys(profile) && |t| >= 4
    case HealthCheck(p, m, _) => m.Some? && Prepared(profile, t, p, m, |t|) && Redeploys(profile) && |t| >= 4
    case HealthClock(p, m, _) => m.Some? && Prepared(profile, t, p, m, |t|) && Redeploys(profile) && |t| >= 4
    case HealthSleep(p, m, _) => m.Some? && Prepared(profile, t, p, m, |t|) && Redeploys(profile) && |t| >= 4
    case AskRun(p, m) =>
      Prepared(profile, t, p, m, |t|) && (m.Some? && Redeploys(profile) ==> |t| >= 4 && HealthyBetween(t, 4, |t|))
    case AskStatusAgain(m) => exists p, r :: RanAt(profile, t, p, m, r) && t[r].reply == Done
    case Halted(outcome) => Concluded(profile, t, outcome)
    case Stuck => true
  }

  ghost predicate Concluded(profile: Profile, t: seq<Event>, outcome: Outcome) {
    match outcome
    case AlreadyConfigured => |t| == 1 && t[0].reply == Configured(true) && NoActFrom(t, 0)
    case Applied(minted) => exists p, r :: RanAt(profile, t, p, minted, r) && t[r].reply == Done
    case Error => Faulted(profile, t)
  }

  /** Where an error can leave a run. */
  ghost predicate Faulted(profile: Profile, t: seq<Event>) {
    || NoActFrom(t, 0)
    || (exists vars :: Opened(t, vars) && Resolve(profile, vars).NeedsMint? && OnlyMint(t))
    || (exists vars, key, hash :: MintedFor(profile, t, vars, key, hash) && OnlyMintAndWrite(t))
    || (exists p, m, r :: RanAt(profile, t, p, m, r))
  }

  ghost predicate OnlyMint(t: seq<Event>) {
    |t| >= 3 && t[2].call.Mint? && NoActFrom(t, 3)
  }

  ghost predicate OnlyMintAndWrite(t: seq<Event>) {
    |t| >= 4 && t[3].call.Write? && NoActFrom(t, 4)
  }

  lemma {:induction false} HistoryHolds(profile: Profile, settings: Settings, t: seq<Event>)
    requires !Run(profile, settings, t).Stuck?
    ensures History(profile, settings, t)
  {
    if t != [] {
      var init, last := t[..|t| - 1], t[|t| - 1];
      assert t == init + [last];
      HistoryHolds(profile, settings, init);
      var pc := Run(profile, settings, init);
      if pc.AskStatus? || pc.AskVariables? || pc.AskMint? || pc.AskWrite? {
        OpeningStep(profile, settings, init, last);
      } else if pc.AskRun? {
        RunStep(profile, settings, init, last, pc.payload, pc.minted);
      } else if pc.AskStatusAgain? {
        LastStep(profile, settings, init, last, pc.minted);
      } else {
        HealthStep(profile, settings, init, last);
      }
    }
  }

  lemma OpeningStep(profile: Profile, settings: Settings, t: seq<Event>, e: Event)
    requires History(profile, settings, t) && !Run(profile, settings, t + [e]).Stuck?
    requires var pc := Run(profile, settings, t); pc.AskStatus? || pc.AskVariables? || pc.AskMint? || pc.AskWrite?
    ensures History(profile, settings, t + [e])
  {
    RunSnoc(profile, settings, t, e);
    var t' := t + [e];
    match Run(profile, settings, t) {
      case AskStatus =>
      case AskVariables =>
        if e.reply.Variables? {
          ListedStep(profile, settings, t, e, e.reply.vars);
        }
      case AskMint(vars) => assert Opened(t', vars);
      case AskWrite(vars, key, hash) => WroteStep(profile, settings, t, e, vars, key, hash);
    }
  }

  lemma ListedStep(profile: Profile, settings: Settings, t: seq<Event>, e: Event, vars: map<string, string>)
    requires History(profile, settings, t) && Run(profile, settings, t).AskVariables?
    requires e.call == ListVariables && e.reply == Variables(vars) && !Run(profile, settings, t + [e]).Stuck?
    ensures History(profile, settings, t + [e])
  {
    RunSnoc(profile, settings, t, e);
    var t' := t + [e];
    assert Opened(t', vars);
    match Run(profile, settings, t') {
      case AskRun(p, m) => assert PreparedWith(profile, t', p, m, |t'|, vars);
      case _ =>
    }
  }

  lemma WroteStep(profile: Profile, settings: Settings, t: seq<Event>, e: Event, vars: map<string, string>, key: string, hash: string)
    requires History(profile, settings, t) && Run(profile, settings, t) == AskWrite(vars, key, hash)
    requires !Run(profile, settings, t + [e]).Stuck?
    ensures History(profile, settings, t + [e])
  {
    RunSnoc(profile, settings, t, e);
    var t' := t + [e];
    assert MintedFor(profile, t', vars, key, hash);
    match Run(profile, settings, t') {
      case AskRun(p, m) =>
        assert WrittenFor(profile, t', vars, key, m.value);
        assert PreparedWith(profile, t', p, m, |t'|, vars);
      case HealthStart(p, m) =>
        assert WrittenFor(profile, t', vars, key, m.value);
        assert PreparedWith(profile, t', p, m, |t'|, vars);
      case _ =>
    }
    if Run(profile, settings, t').Halted? {
      assert OnlyMintAndWrite(t');
    }
  }

  /** One more call that does not act keeps the preparation. */
  lemma StillPrepared(profile: Profile, t: seq<Event>, e: Event, p: Payload, m: Option<string>)
    requires Prepared(profile, t, p, m, |t|) && !Acts(e.call)
    ensures Prepared(profile, t + [e], p, m, |t + [e]|)
  {
    var t' := t + [e];
    var vars :| PreparedWith(profile, t, p, m, |t|, vars);
    if m.Some? {
      var key :| WrittenFor(profile, t, vars, key, m.value) && p.authSecret == Some(Text(key));
      assert WrittenFor(profile, t', vars, key, m.value);
    }
    assert PreparedWith(profile, t', p, m, |t'|, vars);
  }

  lemma HealthStep(profile: Profile, settings: Settings, t: seq<Event>, e: Event)
    requires History(profile, settings, t) && !Run(profile, settings, t + [e]).Stuck?
    requires var pc := Run(profile, settings, t); pc.HealthStart? || pc.HealthCheck? || pc.HealthClock? || pc.HealthSleep?
    ensures History(profile, settings, t + [e])
  {
    RunSnoc(profile, settings, t, e);
    var pc, t' := Run(profile, settings, t), t + [e];
    StillPrepared(profile, t, e, pc.payload, pc.minted);
    var pc' := Run(profile, settings, t');
    if pc'.AskRun? {
      assert t'[|t|].call.CheckHealth? && t'[|t|].reply == Health(true);
      assert HealthyBetween(t', 4, |t'|);
    } else if pc'.Halted? {
      PreparedIsFaulted(profile, t', pc.payload, pc.minted);
    }
  }

  lemma PreparedIsFaulted(profile: Profile, t: seq<Event>, p: Payload, m: Option<string>)
    requires m.Some? && Prepared(profile, t, p, m, |t|)
    ensures Faulted(profile, t)
  {
    var vars :| PreparedWith(profile, t, p, m, |t|, vars);
    var key :| WrittenFor(profile, t, vars, key, m.value) && p.authSecret == Some(Text(key));
    assert MintedFor(profile, t, vars, key, m.value) && OnlyMintAndWrite(t);
  }

  lemma RunStep(profile: Profile, settings: Settings, t: seq<Event>, e: Event, p: Payload, m: Option<string>)
    requires History(profile, settings, t) && Run(profile, settings, t) == AskRun(p, m)
    requires !Run(profile, settings, t + [e]).Stuck?
    ensures History(profile, settings, t + [e])
  {
    RunSnoc(profile, settings, t, e);
    var t' := t + [e];
    var vars :| PreparedWith(profile, t, p, m, |t|, vars);
    if m.Some? {
      var key :| WrittenFor(profile, t, vars, key, m.value) && p.authSecret == Some(Text(key));
      assert WrittenFor(profile, t', vars, key, m.value);
      if Redeploys(profile) {
        var h :| 4 <= h < |t| && t[h].call.CheckHealth? && t[h].reply == Health(true);
        assert t'[h] == t[h];
        assert HealthyBetween(t', 4, |t|);
      }
    }
    assert PreparedWith(profile, t', p, m, |t|, vars);
    assert RanAt(profile, t', p, m, |t|);
  }

  lemma LastStep(profile: Profile, settings: Settings, t: seq<Event>, e: Event, m: Option<string>)
    requires History(profile, settings, t) && Run(profile, settings, t) == AskStatusAgain(m)
    requires !Run(profile, settings, t + [e]).Stuck?
    ensures History(profile, settings, t + [e])
  {
    RunSnoc(profile, settings, t, e);
    var p, r :| RanAt(profile, t, p, m, r) && t[r].reply == Done;
    RanStays(profile, t, e, p, m, r);
  }

  lemma RanStays(profile: Profile, t: seq<Event>, e: Event, p: Payload, m: Option<string>, r: int)
    requires RanAt(profile, t, p, m, r) && !Acts(e.call)
    ensures RanAt(profile, t + [e], p, m, r) && (t + [e])[r] == t[r]
  {
    var t' := t + [e];
    var vars :| PreparedWith(profile, t, p, m, r, vars);
    if m.Some? {
      var key :| WrittenFor(profile, t, vars, key, m.value) && p.authSecret == Some(Text(key));
      assert WrittenFor(profile, t', vars, key, m.value);
      if Redeploys(profile) {
        var h :| 4 <= h < r && h < |t| && t[h].call.CheckHealth? && t[h].reply == Health(true);
        assert t'[h] == t[h];
      }
    }
    assert PreparedWith(profile, t', p, m, r, vars);
  }

  // ---------- one run ----------

  /** Everything a run can have done, at whatever point it stopped. */
  lemma {:induction false} ActsInOrder(profile: Profile, settings: Settings, t: seq<Event>, i: nat)
    requires !Run(profile, settings, t).Stuck? && i < |t|
    ensures t[i].call.Mint? ==>
              i == 2 && t[1].reply.Variables? && t[1].call.ListVariables? && !Found(t[1].reply.vars, SecretName(profile))
    ensures t[i].call.Write? ==> i == 3 && t[2].call.Mint?
    ensures t[i].call.RunSetup? ==> t[0].reply == Configured(false)
  {
    var init, last := t[..|t| - 1], t[|t| - 1];
    if i < |t| - 1 {
      ActsInOrder(profile, settings, init, i);
    } else {
      HistoryHolds(profile, settings, init);
      assert t == init + [last];
      RunSnoc(profile, settings, init, last);
      LastAct(profile, settings, init, last);
    }
  }

  lemma LastAct(profile: Profile, settings: Settings, t: seq<Event>, e: Event)
    requires History(profile, settings, t) && !Step(profile, settings, Run(profile, settings, t), e).Stuck?
    ensures e.call.Mint? ==>
              |t| == 2 && t[1].reply.Variables? && t[1].call.ListVariables? && !Found(t[1].reply.vars, SecretName(profile))
    ensures e.call.Write? ==> |t| == 3 && t[2].call.Mint?
    ensures e.call.RunSetup? ==> |t| >= 2 && t[0].reply == Configured(false)
  {
    var pc := Run(profile, settings, t);
    if pc.AskRun? {
      var vars :| PreparedWith(profile, t, pc.payload, pc.minted, |t|, vars);
    }
  }

  /** At whatever point a run stands or was stopped: the setup run has been called at most
      once, only on an instance that had said it is not configured, and after a redeploying
      write only after a healthy answer. */
  lemma SetupRunsOnce(profile: Profile, settings: Settings, t: seq<Event>, r: nat)
    requires !Run(profile, settings, t).Stuck? && r < |t| && t[r].call.RunSetup?
    ensures t[0].call == GetStatus && t[0].reply == Configured(false)
    ensures forall k :: 0 <= k < |t| && t[k].call.RunSetup? ==> k == r
    ensures (exists w :: 0 <= w < |t| && t[w].call.Write? && t[w].call.redeploys) ==>
              exists w, h :: 0 <= w < h < r && t[w].call.Write? && t[w].reply == Done
                             && t[h].call.CheckHealth? && t[h].reply == Health(true)
  {
    var p, m, k := TheRunSoFar(profile, settings, t, r);
    if w :| 0 <= w < |t| && t[w].call.Write? && t[w].call.redeploys {
      HealthyBefore(profile, t, p, m, k, w);
    }
  }

  ghost predicate SetupReturned(t: seq<Event>) {
    exists r :: 0 <= r < |t| && t[r].call.RunSetup? && t[r].reply == Done
  }

  /** What a last event says about the state it was made in. */
  lemma LastMove(profile: Profile, settings: Settings, pc: Pc, e: Event, outcome: Outcome)
    requires Step(profile, settings, pc, e) == Halted(outcome)
    ensures outcome.Applied? <==> pc.AskStatusAgain? && e.reply == Configured(true)
    ensures outcome == AlreadyConfigured <==> pc.AskStatus? && e.reply == Configured(true)
    ensures pc.AskStatusAgain? || pc.AskStatus? <==> e.call == GetStatus
    ensures e.call.RunSetup? ==> e.reply != Done
  {
  }

  lemma ReturnedBefore(profile: Profile, settings: Settings, t: seq<Event>)
    requires !Run(profile, settings, t).Stuck? && !Run(profile, settings, t).Halted?
    ensures Run(profile, settings, t).AskStatusAgain? <==> SetupReturned(t)
  {
    HistoryHolds(profile, settings, t);
    var pc := Run(profile, settings, t);
    if pc.AskStatusAgain? {
      var p, r :| RanAt(profile, t, p, pc.minted, r) && t[r].reply == Done;
      assert t[r].call.RunSetup?;
    }
    if SetupReturned(t) {
      var r :| 0 <= r < |t| && t[r].call.RunSetup? && t[r].reply == Done;
      NoSetupYet(profile, settings, t, r);
    }
  }

  /** A run reports the profile applied if and only if the setup run returned and the status
      read last says configured, and already configured if and only if the first status it
      reads does; a returned setup run that ends in any other way is an error. */
  lemma AppliedExactly(profile: Profile, settings: Settings, t: seq<Event>, outcome: Outcome)
    requires Run(profile, settings, t) == Halted(outcome)
    ensures outcome.Applied? <==>
            SetupReturned(t) && t[|t| - 1].call == GetStatus && t[|t| - 1].reply == Configured(true)
    ensures SetupReturned(t) && !outcome.Applied? ==> outcome == Error
    ensures outcome == AlreadyConfigured <==> t[0].call == GetStatus && t[0].reply == Configured(true)
  {
    var init, last := t[..|t| - 1], t[|t| - 1];
    assert t == init + [last];
    ReturnedBefore(profile, settings, init);
    LastMove(profile, settings, Run(profile, settings, init), last, outcome);
    assert SetupReturned(t) <==> SetupReturned(init) by {
      assert SetupReturned(init) ==> SetupReturned(t) by {
        if r :| 0 <= r < |init| && init[r].call.RunSetup? && init[r].reply == Done {
          assert t[r] == init[r];
        }
      }
    }
    FirstStatus(profile, settings, t, outcome);
  }

  lemma FirstStatus(profile: Profile, settings: Settings, t: seq<Event>, outcome: Outcome)
    requires Run(profile, settings, t) == Halted(outcome)
    ensures outcome == AlreadyConfigured <==> t[0].call == GetStatus && t[0].reply == Configured(true)
    ensures outcome == AlreadyConfigured ==> !SetupReturned(t)
  {
    PrefixRuns(profile, settings, t, 0);
    assert t[..0] == [];
    HistoryHolds(profile, settings, t);
    if |t| == 1 {
      assert t[..1] == t;
    } else {
      PrefixRuns(profile, settings, t, 1);
    }
  }

  lemma TheRunSoFar(profile: Profile, settings: Settings, t: seq<Event>, r: nat) returns (p: Payload, m: Option<string>, k: int)
    requires !Run(profile, settings, t).Stuck? && r < |t| && t[r].call.RunSetup?
    ensures RanAt(profile, t, p, m, k) && k == r && forall i :: 0 <= i < |t| && t[i].call.RunSetup? ==> i == r
  {
    HistoryHolds(profile, settings, t);
    NoSetupYet(profile, settings, t, r);
    var pc := Run(profile, settings, t);
    if pc.Halted? {
      p, m, k := TheRun(profile, t, pc.outcome, r);
    } else {
      m := pc.minted;
      p, k :| RanAt(profile, t, p, m, k);
      OnlyRun(profile, t, p, m, k, r);
      forall i | 0 <= i < |t| && t[i].call.RunSetup? ensures i == r {
        OnlyRun(profile, t, p, m, k, i);
      }
    }
  }

  lemma NoSetupYet(profile: Profile, settings: Settings, t: seq<Event>, r: nat)
    requires History(profile, settings, t) && r < |t|
    ensures t[r].call.RunSetup? ==>
              var pc := Run(profile, settings, t); pc.AskStatusAgain? || pc.Halted? || pc.Stuck?
  {
    var pc := Run(profile, settings, t);
    if pc.AskRun? || pc.HealthStart? || pc.HealthCheck? || pc.HealthClock? || pc.HealthSleep? {
      PreparedHasNoSetup(profile, t, pc.payload, pc.minted, r);
    }
  }

  lemma PreparedHasNoSetup(profile: Profile, t: seq<Event>, p: Payload, m: Option<string>, r: nat)
    requires Prepared(profile, t, p, m, |t|) && r < |t|
    ensures !t[r].call.RunSetup?
  {
    var vars :| PreparedWith(profile, t, p, m, |t|, vars);
    if m.Some? {
      var key :| WrittenFor(profile, t, vars, key, m.value) && p.authSecret == Some(Text(key));
    }
  }

  lemma HealthyBefore(profile: Profile, t: seq<Event>, p: Payload, m: Option<string>, k: int, w: nat)
    requires RanAt(profile, t, p, m, k) && w < |t| && t[w].call.Write? && t[w].call.redeploys
    ensures w == 3 && t[3].reply == Done && exists h :: 3 < h < k && t[h].call.CheckHealth? && t[h].reply == Health(true)
  {
    assert Acts(t[w].call);
    var vars :| PreparedWith(profile, t, p, m, k, vars);
    assert m.Some?;
    var key :| WrittenFor(profile, t, vars, key, m.value) && p.authSecret == Some(Text(key));
    assert w == 3 && Redeploys(profile);
    var h :| 4 <= h < k && h < |t| && t[h].call.CheckHealth? && t[h].reply == Health(true);
    assert 3 < h < k;
  }

  lemma TheRun(profile: Profile, t: seq<Event>, outcome: Outcome, r: nat) returns (p: Payload, m: Option<string>, k: int)
    requires Concluded(profile, t, outcome) && r < |t| && t[r].call.RunSetup?
    ensures RanAt(profile, t, p, m, k) && k == r && forall i :: 0 <= i < |t| && t[i].call.RunSetup? ==> i == r
  {
    assert Acts(t[r].call);
    if outcome.Applied? {
      p, k :| RanAt(profile, t, p, outcome.minted, k);
      m := outcome.minted;
    } else {
      FaultWithRun(profile, t, r);
      p, m, k :| RanAt(profile, t, p, m, k);
    }
    OnlyRun(profile, t, p, m, k, r);
    forall i | 0 <= i < |t| && t[i].call.RunSetup? ensures i == r {
      OnlyRun(profile, t, p, m, k, i);
    }
  }

  lemma FaultWithRun(profile: Profile, t: seq<Event>, r: nat)
    requires Faulted(profile, t) && r < |t| && t[r].call.RunSetup?
    ensures exists p, m, k :: RanAt(profile, t, p, m, k)
  {
    assert Acts(t[r].call);
  }

  lemma OnlyRun(profile: Profile, t: seq<Event>, p: Payload, m: Option<string>, k: int, i: nat)
    requires RanAt(profile, t, p, m, k) && i < |t| && t[i].call.RunSetup?
    ensures i == k
  {
    assert Acts(t[i].call);
    var vars :| PreparedWith(profile, t, p, m, k, vars);
  }

  // ---------- the health wait ----------

  function HealthChecks(t: seq<Event>): nat {
    if t == [] then 0
    else HealthChecks(t[..|t| - 1]) + if t[|t| - 1].call.CheckHealth? then 1 else 0
  }

  /** How the number of checks n, made every p ms, stands to the clock and to the timeout. */
  ghost predicate Progress(settings: Settings, t: seq<Event>, pc: Pc, n: int, start: int) {
    var p, total := settings.pollSeconds * 1000, settings.timeoutSeconds * 1000;
    match pc
    case HealthCheck(_, _, d) =>
      d == start + total && Earliest(t).Some? && start + n * p <= Earliest(t).value
      && (n >= 1 ==> (n - 1) * p < total)
    case HealthClock(_, _, d) =>
      d == start + total && Earliest(t).Some? && n >= 1 && start + (n - 1) * p <= Earliest(t).value
      && (n >= 2 ==> (n - 2) * p < total)
    case HealthSleep(_, _, d) =>
      d == start + total && Earliest(t).Some? && n >= 1 && start + (n - 1) * p <= Earliest(t).value
      && (n - 1) * p < total
    case AskRun(_, _) => n >= 2 ==> (n - 2) * p < total
    case AskStatusAgain(_) => n >= 2 ==> (n - 2) * p < total
    case Halted(_) => n >= 2 ==> (n - 2) * p < total
    case _ => n == 0
  }

  lemma WaitStep(profile: Profile, settings: Settings, t: seq<Event>, pc: Pc, e: Event, n: nat, start: int)
    requires pc.HealthCheck? || pc.HealthClock? || pc.HealthSleep?
    requires Progress(settings, t, pc, n, start) && ClockLaw(t + [e]) && !Step(profile, settings, pc, e).Stuck?
    ensures Progress(settings, t + [e], Step(profile, settings, pc, e), n + if e.call.CheckHealth? then 1 else 0, start)
  {
    assert (t + [e])[..|t|] == t;
    var p := settings.pollSeconds * 1000;
    assert n * p == (n - 1) * p + p && (n - 1) * p == (n - 2) * p + p;
  }

  lemma OtherStep(profile: Profile, settings: Settings, t: seq<Event>, pc: Pc, e: Event, n: nat, start: int) returns (start': int)
    requires !(pc.HealthCheck? || pc.HealthClock? || pc.HealthSleep?)
    requires Progress(settings, t, pc, n, start) && !Step(profile, settings, pc, e).Stuck?
    ensures !e.call.CheckHealth? && Progress(settings, t + [e], Step(profile, settings, pc, e), n, start')
  {
    start' := if pc.HealthStart? then e.reply.t else start;
  }

  lemma {:induction false} HealthProgress(profile: Profile, settings: Settings, t: seq<Event>) returns (start: int)
    requires !Run(profile, settings, t).Stuck? && ClockLaw(t)
    ensures Progress(settings, t, Run(profile, settings, t), HealthChecks(t), start)
  {
    if t == [] {
      start := 0;
    } else {
      var init, last := t[..|t| - 1], t[|t| - 1];
      assert t == init + [last];
      start := HealthProgress(profile, settings, init);
      var pc := Run(profile, settings, init);
      if pc.HealthCheck? || pc.HealthClock? || pc.HealthSleep? {
        WaitStep(profile, settings, init, pc, last, HealthChecks(init), start);
      } else {
        start := OtherStep(profile, settings, init, pc, last, HealthChecks(init), start);
      }
    }
  }

  /** Waiting out a redeploy asks at most ceil(timeout / period) + 1 times. */
  lemma HealthCheckBound(profile: Profile, settings: Settings, t: seq<Event>)
    requires !Run(profile, settings, t).Stuck? && ClockLaw(t) && settings.pollSeconds >= 1
    ensures var p, total := settings.pollSeconds * 1000, settings.timeoutSeconds * 1000;
            HealthChecks(t) <= (total + p - 1) / p + 1
  {
    var n, p, total := HealthChecks(t), settings.pollSeconds * 1000, settings.timeoutSeconds * 1000;
    var start := HealthProgress(profile, settings, t);
    assert n * p == (n - 1) * p + p && (n - 1) * p == (n - 2) * p + p;
    if n >= 2 {
      CeilingBound(n - 1, p, total);
    }
  }

  // ---------- the mint ledger ----------

  /** The events of several runs, one after another. */
  function Flatten(runs: seq<seq<Event>>): seq<Event> {
    if runs == [] then [] else Flatten(runs[..|runs| - 1]) + runs[|runs| - 1]
  }

  /** Once a write of the secret has landed and persists, no later call mints: over any
      number of runs of one profile, each stopped anywhere, each failing anyhow. */
  lemma {:induction false} NoMintAfterLanding(profile: Profile, settings: Settings, runs: seq<seq<Event>>, i: nat, j: nat)
    requires forall r :: r in runs ==> !Run(profile, settings, r).Stuck?
    requires Persistent(Flatten(runs))
    requires i < j < |Flatten(runs)| && Flatten(runs)[i].landed && Flatten(runs)[i].call.Write?
    requires Flatten(runs)[i].call.name == SecretName(profile)
    ensures !Flatten(runs)[j].call.Mint?
  {
    var before, last, all := Flatten(runs[..|runs| - 1]), runs[|runs| - 1], Flatten(runs);
    assert last in runs;
    if j < |before| {
      assert forall k :: 0 <= k < |before| ==> before[k] == all[k];
      NoMintAfterLanding(profile, settings, runs[..|runs| - 1], i, j);
    } else {
      var k := j - |before|;
      ActsInOrder(profile, settings, last, k);
      if i >= |before| {
        ActsInOrder(profile, settings, last, i - |before|);
      } else if |last| > 1 {
        assert all[|before| + 1] == last[1];
      }
    }
  }

  // ---------- dry run and apply ----------

  lemma {:induction false} FillKeys(mappings: seq<Mapping>, vars: map<string, string>)
    requires Fill(mappings, vars).Some?
    ensures Fill(mappings, vars).value.Keys == FieldSet(mappings)
  {
    if mappings != [] {
      var init, last := mappings[..|mappings| - 1], mappings[|mappings| - 1];
      FillKeys(init, vars);
      assert forall m :: m in mappings <==> m in init || m == last;
      assert FieldSet(mappings) == FieldSet(init) + {last.field};
    }
  }

  /** If a run sends a payload, the dry run of the profile succeeds, on whatever variables,
      and previews the same channel fields. */
  lemma PayloadMatchesDryRun(profile: Profile, settings: Settings, t: seq<Event>, r: nat)
    requires !Run(profile, settings, t).Stuck? && r < |t| && t[r].call.RunSetup?
    ensures Representable(profile.channels)
    ensures t[r].call.payload.fields.Keys == FieldSet(Mappings(profile.channels))
  {
    var p, m, k := TheRunSoFar(profile, settings, t, r);
    var vars :| PreparedWith(profile, t, p, m, k, vars);
    FillKeys(Mappings(profile.channels), vars);
  }

  /** If the variables a run reads hold every required secret, it mints nothing. */
  lemma AllPresentMintsNothing(profile: Profile, settings: Settings, t: seq<Event>, i: nat)
    requires !Run(profile, settings, t).Stuck? && i < |t|
    requires |t| >= 2 && t[1].reply.Variables? ==> forall n :: n in Required(profile) ==> n in t[1].reply.vars
    ensures !t[i].call.Mint?
  {
    ActsInOrder(profile, settings, t, i);
    MintNeedsProvider(profile, settings, t);
  }

  lemma {:induction false} MintNeedsProvider(profile: Profile, settings: Settings, t: seq<Event>)
    requires !Run(profile, settings, t).Stuck?
    ensures |t| >= 3 && t[2].call.Mint? ==> SecretName(profile) in Required(profile)
  {
    if |t| > 3 {
      MintNeedsProvider(profile, settings, t[..|t| - 1]);
    } else if |t| == 3 {
      HistoryHolds(profile, settings, t[..2]);
      if t[2].call.Mint? {
        NeedsRequired(profile, t[1].reply.vars);
      }
    }
  }

  lemma NeedsRequired(profile: Profile, vars: map<string, string>)
    requires Resolve(profile, vars).NeedsMint?
    ensures SecretName(profile) in Required(profile)
  {
    var provider := profile.modelProviders[0];
    assert provider in profile.modelProviders && SecretName(profile) in provider.requiredSecretNames;
  }

  /** What a caller can check before the call: the one provider's keys are managed. */
  predicate Managed(profile: Profile) {
    && |profile.modelProviders| == 1 && profile.modelProviders[0].requiredSecretNames != []
    && profile.modelProviders[0].keyProvisioning
  }

  /** Exactly when a run mints, told from the profile and the variables it reads. */
  predicate WouldMint(profile: Profile, vars: map<string, string>) {
    Managed(profile) && SecretName(profile) !in vars && SecretName(profile) !in PROTOTYPE
  }

  lemma {:induction false} PrefixRuns(profile: Profile, settings: Settings, t: seq<Event>, n: nat)
    requires !Run(profile, settings, t).Stuck? && n < |t|
    ensures !Run(profile, settings, t[..n]).Stuck? && !Run(profile, settings, t[..n]).Halted?
    ensures t[n].call == NextCall(profile, settings, Run(profile, settings, t[..n]))
    ensures Run(profile, settings, t[..n + 1]) == Advance(profile, settings, Run(profile, settings, t[..n]), t[n].reply)
    decreases |t|
  {
    var init := t[..|t| - 1];
    if n < |t| - 1 {
      PrefixRuns(profile, settings, init, n);
      assert init[..n] == t[..n] && init[..n + 1] == t[..n + 1];
    } else {
      assert t[..n] == init && t[..n + 1] == t;
    }
  }

  /** Where the first two answers have led. */
  lemma AfterListing(profile: Profile, settings: Settings, t: seq<Event>, vars: map<string, string>)
    requires !Run(profile, settings, t).Stuck? && |t| >= 2 && t[1].reply == Variables(vars)
    ensures Run(profile, settings, t[..2]) == Advance(profile, settings, AskVariables, Variables(vars))
  {
    PrefixRuns(profile, settings, t, 0);
    PrefixRuns(profile, settings, t, 1);
    assert t[..0] == [];
  }

  lemma ListingLeadsToMint(profile: Profile, settings: Settings, vars: map<string, string>)
    ensures var pc := Advance(profile, settings, AskVariables, Variables(vars));
            && (pc.AskMint? <==> WouldMint(profile, vars))
            && (NextCall(profile, settings, pc).Mint? <==> pc.AskMint?)
  {
    assert Found(vars, SecretName(profile)) <==> SecretName(profile) in vars || SecretName(profile) in PROTOTYPE;
  }

  /** Past the listing, the next call is a mint if and only if the profile asks for managed
      keys and the name of the secret is neither a variable nor an inherited property; and
      a run mints at no other point. */
  lemma MintsExactly(profile: Profile, settings: Settings, t: seq<Event>, vars: map<string, string>)
    requires !Run(profile, settings, t).Stuck? && |t| >= 2 && t[1].reply == Variables(vars)
    ensures Run(profile, settings, t[..2]).AskMint? <==> WouldMint(profile, vars)
    ensures |t| >= 3 ==> (t[2].call.Mint? <==> WouldMint(profile, vars))
    ensures forall i :: 0 <= i < |t| && t[i].call.Mint? ==> i == 2
  {
    AfterListing(profile, settings, t, vars);
    if |t| >= 3 {
      PrefixRuns(profile, settings, t, 2);
    }
    ListingLeadsToMint(profile, settings, vars);
    MintsOnlyThere(profile, settings, t);
  }

  lemma MintsOnlyThere(profile: Profile, settings: Settings, t: seq<Event>)
    requires !Run(profile, settings, t).Stuck?
    ensures forall i :: 0 <= i < |t| && t[i].call.Mint? ==> i == 2
  {
    forall i | 0 <= i < |t| && t[i].call.Mint? ensures i == 2 {
      ActsInOrder(profile, settings, t, i);
    }
  }

  /** A run that goes on past the listing, over variables for which the dry run reports the
      secret absent, mints it there if and only if its name is not that of an inherited
      property; and otherwise it mints nothing at all. */
  lemma AbsentMeansMintedExactly(profile: Profile, settings: Settings, t: seq<Event>, vars: map<string, string>)
    requires Managed(profile) && ReportedAbsent(profile, vars, SecretName(profile))
    requires !Run(profile, settings, t).Stuck? && |t| >= 3 && t[1].reply == Variables(vars)
    ensures t[2].call.Mint? <==> SecretName(profile) !in PROTOTYPE
    ensures (exists i :: 0 <= i < |t| && t[i].call.Mint?) <==> SecretName(profile) !in PROTOTYPE
  {
    MintsExactly(profile, settings, t, vars);
  }

  /** Such a name: the dry run reports the secret absent, and the run applies the profile
      without minting it. */
  lemma InheritedNameIsOverlooked() returns (profile: Profile, settings: Settings, t: seq<Event>)
    ensures Managed(profile) && SecretName(profile) == "constructor"
    ensures |t| >= 2 && t[1].reply == Variables(map[]) && ReportedAbsent(profile, map[], "constructor")
    ensures Run(profile, settings, t) == Halted(Applied(None)) && forall i :: 0 <= i < |t| ==> !t[i].call.Mint?
  {
    settings := Settings(2, 60);
    profile := Profile([Provider("a", "manual", ["constructor"], true, None)], []);
    ManagedIsRequired(profile);
    var asked := AsksToRun(profile, settings);
    var setup := Event(RunSetup(Payload(Some(Method("constructor")), map[])), Reply.Done, false);
    var again := Event(GetStatus, Configured(true), false);
    RunSnoc(profile, settings, asked, setup);
    RunSnoc(profile, settings, asked + [setup], again);
    t := asked + [setup] + [again];
  }

  lemma ManagedIsRequired(profile: Profile)
    requires Managed(profile)
    ensures SecretName(profile) in Required(profile)
  {
    var provider := profile.modelProviders[0];
    assert provider in profile.modelProviders && SecretName(profile) in provider.requiredSecretNames;
  }

  lemma AsksToRun(profile: Profile, settings: Settings) returns (t: seq<Event>)
    requires profile == Profile([Provider("a", "manual", ["constructor"], true, None)], [])
    ensures |t| == 2 && t[1].reply == Variables(map[]) && !t[0].call.Mint? && !t[1].call.Mint?
    ensures Run(profile, settings, t) == AskRun(Payload(Some(Method("constructor")), map[]), None)
  {
    var none: map<string, string> := map[];
    var status, list := Event(GetStatus, Configured(false), false), Event(ListVariables, Variables(none), false);
    assert "constructor" in PROTOTYPE;
    RunSnoc(profile, settings, [], status);
    RunSnoc(profile, settings, [status], list);
    assert [] + [status] == [status];
    t := [status] + [list];
  }

  /** After a mint whose write returned, the run ends right there, rejecting the channels,
      if and only if the channels cannot be filled from the variables that were read:
      something a caller can check before the call. */
  lemma RejectedAfterMintExactly(profile: Profile, settings: Settings, t: seq<Event>, vars: map<string, string>)
    requires Run(profile, settings, t).Halted? && |t| >= 4 && t[1].reply == Variables(vars)
    requires t[3].call.Write? && t[3].reply.Done?
    ensures |t| == 4 <==> ChannelFields(profile, vars).None?
    ensures |t| == 4 ==> Run(profile, settings, t) == Halted(Error)
  {
    var written := AfterWrite(profile, settings, t, vars);
    if |t| == 4 {
      assert t[..4] == t;
    } else {
      PrefixRuns(profile, settings, t, 4);
    }
  }

  lemma AfterWrite(profile: Profile, settings: Settings, t: seq<Event>, vars: map<string, string>) returns (pc: Pc)
    requires !Run(profile, settings, t).Stuck? && |t| >= 4 && t[1].reply == Variables(vars)
    requires t[3].call.Write? && t[3].reply.Done?
    ensures pc == Run(profile, settings, t[..4])
    ensures if ChannelFields(profile, vars).None? then pc == Halted(Error) else pc.HealthStart? || pc.AskRun?
  {
    WriteFrom(profile, settings, t, vars);
    PrefixRuns(profile, settings, t, 3);
    pc := Run(profile, settings, t[..4]);
  }

  lemma WriteFrom(profile: Profile, settings: Settings, t: seq<Event>, vars: map<string, string>)
    requires !Run(profile, settings, t).Stuck? && |t| >= 4 && t[1].reply == Variables(vars) && t[3].call.Write?
    ensures var pc := Run(profile, settings, t[..3]); pc.AskWrite? && pc.vars == vars
  {
    AfterListing(profile, settings, t, vars);
    PrefixRuns(profile, settings, t, 2);
    PrefixRuns(profile, settings, t, 3);
    MintThenWrite(profile, settings, vars, t[2].reply);
  }

  lemma WriteAfterMint(profile: Profile, settings: Settings, pc: Pc, reply: Reply)
    ensures var next := Advance(profile, settings, pc, reply);
            NextCall(profile, settings, next).Write? ==> next.AskWrite? && pc.AskMint? && next.vars == pc.vars
  {
  }

  lemma MintKeepsListing(profile: Profile, settings: Settings, vars: map<string, string>)
    ensures var pc := Advance(profile, settings, AskVariables, Variables(vars)); pc.AskMint? ==> pc.vars == vars
  {
  }

  lemma MintThenWrite(profile: Profile, settings: Settings, vars: map<string, string>, reply: Reply)
    ensures var pc := Advance(profile, settings, Advance(profile, settings, AskVariables, Variables(vars)), reply);
            NextCall(profile, settings, pc).Write? ==> pc.AskWrite? && pc.vars == vars
  {
    MintKeepsListing(profile, settings, vars);
    WriteAfterMint(profile, settings, Advance(profile, settings, AskVariables, Variables(vars)), reply);
  }

  /** Such a run. */
  lemma MintsBeforeRejectingChannels() returns (profile: Profile, settings: Settings, t: seq<Event>)
    ensures Run(profile, settings, t) == Halted(Error) && !Representable(profile.channels)
    ensures exists i :: 0 <= i < |t| && t[i].call.Mint? && t[i].reply.Minted?
  {
    settings := Settings(2, 60);
    profile := Profile([Provider("a", "manual", ["K"], true, None)], [Channel("irc", ["S"])]);
    var t2 := AsksToMint(profile, settings);
    var mint, write := Event(Mint("K"), Minted("k", "h"), false), Event(Write("K", "k", false), Reply.Done, true);
    assert SecretCount(profile.channels[0].kind).None?;
    RunSnoc(profile, settings, t2, mint);
    RunSnoc(profile, settings, t2 + [mint], write);
    t := t2 + [mint] + [write];
    assert t[2] == mint;
  }

  lemma AsksToMint(profile: Profile, settings: Settings) returns (t: seq<Event>)
    requires profile == Profile([Provider("a", "manual", ["K"], true, None)], [Channel("irc", ["S"])])
    ensures |t| == 2 && Run(profile, settings, t) == AskMint(map[]) && SecretName(profile) == "K"
  {
    var status, list := Event(GetStatus, Configured(false), false), Event(ListVariables, Variables(map[]), false);
    assert "K" !in PROTOTYPE;
    RunSnoc(profile, settings, [], status);
    RunSnoc(profile, settings, [status], list);
    assert [] + [status] == [status];
    t := [status] + [list];
  }
}
