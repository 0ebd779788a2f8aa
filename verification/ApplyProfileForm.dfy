/** An applyProfile run in closed form, part by part from its start: what each part sends, on
    what it depends how it goes on, and how every run ends. */
module ApplyProfileForm {
  import opened Options
  import opened Channels
  import opened ApplyProfile

  /** The event at i is this call, with an answer it can have. */
  predicate SendsAt(t: seq<Event>, i: nat, call: Call) {
    i < |t| && t[i].call == call && Fits(t[i].call, t[i].reply) && (t[i].landed ==> call.Write?)
  }

  // ---------- the payload ----------

  /** v is what looking the name up gives: the variable, or else what every object inherits. */
  predicate Denotes(vars: map<string, string>, name: string, v: Value) {
    if name in vars then v == Text(vars[name]) else name in PROTOTYPE && v == Method(name)
  }

  /** The fields a payload has, each with the secret its channel names for it. */
  ghost predicate FieldsShow(channels: seq<Channel>, vars: map<string, string>, fields: map<Field, Value>) {
    && (forall f, n :: Filled(channels, f, n) ==> f in fields && Denotes(vars, n, fields[f]))
    && (forall f :: f in fields ==> exists n :: Filled(channels, f, n))
  }

  /** Supported channels, and every secret they name is found. */
  ghost predicate Fillable(channels: seq<Channel>, vars: map<string, string>) {
    && Representable(channels)
    && forall f, n :: Filled(channels, f, n) ==> n in vars || n in PROTOTYPE
  }

  lemma {:induction false} FillHolds(mappings: seq<Mapping>, vars: map<string, string>)
    requires DistinctFields(mappings)
    ensures Fill(mappings, vars).Some? <==> forall m :: m in mappings ==> m.secretName in vars || m.secretName in PROTOTYPE
    ensures Fill(mappings, vars).Some? ==>
              var fields := Fill(mappings, vars).value;
              && (forall m :: m in mappings ==> m.field in fields && Denotes(vars, m.secretName, fields[m.field]))
              && (forall f :: f in fields ==> exists m :: m in mappings && m.field == f)
  {
    if mappings != [] {
      var init, last := mappings[..|mappings| - 1], mappings[|mappings| - 1];
      FillHolds(init, vars);
      assert forall m :: m in mappings <==> m in init || m == last;
    }
  }

  /** The channel fields are there exactly when every channel can be filled, and then show
      for each channel the secrets it names, and nothing else. */
  lemma FieldsExactly(profile: Profile, vars: map<string, string>)
    ensures ChannelFields(profile, vars).Some? <==> Fillable(profile.channels, vars)
    ensures ChannelFields(profile, vars).Some? ==> FieldsShow(profile.channels, vars, ChannelFields(profile, vars).value)
  {
    var channels := profile.channels;
    if Representable(channels) {
      var mappings := Mappings(channels);
      FieldsAreDistinct(channels);
      FillHolds(mappings, vars);
      forall f, n ensures Filled(channels, f, n) <==> Mapping(f, n) in mappings {
        MappingsExactly(channels, Mapping(f, n));
      }
      forall m | m in mappings ensures Filled(channels, m.field, m.secretName) {
        assert m == Mapping(m.field, m.secretName);
      }
    }
  }

  // ---------- the wait for a healthy answer ----------

  /** Clock, then over and over: check, clock, sleep. */
  function HealthCallAt(settings: Settings, i: nat): Call {
    if i == 0 then ReadClock
    else if i % 3 == 1 then CheckHealth
    else if i % 3 == 2 then ReadClock
    else Sleep(settings.pollSeconds * 1000)
  }

  predicate LateAt(settings: Settings, t: seq<Event>, i: int) {
    && 0 < i < |t| && t[i].reply.Time? && t[0].reply.Time?
    && t[i].reply.t >= t[0].reply.t + settings.timeoutSeconds * 1000
  }

  /** The event at i ends the wait: an ok answer well; a check that throws, or a clock
      reading at or past the timeout after the first one, badly; and nothing else does. */
  predicate HealthEndsAt(settings: Settings, t: seq<Event>, i: int, ok: bool) {
    && 0 < i < |t|
    && if ok then i % 3 == 1 && t[i].reply == Health(true)
       else (i % 3 == 1 && t[i].reply.Failed?) || (i % 3 == 2 && LateAt(settings, t, i))
  }

  predicate HealthOver(settings: Settings, t: seq<Event>, i: int) {
    HealthEndsAt(settings, t, i, true) || HealthEndsAt(settings, t, i, false)
  }

  /** The wait takes the first m events. */
  ghost predicate HealthForm(settings: Settings, t: seq<Event>, m: nat) {
    && m <= |t|
    && (forall i :: 0 <= i < m ==> SendsAt(t, i, HealthCallAt(settings, i)))
    && (forall i :: 0 <= i < m - 1 ==> !HealthOver(settings, t, i))
  }

  // ---------- the run ----------

  ghost predicate SetupForm(t: seq<Event>, payload: Payload, minted: Option<string>, outcome: Outcome) {
    && SendsAt(t, 0, RunSetup(payload))
    && if t[0].reply.Failed? then |t| == 1 && outcome == Error
       else
         && SendsAt(t, 1, GetStatus) && |t| == 2
         && outcome == if t[1].reply == Configured(true) then Applied(minted) else Error
  }

  ghost predicate HealthyForm(settings: Settings, t: seq<Event>, payload: Payload, minted: Option<string>, outcome: Outcome) {
    exists m: nat ::
      HealthForm(settings, t, m)
      && ((HealthEndsAt(settings, t, m - 1, true) && SetupForm(t[m..], payload, minted, outcome))
          || (HealthEndsAt(settings, t, m - 1, false) && m == |t| && outcome == Error))
  }

  ghost predicate PayloadForm(profile: Profile, settings: Settings, t: seq<Event>, vars: map<string, string>,
                              secret: Option<Value>, minted: Option<string>, redeployed: bool, outcome: Outcome)
  {
    if !Fillable(profile.channels, vars) then t == [] && outcome == Error
    else exists fields ::
      FieldsShow(profile.channels, vars, fields)
      && if redeployed then HealthyForm(settings, t, Payload(secret, fields), minted, outcome)
         else SetupForm(t, Payload(secret, fields), minted, outcome)
  }

  ghost predicate WriteForm(profile: Profile, settings: Settings, t: seq<Event>, vars: map<string, string>,
                            provider: Provider, name: string, key: string, hash: string, outcome: Outcome)
  {
    && SendsAt(t, 0, Write(name, key, provider.customProviderApiKeyEnv.Some?))
    && if t[0].reply.Failed? then |t| == 1 && outcome == Error
       else PayloadForm(profile, settings, t[1..], vars, Some(Text(key)), Some(hash),
                        provider.customProviderApiKeyEnv.Some?, outcome)
  }

  ghost predicate MintForm(profile: Profile, settings: Settings, t: seq<Event>, vars: map<string, string>,
                           provider: Provider, name: string, outcome: Outcome)
  {
    && SendsAt(t, 0, Mint(name))
    && if t[0].reply.Failed? then |t| == 1 && outcome == Error
       else WriteForm(profile, settings, t[1..], vars, provider, name, t[0].reply.key, t[0].reply.hash, outcome)
  }

  ghost predicate ProviderForm(profile: Profile, settings: Settings, t: seq<Event>, vars: map<string, string>, outcome: Outcome) {
    if profile.modelProviders == [] then PayloadForm(profile, settings, t, vars, None, None, false, outcome)
    else if |profile.modelProviders| > 1 || profile.modelProviders[0].requiredSecretNames == [] then
      t == [] && outcome == Error
    else
      var provider := profile.modelProviders[0];
      var name := provider.requiredSecretNames[0];
      if name in vars || name in PROTOTYPE then
        exists v :: Denotes(vars, name, v) && PayloadForm(profile, settings, t, vars, Some(v), None, false, outcome)
      else if provider.keyProvisioning then MintForm(profile, settings, t, vars, provider, name, outcome)
      else t == [] && outcome == Error
  }

  ghost predicate ListForm(profile: Profile, settings: Settings, t: seq<Event>, outcome: Outcome) {
    && SendsAt(t, 0, ListVariables)
    && if t[0].reply.Failed? then |t| == 1 && outcome == Error
       else ProviderForm(profile, settings, t[1..], t[0].reply.vars, outcome)
  }

  ghost predicate ApplyForm(profile: Profile, settings: Settings, t: seq<Event>, outcome: Outcome) {
    && SendsAt(t, 0, GetStatus)
    && if t[0].reply.Failed? then |t| == 1 && outcome == Error
       else if t[0].reply == Configured(true) then |t| == 1 && outcome == AlreadyConfigured
       else ListForm(profile, settings, t[1..], outcome)
  }

  // ---------- every run has this form ----------

  function RunFrom(profile: Profile, settings: Settings, from: Pc, t: seq<Event>): Pc
    decreases |t|
  {
    if t == [] then from else RunFrom(profile, settings, Step(profile, settings, from, t[0]), t[1..])
  }

  lemma {:induction false} RunFromSnoc(profile: Profile, settings: Settings, from: Pc, t: seq<Event>, e: Event)
    ensures RunFrom(profile, settings, from, t + [e]) == Step(profile, settings, RunFrom(profile, settings, from, t), e)
    decreases |t|
  {
    if t == [] {
      assert [] + [e] == [e] && [e][1..] == [];
    } else {
      assert (t + [e])[1..] == t[1..] + [e];
      RunFromSnoc(profile, settings, Step(profile, settings, from, t[0]), t[1..], e);
    }
  }

  lemma {:induction false} RunIsFromStart(profile: Profile, settings: Settings, t: seq<Event>)
    ensures Run(profile, settings, t) == RunFrom(profile, settings, AskStatus, t)
  {
    if t != [] {
      var init, last := t[..|t| - 1], t[|t| - 1];
      assert t == init + [last];
      RunIsFromStart(profile, settings, init);
      RunFromSnoc(profile, settings, AskStatus, init, last);
    }
  }

  lemma {:induction false} Over(profile: Profile, settings: Settings, pc: Pc, t: seq<Event>)
    requires pc.Halted? || pc.Stuck?
    ensures RunFrom(profile, settings, pc, t) == if t == [] then pc else Stuck
    decreases |t|
  {
    if t != [] {
      Over(profile, settings, Stuck, t[1..]);
    }
  }

  /** The first event of a part, and the rest. */
  lemma Peel(profile: Profile, settings: Settings, pc: Pc, t: seq<Event>, outcome: Outcome) returns (next: Pc)
    requires RunFrom(profile, settings, pc, t) == Halted(outcome) && !pc.Halted?
    ensures t != [] && next == Advance(profile, settings, pc, t[0].reply)
    ensures RunFrom(profile, settings, next, t[1..]) == Halted(outcome)
    ensures SendsAt(t, 0, NextCall(profile, settings, pc))
    ensures next.Halted? ==> |t| == 1 && next.outcome == outcome
    ensures !next.Stuck?
  {
    next := Step(profile, settings, pc, t[0]);
    if next.Halted? || next.Stuck? {
      Over(profile, settings, next, t[1..]);
    }
  }

  lemma RanSetup(profile: Profile, settings: Settings, t: seq<Event>, p: Payload, m: Option<string>, outcome: Outcome)
    requires RunFrom(profile, settings, AskRun(p, m), t) == Halted(outcome)
    ensures SetupForm(t, p, m, outcome)
  {
    var next := Peel(profile, settings, AskRun(p, m), t, outcome);
    if !next.Halted? {
      var _ := Peel(profile, settings, AskStatusAgain(m), t[1..], outcome);
    }
  }

  /** Where a wait that is not over stands after n events. */
  predicate StandsAt(settings: Settings, t: seq<Event>, n: nat, p: Payload, m: Option<string>, pc: Pc)
    requires n <= |t|
  {
    if n == 0 then pc == HealthStart(p, m)
    else
      t[0].reply.Time? &&
      var deadline := t[0].reply.t + settings.timeoutSeconds * 1000;
      pc == if n % 3 == 1 then HealthCheck(p, m, deadline)
            else if n % 3 == 2 then HealthClock(p, m, deadline)
            else HealthSleep(p, m, deadline)
  }

  lemma HealthTurn(profile: Profile, settings: Settings, t: seq<Event>, n: nat, p: Payload, m: Option<string>, pc: Pc)
    requires n < |t| && StandsAt(settings, t, n, p, m, pc)
    requires SendsAt(t, n, NextCall(profile, settings, pc))
    ensures SendsAt(t, n, HealthCallAt(settings, n))
    ensures var next := Advance(profile, settings, pc, t[n].reply);
            if HealthEndsAt(settings, t, n, true) then next == AskRun(p, m)
            else if HealthEndsAt(settings, t, n, false) then next == Halted(Error)
            else StandsAt(settings, t, n + 1, p, m, next)
    ensures !(HealthEndsAt(settings, t, n, true) && HealthEndsAt(settings, t, n, false))
  {
  }

  lemma {:induction false} Waited(profile: Profile, settings: Settings, t: seq<Event>, n: nat, p: Payload, m: Option<string>,
                                  pc: Pc, outcome: Outcome)
    requires HealthForm(settings, t, n) && (n > 0 ==> !HealthOver(settings, t, n - 1))
    requires StandsAt(settings, t, n, p, m, pc)
    requires RunFrom(profile, settings, pc, t[n..]) == Halted(outcome)
    ensures HealthyForm(settings, t, p, m, outcome)
    decreases |t| - n
  {
    var next := Peel(profile, settings, pc, t[n..], outcome);
    assert t[n..][0] == t[n] && t[n..][1..] == t[n + 1..];
    HealthTurn(profile, settings, t, n, p, m, pc);
    assert HealthForm(settings, t, n + 1);
    if HealthEndsAt(settings, t, n, true) {
      RanSetup(profile, settings, t[n + 1..], p, m, outcome);
    } else if !HealthEndsAt(settings, t, n, false) {
      Waited(profile, settings, t, n + 1, p, m, next, outcome);
    }
  }

  lemma HadProvider(profile: Profile, settings: Settings, t: seq<Event>, vars: map<string, string>, secret: Option<Value>,
                    minted: Option<string>, redeployed: bool, outcome: Outcome)
    requires RunFrom(profile, settings, WithProvider(profile, vars, secret, minted, redeployed), t) == Halted(outcome)
    ensures PayloadForm(profile, settings, t, vars, secret, minted, redeployed, outcome)
  {
    FieldsExactly(profile, vars);
    var fields := ChannelFields(profile, vars);
    if fields.None? {
      Over(profile, settings, Halted(Error), t);
    } else if redeployed {
      assert t[0..] == t;
      Waited(profile, settings, t, 0, Payload(secret, fields.value), minted, HealthStart(Payload(secret, fields.value), minted), outcome);
    } else {
      RanSetup(profile, settings, t, Payload(secret, fields.value), minted, outcome);
    }
  }

  lemma Wrote(profile: Profile, settings: Settings, t: seq<Event>, vars: map<string, string>, key: string, hash: string,
              outcome: Outcome)
    requires profile.modelProviders != [] && profile.modelProviders[0].requiredSecretNames != []
    requires RunFrom(profile, settings, AskWrite(vars, key, hash), t) == Halted(outcome)
    ensures WriteForm(profile, settings, t, vars, profile.modelProviders[0], SecretName(profile), key, hash, outcome)
  {
    var next := Peel(profile, settings, AskWrite(vars, key, hash), t, outcome);
    if !t[0].reply.Failed? {
      HadProvider(profile, settings, t[1..], vars, Some(Text(key)), Some(hash), Redeploys(profile), outcome);
    }
  }

  lemma Minted(profile: Profile, settings: Settings, t: seq<Event>, vars: map<string, string>, outcome: Outcome)
    requires profile.modelProviders != [] && profile.modelProviders[0].requiredSecretNames != []
    requires RunFrom(profile, settings, AskMint(vars), t) == Halted(outcome)
    ensures MintForm(profile, settings, t, vars, profile.modelProviders[0], SecretName(profile), outcome)
  {
    var next := Peel(profile, settings, AskMint(vars), t, outcome);
    if !next.Halted? {
      Wrote(profile, settings, t[1..], vars, next.key, next.hash, outcome);
    }
  }

  /** Where the listing leads. */
  function AfterListing(profile: Profile, vars: map<string, string>): Pc {
    match Resolve(profile, vars)
    case Reject => Halted(Error)
    case Ready(secret) => WithProvider(profile, vars, secret, None, false)
    case NeedsMint(_, _) => AskMint(vars)
  }

  lemma Resolved(profile: Profile, settings: Settings, t: seq<Event>, vars: map<string, string>, outcome: Outcome)
    requires RunFrom(profile, settings, AfterListing(profile, vars), t) == Halted(outcome)
    ensures ProviderForm(profile, settings, t, vars, outcome)
  {
    match Resolve(profile, vars) {
      case Reject => Over(profile, settings, Halted(Error), t);
      case Ready(secret) =>
        HadProvider(profile, settings, t, vars, secret, None, false, outcome);
        if secret.Some? {
          assert Denotes(vars, SecretName(profile), secret.value);
        }
      case NeedsMint(_, _) => Minted(profile, settings, t, vars, outcome);
    }
  }

  lemma Listed(profile: Profile, settings: Settings, t: seq<Event>, outcome: Outcome)
    requires RunFrom(profile, settings, AskVariables, t) == Halted(outcome)
    ensures ListForm(profile, settings, t, outcome)
  {
    var next := Peel(profile, settings, AskVariables, t, outcome);
    if t[0].reply.Variables? {
      assert next == AfterListing(profile, t[0].reply.vars);
      Resolved(profile, settings, t[1..], t[0].reply.vars, outcome);
    }
  }

  // ---------- the main results ----------

  /** Every finished run is a trace of the closed form. */
  lemma RunHasTheForm(profile: Profile, settings: Settings, t: seq<Event>, outcome: Outcome)
    requires Run(profile, settings, t) == Halted(outcome)
    ensures ApplyForm(profile, settings, t, outcome)
  {
    RunIsFromStart(profile, settings, t);
    var next := Peel(profile, settings, AskStatus, t, outcome);
    if !next.Halted? {
      Listed(profile, settings, t[1..], outcome);
    }
  }
}
