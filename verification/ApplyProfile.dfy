/** Applying a profile to a live instance: status, variables, mint if the secret is
    absent, write it, map the channels, wait out a redeploy, run setup, check.  As for the
    live update, the protocol is a resumption over calls and replies and the program at
    the end is proved to follow it. */
module ApplyProfile {
  import opened Options
  import opened Channels

  /** `Method` is what looking up an inherited name gives. */
  datatype Value = Text(s: string) | Method(name: string)

  function LookUp(vars: map<string, string>, name: string): Option<Value> {
    if name in vars then Some(Text(vars[name]))
    else if name in PROTOTYPE then Some(Method(name))
    else None
  }

  datatype Payload = Payload(authSecret: Option<Value>, fields: map<Field, Value>)

  datatype Call =
    | GetStatus
    | ListVariables
    | Mint(name: string)
    | Write(name: string, value: string, redeploys: bool)
    | ReadClock
    | CheckHealth
    | Sleep(ms: nat)
    | RunSetup(payload: Payload)

  datatype Reply =
    | Failed
    | Done
    | Configured(yes: bool)
    | Variables(vars: map<string, string>)
    | Minted(key: string, hash: string)
    | Health(ok: bool)
    | Time(t: int)

  /** `landed`: a write took effect, whatever its call reported. */
  datatype Event = Event(call: Call, reply: Reply, landed: bool)

  predicate Fits(call: Call, reply: Reply) {
    match call
    case GetStatus => reply.Configured? || reply.Failed?
    case ListVariables => reply.Variables? || reply.Failed?
    case Mint(_) => reply.Minted? || reply.Failed?
    case Write(_, _, _) => reply.Done? || reply.Failed?
    case ReadClock => reply.Time?
    case CheckHealth => reply.Health? || reply.Failed?
    case Sleep(_) => reply.Done?
    case RunSetup(_) => reply.Done? || reply.Failed?
  }

  datatype Outcome =
    | AlreadyConfigured
    | Applied(minted: Option<string>)
    | Error

  /** What the variables that were read lead to for the model provider. */
  datatype Resolution =
    | Reject
    | Ready(authSecret: Option<Value>)
    | NeedsMint(name: string, redeploys: bool)

  function Resolve(profile: Profile, vars: map<string, string>): Resolution {
    if |profile.modelProviders| > 1 then Reject
    else if profile.modelProviders == [] then Ready(None)
    else
      var provider := profile.modelProviders[0];
      if provider.requiredSecretNames == [] then Reject
      else
        var secretName := provider.requiredSecretNames[0];
        if LookUp(vars, secretName).Some? then Ready(LookUp(vars, secretName))
        else if !provider.keyProvisioning then Reject
        else NeedsMint(secretName, provider.customProviderApiKeyEnv.Some?)
  }

  /** The channel fields; None when the channels are not representable or a secret is missing. */
  function ChannelFields(profile: Profile, vars: map<string, string>): Option<map<Field, Value>> {
    if Representable(profile.channels) then Fill(Mappings(profile.channels), vars) else None
  }

  function Fill(mappings: seq<Mapping>, vars: map<string, string>): Option<map<Field, Value>> {
    if mappings == [] then Some(map[])
    else
      var before, last := Fill(mappings[..|mappings| - 1], vars), mappings[|mappings| - 1];
      if before.None? || LookUp(vars, last.secretName).None? then None
      else Some(before.value[last.field := LookUp(vars, last.secretName).value])
  }

  datatype Settings = Settings(pollSeconds: nat, timeoutSeconds: nat)

  datatype Pc =
    | AskStatus
    | AskVariables
    | AskMint(vars: map<string, string>)
    | AskWrite(vars: map<string, string>, key: string, hash: string)
    | HealthStart(payload: Payload, minted: Option<string>)
    | HealthCheck(payload: Payload, minted: Option<string>, deadline: int)
    | HealthClock(payload: Payload, minted: Option<string>, deadline: int)
    | HealthSleep(payload: Payload, minted: Option<string>, deadline: int)
    | AskRun(payload: Payload, minted: Option<string>)
    | AskStatusAgain(minted: Option<string>)
    | Halted(outcome: Outcome)
    | Stuck

  function SecretName(profile: Profile): string {
    if profile.modelProviders != [] && profile.modelProviders[0].requiredSecretNames != []
    then profile.modelProviders[0].requiredSecretNames[0] else ""
  }

  function Redeploys(profile: Profile): bool {
    profile.modelProviders != [] && profile.modelProviders[0].customProviderApiKeyEnv.Some?
  }

  function NextCall(profile: Profile, settings: Settings, pc: Pc): Call {
    match pc
    case AskStatus => GetStatus
    case AskVariables => ListVariables
    case AskMint(_) => Mint(SecretName(profile))
    case AskWrite(_, key, _) => Write(SecretName(profile), key, Redeploys(profile))
    case HealthCheck(_, _, _) => CheckHealth
    case HealthSleep(_, _, _) => Sleep(settings.pollSeconds * 1000)
    case AskRun(payload, _) => RunSetup(payload)
    case AskStatusAgain(_) => GetStatus
    case _ => ReadClock
  }

  /** After the provider is settled: map the channels, then wait if a redeploy was triggered. */
  function WithProvider(profile: Profile, vars: map<string, string>, secret: Option<Value>,
                        minted: Option<string>, redeployed: bool): Pc
  {
    var fields := ChannelFields(profile, vars);
    if fields.None? then Halted(Error)
    else if redeployed then HealthStart(Payload(secret, fields.value), minted)
    else AskRun(Payload(secret, fields.value), minted)
  }

  function Advance(profile: Profile, settings: Settings, pc: Pc, reply: Reply): Pc {
    match pc
    case AskStatus =>
      if reply.Failed? then Halted(Error)
      else if reply == Configured(true) then Halted(AlreadyConfigured)
      else AskVariables
    case AskVariables =>
      if !reply.Variables? then Halted(Error)
      else (match Resolve(profile, reply.vars)
            case Reject => Halted(Error)
            case Ready(secret) => WithProvider(profile, reply.vars, secret, None, false)
            case NeedsMint(_, _) => AskMint(reply.vars))
    case AskMint(vars) => if reply.Minted? then AskWrite(vars, reply.key, reply.hash) else Halted(Error)
    case AskWrite(vars, key, hash) =>
      if reply.Failed? then Halted(Error)
      else WithProvider(profile, vars, Some(Text(key)), Some(hash), Redeploys(profile))
    case HealthStart(p, m) => if reply.Time? then HealthCheck(p, m, reply.t + settings.timeoutSeconds * 1000) else Stuck
    case HealthCheck(p, m, d) =>
      if reply.Failed? then Halted(Error)
      else if reply == Health(true) then AskRun(p, m)
      else HealthClock(p, m, d)
    case HealthClock(p, m, d) => if reply.Time? && reply.t < d then HealthSleep(p, m, d) else Halted(Error)
    case HealthSleep(p, m, d) => HealthCheck(p, m, d)
    case AskRun(_, m) => if reply.Done? then AskStatusAgain(m) else Halted(Error)
    case AskStatusAgain(m) => if reply == Configured(true) then Halted(Applied(m)) else Halted(Error)
    case _ => Stuck
  }

  function Step(profile: Profile, settings: Settings, pc: Pc, e: Event): Pc {
    if !pc.Halted? && e.call == NextCall(profile, settings, pc) && Fits(e.call, e.reply) && (e.landed ==> e.call.Write?)
    then Advance(profile, settings, pc, e.reply)
    else Stuck
  }

  function Run(profile: Profile, settings: Settings, t: seq<Event>): Pc {
    if t == [] then AskStatus
    else Step(profile, settings, Run(profile, settings, t[..|t| - 1]), t[|t| - 1])
  }

  lemma RunSnoc(profile: Profile, settings: Settings, t: seq<Event>, e: Event)
    ensures Run(profile, settings, t + [e]) == Step(profile, settings, Run(profile, settings, t), e)
  {
    assert (t + [e])[..|t|] == t;
  }

  // ---------- the program ----------

  /** A landed write persists: every later listing of the variables shows its name. */
  ghost predicate Persistent(t: seq<Event>) {
    forall i, k :: 0 <= i < k < |t| && t[i].landed && t[i].call.Write? && t[k].call.ListVariables? && t[k].reply.Variables?
      ==> t[i].call.name in t[k].reply.vars
  }

  /** What a trace says about the clock: the least time it can now be. */
  function Earliest(t: seq<Event>): Option<int> {
    if t == [] then None
    else
      var before := Earliest(t[..|t| - 1]);
      match t[|t| - 1]
      case Event(ReadClock, Time(now), _) => Some(now)
      case Event(Sleep(ms), _, _) => if before.Some? then Some(before.value + ms) else None
      case _ => before
  }

  /** No clock reading contradicts the readings and sleeps before it. */
  predicate ClockLaw(t: seq<Event>) {
    t == [] ||
    var before := Earliest(t[..|t| - 1]);
    && ClockLaw(t[..|t| - 1])
    && match t[|t| - 1]
       case Event(ReadClock, Time(now), _) => before.Some? ==> before.value <= now
       case _ => true
  }

  /** The instance, its platform and the key service.  Each may fail or answer anything at
      any time, a failed write may have landed, and others may set variables; but nobody
      removes one. */
  class World {
    ghost var trace: seq<Event>
    var vars: map<string, string>
    var now: int

    ghost predicate Valid()
      reads this
    {
      && Persistent(trace)
      && ClockLaw(trace) && (Earliest(trace).Some? ==> Earliest(trace).value <= now)
      && forall i :: 0 <= i < |trace| && trace[i].landed && trace[i].call.Write? ==> trace[i].call.name in vars
    }

    constructor (vars: map<string, string>, start: int)
      ensures Valid() && trace == []
    {
      trace := [];
      this.vars := vars;
      now := start;
    }

    method Invoke(call: Call) returns (reply: Reply, ghost landed: bool)
      requires Valid()
      modifies this
      ensures Valid()
      ensures trace == old(trace) + [Event(call, reply, landed)] && Fits(call, reply) && (landed ==> call.Write?)
      ensures now >= old(now) + if call.Sleep? then call.ms else 0
      ensures call.ReadClock? ==> reply.t == now
    {
      var elapsed: int := *;
      now := now + (if elapsed > 0 then elapsed else 0) + (if call.Sleep? then call.ms else 0);
      var others: map<string, string> := *;
      vars := vars + others;
      var answer: Reply, fails: bool, lands: bool := *, *, *;
      reply := Answer(call, answer, fails, vars, now);
      landed := call.Write? && lands;
      if call.Write? && lands {
        vars := vars[call.name := call.value];
      }
      trace := trace + [Event(call, reply, landed)];
      assert trace[..|trace| - 1] == old(trace);
    }
  }

  function Answer(call: Call, answer: Reply, fails: bool, vars: map<string, string>, now: int): (reply: Reply)
    ensures Fits(call, reply) && (call.ReadClock? ==> reply == Time(now))
    ensures call.ListVariables? && reply.Variables? ==> reply.vars == vars
  {
    if call.ReadClock? then Time(now)
    else if call.Sleep? then Reply.Done
    else if call.ListVariables? then (if fails then Failed else Variables(vars))
    else if Fits(call, answer) then answer
    else Failed
  }

  /** One call of the run and the state it leads to. */
  method Ask(world: World, call: Call, profile: Profile, settings: Settings, ghost base: seq<Event>, ghost seen: seq<Event>)
    returns (reply: Reply, ghost seen': seq<Event>)
    requires world.Valid() && world.trace == base + seen
    modifies world
    ensures world.Valid() && world.trace == base + seen' && Fits(call, reply)
    ensures exists landed :: (landed ==> call.Write?) &&
              Run(profile, settings, seen') == Step(profile, settings, Run(profile, settings, seen), Event(call, reply, landed))
    ensures world.now >= old(world.now) + if call.Sleep? then call.ms else 0
    ensures call.ReadClock? ==> reply.t == world.now
  {
    ghost var landed;
    reply, landed := world.Invoke(call);
    seen' := seen + [Event(call, reply, landed)];
    RunSnoc(profile, settings, seen, Event(call, reply, landed));
    assert base + seen + [Event(call, reply, landed)] == base + seen';
  }

  /** waitForHealthy. */
  method WaitForHealthy(world: World, profile: Profile, settings: Settings, ghost payload: Payload, ghost minted: Option<string>,
                        ghost base: seq<Event>, ghost before: seq<Event>)
    returns (ok: bool, ghost seen: seq<Event>)
    requires world.Valid() && world.trace == base + before && settings.pollSeconds >= 1
    requires Run(profile, settings, before) == HealthStart(payload, minted)
    modifies world
    ensures world.Valid() && world.trace == base + seen
    ensures Run(profile, settings, seen) == if ok then AskRun(payload, minted) else Halted(Error)
  {
    var clock, verdict, slept;
    clock, seen := Ask(world, ReadClock, profile, settings, base, before);
    var deadline := clock.t + settings.timeoutSeconds * 1000;
    while true
      invariant world.Valid() && world.trace == base + seen
      invariant Run(profile, settings, seen) == HealthCheck(payload, minted, deadline)
      decreases deadline - world.now
    {
      verdict, seen := AskHealth(world, profile, settings, payload, minted, deadline, base, seen);
      if verdict.Some? {
        return verdict.value, seen;
      }
      slept, seen := Ask(world, Sleep(settings.pollSeconds * 1000), profile, settings, base, seen);
    }
  }

  /** One check and, if it is not ok, the look at the deadline; None means sleep and ask again. */
  method AskHealth(world: World, profile: Profile, settings: Settings, ghost payload: Payload, ghost minted: Option<string>,
                   deadline: int, ghost base: seq<Event>, ghost before: seq<Event>)
    returns (verdict: Option<bool>, ghost seen: seq<Event>)
    requires world.Valid() && world.trace == base + before
    requires Run(profile, settings, before) == HealthCheck(payload, minted, deadline)
    modifies world
    ensures world.Valid() && world.trace == base + seen && world.now >= old(world.now)
    ensures verdict.None? ==> world.now < deadline && Run(profile, settings, seen) == HealthSleep(payload, minted, deadline)
    ensures verdict.Some? ==>
              Run(profile, settings, seen) == if verdict.value then AskRun(payload, minted) else Halted(Error)
  {
    var response, clock;
    response, seen := Ask(world, CheckHealth, profile, settings, base, before);
    if response.Failed? {
      return Some(false), seen;
    }
    if response.ok {
      return Some(true), seen;
    }
    clock, seen := Ask(world, ReadClock, profile, settings, base, seen);
    if clock.t >= deadline {
      return Some(false), seen;
    }
    return None, seen;
  }

  /** The channel fields, the wait for a redeploy and the setup run. */
  method FinishApply(world: World, profile: Profile, settings: Settings, existingVars: map<string, string>,
                     secret: Option<Value>, mintedKeyHash: Option<string>, redeployTriggered: bool,
                     ghost base: seq<Event>, ghost before: seq<Event>)
    returns (outcome: Outcome, ghost seen: seq<Event>)
    requires world.Valid() && world.trace == base + before && settings.pollSeconds >= 1
    requires Run(profile, settings, before) == WithProvider(profile, existingVars, secret, mintedKeyHash, redeployTriggered)
    modifies world
    ensures world.Valid() && world.trace == base + seen
    ensures Run(profile, settings, seen) == Halted(outcome)
  {
    seen := before;
    var fields := ResolveChannels(profile, existingVars);
    if fields.None? {
      return Error, seen;
    }
    var payload := Payload(secret, fields.value);
    if redeployTriggered {
      var healthy;
      healthy, seen := WaitForHealthy(world, profile, settings, payload, mintedKeyHash, base, seen);
      if !healthy {
        return Error, seen;
      }
    }
    outcome, seen := RunAndCheck(world, profile, settings, payload, mintedKeyHash, base, seen);
  }

  method RunAndCheck(world: World, profile: Profile, settings: Settings, payload: Payload, mintedKeyHash: Option<string>,
                     ghost base: seq<Event>, ghost before: seq<Event>)
    returns (outcome: Outcome, ghost seen: seq<Event>)
    requires world.Valid() && world.trace == base + before
    requires Run(profile, settings, before) == AskRun(payload, mintedKeyHash)
    modifies world
    ensures world.Valid() && world.trace == base + seen
    ensures Run(profile, settings, seen) == Halted(outcome)
  {
    var ran, status;
    ran, seen := Ask(world, RunSetup(payload), profile, settings, base, before);
    if ran.Failed? {
      return Error, seen;
    }
    status, seen := Ask(world, GetStatus, profile, settings, base, seen);
    if status.Failed? || !status.yes {
      return Error, seen;
    }
    return Applied(mintedKeyHash), seen;
  }

  method ResolveChannels(profile: Profile, existingVars: map<string, string>) returns (fields: Option<map<Field, Value>>)
    ensures fields == ChannelFields(profile, existingVars)
  {
    var mappings := MapChannels(profile.channels);
    if mappings.None? {
      return None;
    }
    var resolved: map<Field, Value> := map[];
    for i := 0 to |mappings.value|
      invariant Fill(mappings.value[..i], existingVars) == Some(resolved)
    {
      assert mappings.value[..i + 1][..i] == mappings.value[..i];
      var value := LookUp(existingVars, mappings.value[i].secretName);
      if value.None? {
        FillStops(mappings.value, i + 1, existingVars);
        return None;
      }
      resolved := resolved[mappings.value[i].field := value.value];
    }
    assert mappings.value[..|mappings.value|] == mappings.value;
    return Some(resolved);
  }

  lemma {:induction false} FillStops(mappings: seq<Mapping>, n: nat, vars: map<string, string>)
    requires n <= |mappings| && Fill(mappings[..n], vars).None?
    ensures Fill(mappings, vars).None?
    decreases |mappings| - n
  {
    if n == |mappings| {
      assert mappings[..n] == mappings;
    } else {
      assert mappings[..n + 1][..n] == mappings[..n];
      FillStops(mappings, n + 1, vars);
    }
  }

  /** resolveProviderSecret, for a secret that is not there yet. */
  method MintAndWrite(world: World, profile: Profile, settings: Settings, existingVars: map<string, string>,
                      ghost base: seq<Event>, ghost before: seq<Event>)
    returns (key: Option<(string, string)>, ghost seen: seq<Event>)
    requires world.Valid() && world.trace == base + before
    requires Run(profile, settings, before) == AskMint(existingVars)
    modifies world
    ensures world.Valid() && world.trace == base + seen
    ensures Run(profile, settings, seen) ==
            if key.None? then Halted(Error)
            else WithProvider(profile, existingVars, Some(Text(key.value.0)), Some(key.value.1), Redeploys(profile))
  {
    var minted, written;
    var secretName := SecretName(profile);
    minted, seen := Ask(world, Mint(secretName), profile, settings, base, before);
    if minted.Failed? {
      return None, seen;
    }
    written, seen := Ask(world, Write(secretName, minted.key, Redeploys(profile)), profile, settings, base, seen);
    if written.Failed? {
      return None, seen;
    }
    return Some((minted.key, minted.hash)), seen;
  }

  /** applyProfile. */
  method ApplyProfile(world: World, profile: Profile, settings: Settings) returns (outcome: Outcome, ghost seen: seq<Event>)
    requires world.Valid() && settings.pollSeconds >= 1
    modifies world
    ensures world.Valid() && world.trace == old(world.trace) + seen
    ensures Run(profile, settings, seen) == Halted(outcome)
  {
    ghost var base := world.trace;
    assert base == base + [];
    var status, listed;
    status, seen := Ask(world, GetStatus, profile, settings, base, []);
    if status.Failed? {
      return Error, seen;
    }
    if status.yes {
      return AlreadyConfigured, seen;
    }
    listed, seen := Ask(world, ListVariables, profile, settings, base, seen);
    if listed.Failed? {
      return Error, seen;
    }
    outcome, seen := ApplyWith(world, profile, settings, listed.vars, base, seen);
  }

  method ApplyWith(world: World, profile: Profile, settings: Settings, existingVars: map<string, string>,
                   ghost base: seq<Event>, ghost before: seq<Event>)
    returns (outcome: Outcome, ghost seen: seq<Event>)
    requires world.Valid() && world.trace == base + before && settings.pollSeconds >= 1
    requires Run(profile, settings, before) ==
             match Resolve(profile, existingVars)
             case Reject => Halted(Error)
             case Ready(secret) => WithProvider(profile, existingVars, secret, None, false)
             case NeedsMint(_, _) => AskMint(existingVars)
    modifies world
    ensures world.Valid() && world.trace == base + seen
    ensures Run(profile, settings, seen) == Halted(outcome)
  {
    seen := before;
    if |profile.modelProviders| > 1 {
      return Error, seen;
    }
    if |profile.modelProviders| == 0 {
      outcome, seen := FinishApply(world, profile, settings, existingVars, None, None, false, base, seen);
      return;
    }
    var provider := profile.modelProviders[0];
    if |provider.requiredSecretNames| == 0 {
      return Error, seen;
    }
    var existing := LookUp(existingVars, provider.requiredSecretNames[0]);
    if existing.Some? {
      outcome, seen := FinishApply(world, profile, settings, existingVars, existing, None, false, base, seen);
      return;
    }
    if !provider.keyProvisioning {
      return Error, seen;
    }
    var key;
    key, seen := MintAndWrite(world, profile, settings, existingVars, base, seen);
    if key.None? {
      return Error, seen;
    }
    outcome, seen := FinishApply(world, profile, settings, existingVars, Some(Text(key.value.0)), Some(key.value.1),
                                 provider.customProviderApiKeyEnv.Some?, base, seen);
  }
}
