/** Profiles, the channel mapping shared by apply and dry run, and the dry run. */
module Channels {
  import opened Options

  datatype Channel = Channel(kind: string, requiredSecretNames: seq<string>)

  datatype Provider = Provider(
    authChoice: string, flow: string, requiredSecretNames: seq<string>,
    keyProvisioning: bool, customProviderApiKeyEnv: Option<string>)

  datatype Profile = Profile(modelProviders: seq<Provider>, channels: seq<Channel>)

  datatype Field = TelegramToken | DiscordToken | SlackBotToken | SlackAppToken

  datatype Mapping = Mapping(field: Field, secretName: string)

  /** What every parsed JSON object inherits: a lookup by such a name is never undefined. */
  const PROTOTYPE: set<string> := {
    "constructor", "hasOwnProperty", "isPrototypeOf", "propertyIsEnumerable", "toLocaleString", "toString",
    "valueOf", "__proto__", "__defineGetter__", "__defineSetter__", "__lookupGetter__", "__lookupSetter__"}

  /** `vars[name] !== undefined`. */
  predicate Found(vars: map<string, string>, name: string) {
    name in vars || name in PROTOTYPE
  }

  function SecretCount(kind: string): Option<nat> {
    if kind == "telegram" || kind == "discord" then Some(1)
    else if kind == "slack" then Some(2)
    else None
  }

  /** What the flat payload can represent: supported types, each once, with exactly the
      secrets its fields need. */
  predicate Representable(channels: seq<Channel>) {
    && (forall i :: 0 <= i < |channels| ==>
          SecretCount(channels[i].kind) == Some(|channels[i].requiredSecretNames|))
    && (forall i, j :: 0 <= i < j < |channels| ==> channels[i].kind != channels[j].kind)
  }

  function FieldsOf(channel: Channel): seq<Mapping>
    requires SecretCount(channel.kind) == Some(|channel.requiredSecretNames|)
  {
    var names := channel.requiredSecretNames;
    if channel.kind == "slack" then [Mapping(SlackBotToken, names[0]), Mapping(SlackAppToken, names[1])]
    else [Mapping(if channel.kind == "telegram" then TelegramToken else DiscordToken, names[0])]
  }

  /** In full: only these three types, each at most once, slack with two secrets and the
      others with one. */
  lemma RepresentableExactly(channels: seq<Channel>)
    ensures Representable(channels) <==>
            && (forall i :: 0 <= i < |channels| ==>
                  || (channels[i].kind in {"telegram", "discord"} && |channels[i].requiredSecretNames| == 1)
                  || (channels[i].kind == "slack" && |channels[i].requiredSecretNames| == 2))
            && (forall i, j :: 0 <= i < j < |channels| ==> channels[i].kind != channels[j].kind)
  {
  }

  function Mappings(channels: seq<Channel>): seq<Mapping>
    requires Representable(channels)
  {
    if channels == [] then []
    else Mappings(channels[..|channels| - 1]) + FieldsOf(channels[|channels| - 1])
  }

  /** The channel type a field belongs to. */
  function KindOf(field: Field): string {
    match field case TelegramToken => "telegram" case DiscordToken => "discord" case _ => "slack"
  }

  ghost predicate HasKind(channels: seq<Channel>, kind: string) {
    exists i :: 0 <= i < |channels| && channels[i].kind == kind
  }

  ghost predicate DistinctFields(mappings: seq<Mapping>) {
    forall i, j :: 0 <= i < j < |mappings| ==> mappings[i].field != mappings[j].field
  }

  lemma {:induction false} MappingsByKind(channels: seq<Channel>)
    requires Representable(channels)
    ensures forall m :: m in Mappings(channels) ==> HasKind(channels, KindOf(m.field))
  {
    if channels != [] {
      var init, last := channels[..|channels| - 1], channels[|channels| - 1];
      MappingsByKind(init);
      assert forall kind :: HasKind(init, kind) ==> HasKind(channels, kind);
      assert HasKind(channels, last.kind);
    }
  }

  lemma {:induction false} FieldsAreDistinct(channels: seq<Channel>)
    requires Representable(channels)
    ensures DistinctFields(Mappings(channels))
  {
    if channels != [] {
      var init, last := channels[..|channels| - 1], channels[|channels| - 1];
      FieldsAreDistinct(init);
      MappingsByKind(init);
      assert !HasKind(init, last.kind);
    }
  }

  /** Which channel fills the field, and with which of its secrets. */
  predicate Fills(channel: Channel, field: Field, name: string) {
    match field
    case TelegramToken => channel.kind == "telegram" && channel.requiredSecretNames == [name]
    case DiscordToken => channel.kind == "discord" && channel.requiredSecretNames == [name]
    case SlackBotToken =>
      channel.kind == "slack" && |channel.requiredSecretNames| == 2 && channel.requiredSecretNames[0] == name
    case SlackAppToken =>
      channel.kind == "slack" && |channel.requiredSecretNames| == 2 && channel.requiredSecretNames[1] == name
  }

  ghost predicate Filled(channels: seq<Channel>, field: Field, name: string) {
    exists i :: 0 <= i < |channels| && Fills(channels[i], field, name)
  }

  /** A field gets a secret if and only if a channel of the list fills it so: slack's first
      secret is the bot token and its second the app token, telegram and discord have one. */
  lemma {:induction false} MappingsExactly(channels: seq<Channel>, m: Mapping)
    requires Representable(channels)
    ensures m in Mappings(channels) <==> Filled(channels, m.field, m.secretName)
  {
    if channels != [] {
      var init, last := channels[..|channels| - 1], channels[|channels| - 1];
      MappingsExactly(init, m);
      OneChannel(last, m);
      assert m in Mappings(channels) <==> m in Mappings(init) || m in FieldsOf(last);
      assert forall i :: 0 <= i < |init| ==> init[i] == channels[i];
      if Fills(last, m.field, m.secretName) {
        assert Fills(channels[|channels| - 1], m.field, m.secretName);
      }
    }
  }

  lemma OneChannel(channel: Channel, m: Mapping)
    requires SecretCount(channel.kind) == Some(|channel.requiredSecretNames|)
    ensures m in FieldsOf(channel) <==> Fills(channel, m.field, m.secretName)
  {
  }

  lemma RepresentableSnoc(channels: seq<Channel>, i: nat)
    requires i < |channels|
    ensures Representable(channels[..i + 1]) <==>
            && Representable(channels[..i])
            && SecretCount(channels[i].kind) == Some(|channels[i].requiredSecretNames|)
            && !HasKind(channels[..i], channels[i].kind)
    ensures Representable(channels) ==> Representable(channels[..i + 1])
    ensures Representable(channels[..i + 1]) ==>
              Mappings(channels[..i + 1]) == Mappings(channels[..i]) + FieldsOf(channels[i])
  {
    var longer := channels[..i + 1];
    assert longer[..i] == channels[..i] && longer[i] == channels[i];
    assert forall k :: 0 <= k < i ==> longer[k] == channels[..i][k];
  }

  /** mapChannelsToPayloadFields: accepts exactly the representable lists, and fills
      pairwise different fields. */
  method MapChannels(channels: seq<Channel>) returns (result: Option<seq<Mapping>>)
    ensures result.Some? <==> Representable(channels)
    ensures result.Some? ==> result.value == Mappings(channels)
    ensures result.Some? ==> DistinctFields(result.value)
  {
    var seenTypes: set<string> := {};
    var mappings: seq<Mapping> := [];
    for i := 0 to |channels|
      invariant forall kind :: kind in seenTypes <==> HasKind(channels[..i], kind)
      invariant Representable(channels[..i]) && mappings == Mappings(channels[..i])
    {
      RepresentableSnoc(channels, i);
      var channel := channels[i];
      var expectedCount := SecretCount(channel.kind);
      if expectedCount.None? {
        return None;
      }
      if channel.kind in seenTypes {
        return None;
      }
      seenTypes := seenTypes + {channel.kind};
      if |channel.requiredSecretNames| != expectedCount.value {
        return None;
      }
      KindsSnoc(channels, i);
      var added := PushFields(channel);
      mappings := mappings + added;
    }
    assert channels[..|channels|] == channels;
    FieldsAreDistinct(channels);
    return Some(mappings);
  }

  method PushFields(channel: Channel) returns (added: seq<Mapping>)
    requires SecretCount(channel.kind) == Some(|channel.requiredSecretNames|)
    ensures added == FieldsOf(channel)
  {
    if channel.kind == "slack" {
      var botToken, appToken := channel.requiredSecretNames[0], channel.requiredSecretNames[1];
      added := [Mapping(SlackBotToken, botToken)];
      added := added + [Mapping(SlackAppToken, appToken)];
    } else {
      var field := if channel.kind == "telegram" then TelegramToken else DiscordToken;
      added := [Mapping(field, channel.requiredSecretNames[0])];
    }
  }

  lemma KindsSnoc(channels: seq<Channel>, i: nat)
    requires i < |channels|
    ensures forall kind :: HasKind(channels[..i + 1], kind) <==> HasKind(channels[..i], kind) || kind == channels[i].kind
  {
    var longer := channels[..i + 1];
    assert forall k :: 0 <= k < i ==> longer[k] == channels[..i][k];
    assert longer[i] == channels[i];
  }

  function FieldSet(mappings: seq<Mapping>): set<Field> {
    set m | m in mappings :: m.field
  }

  // ---------- dry run ----------

  /** The secret names a profile requires. */
  ghost function Required(profile: Profile): set<string> {
    (set p, n | p in profile.modelProviders && n in p.requiredSecretNames :: n)
    + (set c, n | c in profile.channels && n in c.requiredSecretNames :: n)
  }

  /** The dry run lists the name as a required secret that is not there. */
  ghost predicate ReportedAbsent(profile: Profile, vars: map<string, string>, name: string) {
    name in Required(profile) && name !in vars
  }

  datatype SecretStatus = SecretStatus(name: string, present: bool)

  datatype DryRun = DryRun(requiredSecrets: seq<SecretStatus>, fields: set<Field>)

  ghost predicate DistinctNames(names: seq<string>) {
    forall i, j :: 0 <= i < j < |names| ==> names[i] != names[j]
  }

  method AddNames(known: seq<string>, extra: seq<string>) returns (names: seq<string>)
    requires DistinctNames(known)
    ensures DistinctNames(names)
    ensures forall n :: n in names <==> n in known || n in extra
  {
    names := known;
    for i := 0 to |extra|
      invariant DistinctNames(names)
      invariant forall n :: n in names <==> n in known || n in extra[..i]
    {
      if extra[i] !in names {
        names := names + [extra[i]];
      }
      assert extra[..i + 1] == extra[..i] + [extra[i]];
    }
    assert extra[..|extra|] == extra;
  }

  /** collectRequiredSecretNames: each required name once. */
  method CollectRequiredSecretNames(profile: Profile) returns (names: seq<string>)
    ensures DistinctNames(names) && forall n :: n in names <==> n in Required(profile)
  {
    names := [];
    var providers, channels := profile.modelProviders, profile.channels;
    for i := 0 to |providers|
      invariant DistinctNames(names)
      invariant forall n :: n in names <==> exists k :: 0 <= k < i && n in providers[k].requiredSecretNames
    {
      names := AddNames(names, providers[i].requiredSecretNames);
    }
    for i := 0 to |channels|
      invariant DistinctNames(names)
      invariant forall n :: n in names <==>
                  || (exists k :: 0 <= k < |providers| && n in providers[k].requiredSecretNames)
                  || (exists k :: 0 <= k < i && n in channels[k].requiredSecretNames)
    {
      names := AddNames(names, channels[i].requiredSecretNames);
    }
  }

  /** dryRunApplyProfile after the read of the variables: None is the thrown error. */
  method DryRunApplyProfile(profile: Profile, vars: map<string, string>) returns (result: Option<DryRun>)
    ensures result.Some? <==> Representable(profile.channels)
    ensures result.Some? ==>
              && result.value.fields == FieldSet(Mappings(profile.channels))
              && (forall s :: s in result.value.requiredSecrets ==> s.name in Required(profile) && s.present == (s.name in vars))
              && (forall n :: n in Required(profile) ==> SecretStatus(n, n in vars) in result.value.requiredSecrets)
              && (forall n :: SecretStatus(n, false) in result.value.requiredSecrets <==> ReportedAbsent(profile, vars, n))
  {
    var names := CollectRequiredSecretNames(profile);
    var secrets := seq(|names|, i requires 0 <= i < |names| => SecretStatus(names[i], names[i] in vars));
    var mapped := MapChannels(profile.channels);
    if mapped.None? {
      return None;
    }
    forall n | n in Required(profile) ensures SecretStatus(n, n in vars) in secrets {
      assert n in names;
      var i :| 0 <= i < |names| && names[i] == n;
      assert secrets[i] == SecretStatus(n, n in vars);
    }
    return Some(DryRun(secrets, FieldSet(mapped.value)));
  }
}
