/** One whole onboarding cycle: the first origin attempt during provisioning, applying the
    profile, and the second attempt once a baseline exists. */
module Onboarding {
  import opened Options
  import opened AllowedOrigins

  /** How many posts a trace holds. */
  function Posts(t: seq<Event>): nat {
    if t == [] then 0 else Posts(t[..|t| - 1]) + if t[|t| - 1].PostedConfig? then 1 else 0
  }

  lemma {:induction false} PostsConcat(a: seq<Event>, b: seq<Event>)
    ensures Posts(a + b) == Posts(a) + Posts(b)
  {
    if b == [] {
      assert a + b == a;
    } else {
      PostsConcat(a, b[..|b| - 1]);
      assert (a + b)[..|a + b| - 1] == a + b[..|b| - 1];
    }
  }

  /** Every post follows directly on a read of a document that has a baseline mode. */
  ghost predicate OnlyOverBaseline(t: seq<Event>) {
    forall k :: 0 <= k < |t| && t[k].PostedConfig? ==>
      k >= 1 && t[k - 1].GotConfig? && t[k - 1].doc.Some? && HasBaseline(t[k - 1].doc.value)
  }

  /** What a setup run is assumed to do: it leaves a baseline and drops no origin. */
  ghost predicate Establishes(before: Json, after: Json) {
    HasBaseline(after) && forall o :: o in OriginsIn(before) ==> o in OriginsIn(after)
  }

  lemma PostsOfRun(t: seq<Event>, doc: Json, origin: string, result: Option<Status>)
    requires FaithfulRun(t, doc, origin, result)
    ensures Posts(t) == if result == Some(Patched) then 1 else 0
    ensures OnlyOverBaseline(t)
    ensures result.Some? && result.value != Refused ==> JString(origin) in OriginsIn(AfterRun(doc, origin))
  {
    if Decide(doc, origin).Post? {
      PostChangesOneList(doc, origin, []);
      assert |t| == 3 && t[..2][..1] == t[..1] && t[..1][..0] == [];
      assert Posts(t[..1]) == 0 && Posts(t[..2]) == 1;
    } else {
      assert t[..0] == [];
    }
  }

  /** Over a whole cycle on a faithful store: at most one post, never before the baseline
      exists, and the last attempt ends "patched" or "already present" with the origin in
      the list. */
  lemma CyclePostsAtMostOnce(first: seq<Event>, second: seq<Event>, doc: Json, applied: Json, origin: string,
                             r1: Option<Status>, r2: Option<Status>)
    requires FaithfulRun(first, doc, origin, r1) && r1.Some?
    requires (applied == AfterRun(doc, origin) && HasBaseline(applied)) || Establishes(AfterRun(doc, origin), applied)
    requires FaithfulRun(second, applied, origin, r2)
    ensures Posts(first + second) <= 1 && OnlyOverBaseline(first + second)
    ensures r2 == Some(Patched) || r2 == Some(Present)
    ensures r1 == Some(Patched) || r1 == Some(Present) ==> r2 == Some(Present)
    ensures JString(origin) in OriginsIn(AfterRun(applied, origin))
  {
    PostsOfRun(first, doc, origin, r1);
    PostsOfRun(second, applied, origin, r2);
    PostsConcat(first, second);
    assert applied.JObject?;
    if Decide(applied, origin).Post? {
      PostChangesOneList(applied, origin, []);
    }
  }

  /** The instance: its config store and whether it reports configured. */
  class Instance {
    const endpoint: ConfigEndpoint
    var configured: bool

    ghost predicate Valid()
      reads this, endpoint
    {
      endpoint.faithful && (configured ==> HasBaseline(endpoint.doc))
    }

    constructor (endpoint: ConfigEndpoint, configured: bool)
      requires endpoint.faithful && (configured ==> HasBaseline(endpoint.doc))
      ensures Valid() && this.endpoint == endpoint
    {
      this.endpoint := endpoint;
      this.configured := configured;
    }

    /** applyProfile as far as the config goes: nothing on a configured instance, else a
        setup run, failing before or after it has taken effect. */
    method Apply() returns (ok: bool)
      requires Valid()
      modifies this, endpoint
      ensures Valid() && endpoint.trace == old(endpoint.trace)
      ensures old(configured) ==> ok && endpoint.doc == old(endpoint.doc)
      ensures ok ==> configured
      ensures ok ==> || (endpoint.doc == old(endpoint.doc) && HasBaseline(endpoint.doc))
                     || Establishes(old(endpoint.doc), endpoint.doc)
    {
      if configured {
        return true;
      }
      var reaches: bool, next: Json, reports: bool := *, *, *;
      if !reaches || !SetsUp(endpoint.doc, next) {
        return false;
      }
      endpoint.doc := next;
      configured := true;
      return reports;
    }
  }

  predicate SetsUp(before: Json, after: Json)
    ensures SetsUp(before, after) ==> Establishes(before, after)
  {
    HasBaseline(after) && forall i :: 0 <= i < |OriginsIn(before)| ==> OriginsIn(before)[i] in OriginsIn(after)
  }

  /** bootstrapOnboardingCycle, its origin attempts and what lies between; None is an error,
      and there is none when the dry run and applying succeed on a config that is no primitive. */
  method BootstrapOnboardingCycle(instance: Instance, domain: string, dryRunSucceeds: bool)
    returns (status: Option<Status>, ghost seen: seq<Event>, ghost applied: bool)
    requires instance.Valid()
    modifies instance, instance.endpoint
    ensures instance.Valid() && instance.endpoint.trace == old(instance.endpoint.trace) + seen
    ensures Posts(seen) <= 1 && OnlyOverBaseline(seen)
    ensures status.Some? ==>
              && (status == Some(Patched) || status == Some(Present))
              && JString("https://" + domain) in OriginsIn(instance.endpoint.doc)
    ensures status.Some? <==>
              dryRunSucceeds && applied && (old(instance.endpoint.doc).JObject? || old(instance.endpoint.doc).JArray?)
    ensures applied ==> instance.configured
    ensures old(instance.configured) && dryRunSucceeds ==> applied
  {
    var origin := "https://" + domain;
    ghost var doc := instance.endpoint.doc;
    var provisioned;
    ghost var first, second;
    KeepsBaseline(doc, origin);
    provisioned, first := PatchAllowedOrigins(instance.endpoint, domain);
    PostsOfRun(first, doc, origin, provisioned);
    if provisioned.None? || !dryRunSucceeds {
      return None, first, false;
    }
    var ok := instance.Apply();
    applied := ok;
    if !ok {
      return None, first, false;
    }
    ghost var ready := instance.endpoint.doc;
    KeepsBaseline(ready, origin);
    status, second := PatchAllowedOrigins(instance.endpoint, domain);
    CyclePostsAtMostOnce(first, second, doc, ready, origin, provisioned, status);
    seen := first + second;
  }

  lemma KeepsBaseline(doc: Json, origin: string)
    ensures HasBaseline(doc) ==> HasBaseline(AfterRun(doc, origin))
  {
    if Decide(doc, origin).Post? {
      PostChangesOneList(doc, origin, []);
    }
  }
}
