/** The recurring key check: mint a fresh key, write it, look at the instance, and always
    try to delete the key again, whatever happened in between. */
module RegressionCheck {
  import opened Options
  import opened Channels

  datatype Call = Mint(name: string) | Write(name: string, value: string) | GetStatus | GetHealth | Delete(hash: string)

  datatype Reply = Failed | Done | Minted(key: string, hash: string) | Configured(yes: bool) | Status(code: int)

  /** `landed`: a mint made a key, or a deletion removed one, whatever its call reported. */
  datatype Event = Event(call: Call, reply: Reply, landed: bool)

  predicate Fits(call: Call, reply: Reply) {
    match call
    case Mint(_) => reply.Minted? || reply.Failed?
    case Write(_, _) => reply.Done? || reply.Failed?
    case GetStatus => reply.Configured? || reply.Failed?
    case GetHealth => reply.Status? || reply.Failed?
    case Delete(_) => reply.Done? || reply.Failed?
  }

  /** The key service, the platform and the instance.  Each call may fail or answer
      anything, and a call reported as failed may have taken effect.  `live` holds the
      hashes of the keys there are; a minted key is new. */
  class Services {
    ghost var trace: seq<Event>
    var live: set<string>

    constructor ()
      ensures trace == [] && live == {}
    {
      trace := [];
      live := {};
    }

    method Invoke(call: Call) returns (reply: Reply, ghost landed: bool)
      modifies this
      ensures trace == old(trace) + [Event(call, reply, landed)] && Fits(call, reply)
      ensures reply.Minted? || (call.Delete? && reply.Done?) ==> landed
      ensures landed ==> call.Mint? || call.Delete?
      ensures reply.Minted? ==> reply.hash !in old(live) && live == old(live) + {reply.hash}
      ensures call.Mint? && reply.Failed? && landed ==> exists h :: h !in old(live) && live == old(live) + {h}
      ensures call.Delete? && landed ==> live == old(live) - {call.hash}
      ensures !landed ==> live == old(live)
    {
      var answer: Reply, effect: bool, hash: string := *, *, *;
      reply := if Fits(call, answer) && !(answer.Minted? && answer.hash in live) then answer else Failed;
      landed := false;
      if reply.Minted? {
        live, landed := live + {reply.hash}, true;
      } else if call.Mint? && effect && hash !in live {
        live, landed := live + {hash}, true;
      } else if call.Delete? && (reply.Done? || effect) {
        live, landed := live - {call.hash}, true;
      }
      trace := trace + [Event(call, reply, landed)];
    }
  }

  datatype Result = Result(
    passed: bool, statusConfigured: Option<bool>, healthzStatus: Option<int>, failed: bool,
    mintedKeyHash: string, keyDeleted: bool)

  /** A profile the check can run for: one provider, with a secret and a managed key. */
  predicate Checkable(profile: Profile) {
    && |profile.modelProviders| == 1
    && profile.modelProviders[0].requiredSecretNames != []
    && profile.modelProviders[0].keyProvisioning
  }

  /** The part inside try: what was learned before it ended or threw. */
  method Verify(services: Services, secretName: string, key: string)
    returns (passed: bool, statusConfigured: Option<bool>, healthzStatus: Option<int>, ghost seen: seq<Event>)
    modifies services
    ensures services.trace == old(services.trace) + seen && services.live == old(services.live)
    ensures seen != [] && seen[0].call == Write(secretName, key) && forall e :: e in seen ==> !e.call.Delete? && !e.call.Mint?
    ensures passed <==>
              && |seen| == 3 && seen[0].reply == Done
              && seen[1].call == GetStatus && seen[1].reply == Configured(true)
              && seen[2].call == GetHealth && seen[2].reply == Status(200)
    ensures passed ==> statusConfigured == Some(true) && healthzStatus == Some(200)
    ensures |seen| <= 3 && (|seen| == 1 <==> seen[0].reply.Failed?)
    ensures |seen| >= 2 ==> (|seen| == 2 <==> seen[1].reply.Failed?)
    ensures |seen| >= 2 ==> seen[1].call == GetStatus
    ensures |seen| >= 3 ==> seen[2].call == GetHealth
    ensures statusConfigured == if |seen| >= 2 && seen[1].reply.Configured? then Some(seen[1].reply.yes) else None
    ensures healthzStatus == if |seen| >= 3 && seen[2].reply.Status? then Some(seen[2].reply.code) else None
  {
    statusConfigured, healthzStatus := None, None;
    ghost var landed;
    var written, status, health;
    written, landed := services.Invoke(Write(secretName, key));
    seen := [Event(Write(secretName, key), written, landed)];
    if written.Failed? {
      return false, None, None, seen;
    }
    status, landed := services.Invoke(GetStatus);
    seen := seen + [Event(GetStatus, status, landed)];
    if status.Failed? {
      return false, None, None, seen;
    }
    statusConfigured := Some(status.yes);
    health, landed := services.Invoke(GetHealth);
    seen := seen + [Event(GetHealth, health, landed)];
    if health.Failed? {
      return false, statusConfigured, None, seen;
    }
    healthzStatus := Some(health.code);
    passed := statusConfigured == Some(true) && healthzStatus == Some(200);
  }

  /** The result names the key and says that its deletion was not confirmed. */
  predicate Reports(result: Option<Result>, hash: string) {
    result.Some? && !result.value.keyDeleted && result.value.mintedKeyHash == hash
  }

  ghost predicate LeavesUnreported(before: set<string>, after: set<string>, result: Option<Result>) {
    exists h :: h in after && h !in before && !Reports(result, h)
  }

  /** The run ended with a mint that took effect although its call failed. */
  predicate LostMint(seen: seq<Event>) {
    |seen| == 1 && seen[0].call.Mint? && seen[0].reply.Failed? && seen[0].landed
  }

  /** runRegressionCheck; None stands for an error before the answer to a mint.  Once a
      minted key is known there is always a result, and its deletion is attempted exactly
      once and last; and a key that the result does not report is left if and only if the
      mint took effect but its answer was lost. */
  method RunRegressionCheck(services: Services, profile: Profile) returns (result: Option<Result>, ghost seen: seq<Event>)
    modifies services
    ensures services.trace == old(services.trace) + seen
    ensures result.None? <==> |seen| <= 1
    ensures seen == [] <==> !Checkable(profile)
    ensures |seen| == 1 ==>
              seen[0].call == Mint(profile.modelProviders[0].requiredSecretNames[0]) && seen[0].reply.Failed?
    ensures old(services.live) <= services.live
    ensures LeavesUnreported(old(services.live), services.live, result) <==> LostMint(seen)
    ensures result.Some? ==>
              var r := result.value;
              && r.mintedKeyHash !in old(services.live) && (r.keyDeleted ==> services.live == old(services.live))
              && |seen| >= 3 && seen[0].call == Mint(profile.modelProviders[0].requiredSecretNames[0])
              && seen[0].reply.Minted? && seen[0].reply.hash == r.mintedKeyHash
              && seen[1].call == Write(profile.modelProviders[0].requiredSecretNames[0], seen[0].reply.key)
              && |seen| == (if seen[1].reply.Failed? then 3 else if seen[2].reply.Failed? then 4 else 5)
              && (|seen| >= 4 ==> seen[2].call == GetStatus) && (|seen| == 5 ==> seen[3].call == GetHealth)
              && r.statusConfigured ==
                 (if |seen| >= 4 && seen[2].reply.Configured? then Some(seen[2].reply.yes) else None)
              && r.healthzStatus == (if |seen| == 5 && seen[3].reply.Status? then Some(seen[3].reply.code) else None)
              && seen[|seen| - 1].call == Delete(r.mintedKeyHash)
              && (forall i :: 0 <= i < |seen| - 1 ==> !seen[i].call.Delete?)
              && (r.keyDeleted <==> seen[|seen| - 1].reply == Done)
              && (r.passed ==> r.keyDeleted && r.statusConfigured == Some(true) && r.healthzStatus == Some(200))
              && (r.passed <==> r.keyDeleted && |seen| == 5 && seen[1].reply == Done
                                && seen[2].call == GetStatus && seen[2].reply == Configured(true)
                                && seen[3].call == GetHealth && seen[3].reply == Status(200))
              && (r.failed <==> !r.passed)
  {
    seen := [];
    if |profile.modelProviders| != 1 || |profile.modelProviders[0].requiredSecretNames| == 0
       || !profile.modelProviders[0].keyProvisioning {
      return None, seen;
    }
    var secretName := profile.modelProviders[0].requiredSecretNames[0];
    var minted, deleted;
    ghost var landed;
    minted, landed := services.Invoke(Mint(secretName));
    seen := [Event(Mint(secretName), minted, landed)];
    if minted.Failed? {
      return None, seen;
    }
    var passed, statusConfigured, healthzStatus;
    ghost var checked;
    passed, statusConfigured, healthzStatus, checked := Verify(services, secretName, minted.key);
    var failed := !passed;
    assert forall i :: 0 <= i < |checked| ==> checked[i] in checked;
    deleted, landed := services.Invoke(Delete(minted.hash));
    seen := seen + checked + [Event(Delete(minted.hash), deleted, landed)];
    var keyDeleted := deleted.Done?;
    if !keyDeleted {
      passed, failed := false, true;
    }
    return Some(Result(passed, statusConfigured, healthzStatus, failed, minted.hash, keyDeleted)), seen;
  }
}
