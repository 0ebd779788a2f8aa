/** Adding the instance's own origin to gateway.controlUi.allowedOrigins: read the whole
    config, change that one list, post the whole config, read it again. */
module AllowedOrigins {
  import opened Options
  import opened MergeEnv

  datatype Json =
    | JNull
    | JBool(b: bool)
    | JNumber(n: int)
    | JString(s: string)
    | JArray(elems: seq<Json>)
    | JObject(fields: map<string, Json>)

  /** The value at a path of object keys. */
  function At(j: Json, path: seq<string>): Option<Json>
    decreases |path|
  {
    if path == [] then Some(j)
    else if j.JObject? && path[0] in j.fields then At(j.fields[path[0]], path[1..])
    else None
  }

  const ORIGINS := ["gateway", "controlUi", "allowedOrigins"]
  const MODE := ["gateway", "mode"]

  /** `asRecord`: the object at a key, or a new empty one put there. */
  function RecordAt(parent: map<string, Json>, key: string): map<string, Json> {
    if key in parent && parent[key].JObject? then parent[key].fields else map[]
  }

  /** readAllowedOrigins: tolerant of any shape, never creates anything. */
  function OriginsIn(j: Json): seq<Json> {
    var origins := At(j, ORIGINS);
    if origins.Some? && origins.value.JArray? then origins.value.elems else []
  }

  /** A gateway.mode that is a string with something besides white space in it. */
  predicate HasBaseline(j: Json) {
    var mode := At(j, MODE);
    mode.Some? && mode.value.JString? && exists i :: 0 <= i < |mode.value.s| && !IsSpace(mode.value.s[i])
  }

  datatype Decision = AlreadyPresent | RefusedMissingBaseline | Post(doc: Json) | Broken

  /** What one attempt does with the document it read.  Broken is the TypeError of putting
      a property on null or on a primitive. */
  function Decide(read: Json, origin: string): Decision {
    if read.JArray? then RefusedMissingBaseline
    else if !read.JObject? then Broken
    else if JString(origin) in OriginsIn(read) then AlreadyPresent
    else if !HasBaseline(read) then RefusedMissingBaseline
    else
      var gateway := RecordAt(read.fields, "gateway");
      var controlUi := RecordAt(gateway, "controlUi");
      var controlUi' := controlUi["allowedOrigins" := JArray(OriginsIn(read) + [JString(origin)])];
      Post(JObject(read.fields["gateway" := JObject(gateway["controlUi" := JObject(controlUi')])]))
  }

  // ---------- the frame ----------

  /** The path neither leads into the list nor stops on the way to it. */
  predicate Outside(path: seq<string>) {
    !(ORIGINS <= path) && !(path <= ORIGINS)
  }

  /** A posted document is the one read, except for one list: every path that does not
      lead to it has the value it had, or none if it had none; the list is the list read
      with the origin behind it, once. */
  lemma PostChangesOneList(read: Json, origin: string, path: seq<string>)
    requires Decide(read, origin).Post?
    ensures Outside(path) ==> At(Decide(read, origin).doc, path) == At(read, path)
    ensures OriginsIn(Decide(read, origin).doc) == OriginsIn(read) + [JString(origin)]
    ensures JString(origin) !in OriginsIn(read)
    ensures HasBaseline(read) && HasBaseline(Decide(read, origin).doc)
  {
    var doc := Decide(read, origin).doc;
    if Outside(path) {
      SameOutside(read, origin, path);
    }
  }

  lemma SameOutside(read: Json, origin: string, path: seq<string>)
    requires Decide(read, origin).Post? && Outside(path)
    ensures At(Decide(read, origin).doc, path) == At(read, path)
  {
    var doc := Decide(read, origin).doc;
    if path[0] == "gateway" {
      assert path[1..][0] == path[1] && path[1..][1..] == path[2..];
      if path[1] == "controlUi" {
        var gateway, gateway' := read.fields["gateway"], doc.fields["gateway"];
        var controlUi := RecordAt(gateway.fields, "controlUi");
        assert At(read, path) == At(gateway, path[1..]) == At(JObject(controlUi), path[2..]);
        assert At(doc, path) == At(gateway', path[1..]) == At(gateway'.fields["controlUi"], path[2..]);
      }
    }
  }

  /** What was posted needs no second post. */
  lemma PostedIsPresent(read: Json, origin: string)
    requires Decide(read, origin).Post?
    ensures Decide(Decide(read, origin).doc, origin) == AlreadyPresent
  {
    PostChangesOneList(read, origin, []);
  }

  // ---------- the program ----------

  datatype Status = Patched | Present | Refused

  /** A call of the run: what was read (None: the call failed, said ok:false or did not
      parse) and what was posted. */
  datatype Event = GotConfig(doc: Option<Json>) | PostedConfig(posted: Json, ok: bool)

  /** The instance's config endpoint.  It may answer anything at any time, unless it is
      faithful: then it always answers, keeps what it is sent and is changed by nobody else. */
  class ConfigEndpoint {
    ghost var trace: seq<Event>
    const faithful: bool
    var doc: Json

    constructor (faithful: bool, doc: Json)
      ensures trace == [] && this.faithful == faithful && this.doc == doc
    {
      trace := [];
      this.faithful := faithful;
      this.doc := doc;
    }

    method GetConfigRaw() returns (read: Option<Json>)
      modifies this
      ensures trace == old(trace) + [GotConfig(read)]
      ensures faithful ==> read == Some(doc) && doc == old(doc)
    {
      if faithful {
        read := Some(doc);
      } else {
        read, doc := *, *;
      }
      trace := trace + [GotConfig(read)];
    }

    method PostConfigRaw(posted: Json) returns (ok: bool)
      modifies this
      ensures trace == old(trace) + [PostedConfig(posted, ok)]
      ensures faithful ==> ok && doc == posted
    {
      ok, doc := true, posted;
      if !faithful {
        ok, doc := *, *;
      }
      trace := trace + [PostedConfig(posted, ok)];
    }
  }

  /** What a run of the function may have done, by its result; None stands for an error. */
  ghost predicate Ran(t: seq<Event>, origin: string, result: Option<Status>) {
    && |t| >= 1 && t[0].GotConfig?
    && (match result
        case Some(Present) => |t| == 1 && t[0].doc.Some? && Decide(t[0].doc.value, origin).AlreadyPresent?
        case Some(Refused) => |t| == 1 && t[0].doc.Some? && Decide(t[0].doc.value, origin).RefusedMissingBaseline?
        case Some(Patched) =>
          |t| == 3 && t[0].doc.Some? && Decide(t[0].doc.value, origin).Post?
          && t[1] == PostedConfig(Decide(t[0].doc.value, origin).doc, true)
          && t[2].GotConfig? && t[2].doc.Some? && JString(origin) in OriginsIn(t[2].doc.value)
        case None =>
          || (|t| == 1 && (t[0].doc.Some? ==> Decide(t[0].doc.value, origin).Broken?))
          || (2 <= |t| <= 3 && t[0].doc.Some? && Decide(t[0].doc.value, origin).Post?
              && t[1].PostedConfig? && t[1].posted == Decide(t[0].doc.value, origin).doc
              && (|t| == 2 <==> !t[1].ok)
              && (|t| == 3 ==> t[2].GotConfig? && (t[2].doc.Some? ==> JString(origin) !in OriginsIn(t[2].doc.value)))))
  }

  /** patchAllowedOrigins. */
  method PatchAllowedOrigins(endpoint: ConfigEndpoint, domain: string)
    returns (result: Option<Status>, ghost seen: seq<Event>)
    modifies endpoint
    ensures endpoint.trace == old(endpoint.trace) + seen
    ensures Ran(seen, "https://" + domain, result)
    ensures endpoint.faithful ==>
              && FaithfulRun(seen, old(endpoint.doc), "https://" + domain, result)
              && endpoint.doc == AfterRun(old(endpoint.doc), "https://" + domain)
  {
    var origin := "https://" + domain;
    var read := endpoint.GetConfigRaw();
    seen := [GotConfig(read)];
    if read.None? || (!read.value.JObject? && !read.value.JArray?) {
      return None, seen;
    }
    // asRecord creates what is missing; on an array the new properties are not serialised.
    var config := if read.value.JObject? then read.value.fields else map[];
    var gateway := if "gateway" in config && config["gateway"].JObject? then config["gateway"].fields else map[];
    var controlUi := if "controlUi" in gateway && gateway["controlUi"].JObject? then gateway["controlUi"].fields else map[];
    var existingOrigins :=
      if "allowedOrigins" in controlUi && controlUi["allowedOrigins"].JArray? then controlUi["allowedOrigins"].elems else [];
    OriginsByHand(config);
    if JString(origin) in existingOrigins {
      return Some(Present), seen;
    }
    if "mode" !in gateway || !gateway["mode"].JString? || TrimIsEmpty(gateway["mode"].s) {
      return Some(Refused), seen;
    }
    controlUi := controlUi["allowedOrigins" := JArray(existingOrigins + [JString(origin)])];
    config := config["gateway" := JObject(gateway["controlUi" := JObject(controlUi)])];
    var posted := endpoint.PostConfigRaw(JObject(config));
    seen := seen + [PostedConfig(JObject(config), posted)];
    if !posted {
      return None, seen;
    }
    var verify := endpoint.GetConfigRaw();
    seen := seen + [GotConfig(verify)];
    if verify.None? || JString(origin) !in OriginsIn(verify.value) {
      return None, seen;
    }
    return Some(Patched), seen;
  }

  /** `s.trim().length === 0`. */
  predicate TrimIsEmpty(s: string) {
    forall i :: 0 <= i < |s| ==> IsSpace(s[i])
  }

  lemma OriginsByHand(config: map<string, Json>)
    ensures OriginsIn(JObject(config)) ==
            var controlUi := RecordAt(RecordAt(config, "gateway"), "controlUi");
            if "allowedOrigins" in controlUi && controlUi["allowedOrigins"].JArray? then controlUi["allowedOrigins"].elems else []
    ensures HasBaseline(JObject(config)) <==>
            var gateway := RecordAt(config, "gateway");
            "mode" in gateway && gateway["mode"].JString? && !TrimIsEmpty(gateway["mode"].s)
  {
  }

  /** Whatever the endpoint answers: at most one post, only of a document read in the same
      run that already has a baseline mode, and equal to it but for the one list; "patched"
      means a later read showed the origin. */
  lemma RunsPostSafely(t: seq<Event>, origin: string, result: Option<Status>, k: nat, path: seq<string>)
    requires Ran(t, origin, result) && k < |t| && t[k].PostedConfig?
    ensures k == 1 && t[0].doc.Some? && HasBaseline(t[0].doc.value)
    ensures Outside(path) ==> At(t[k].posted, path) == At(t[0].doc.value, path)
    ensures OriginsIn(t[k].posted) == OriginsIn(t[0].doc.value) + [JString(origin)]
    ensures JString(origin) !in OriginsIn(t[0].doc.value)
    ensures result == Some(Patched) ==> |t| == 3 && JString(origin) in OriginsIn(t[2].doc.value)
  {
    PostChangesOneList(t[0].doc.value, origin, path);
  }

  /** What a run does and reports, told from the document it read alone: a failed read, or a
      value that can hold no config, is an error; an object with the origin in the list is
      left alone, whether it has a baseline or not; without a baseline, or on an array,
      nothing is posted; otherwise the config is posted, and an error is left only by a
      failed post or by a second read that does not show the origin. */
  lemma ResultsExactly(t: seq<Event>, origin: string, result: Option<Status>)
    requires Ran(t, origin, result)
    ensures var read := t[0].doc;
            && (result == Some(Present) <==> read.Some? && read.value.JObject? && JString(origin) in OriginsIn(read.value))
            && (result == Some(Refused) <==>
                read.Some? && (read.value.JArray? || (read.value.JObject? && JString(origin) !in OriginsIn(read.value)
                                                      && !HasBaseline(read.value))))
            && (|t| >= 2 <==>
                read.Some? && read.value.JObject? && JString(origin) !in OriginsIn(read.value) && HasBaseline(read.value))
            && (|t| == 1 && result.None? <==> read.None? || !(read.value.JObject? || read.value.JArray?))
            && (|t| >= 2 ==> (result.None? <==>
                  t[1] == PostedConfig(t[1].posted, false) || t[2].doc.None? || JString(origin) !in OriginsIn(t[2].doc.value)))
  {
  }

  // ---------- a faithful store ----------

  /** On a store that keeps what it is sent: the document after a run that met `doc`. */
  function AfterRun(doc: Json, origin: string): Json {
    match Decide(doc, origin)
    case Post(posted) => posted
    case _ => doc
  }

  /** A trace of runs against a store that always answers, keeps what it is sent and is
      changed by nobody else. */
  ghost predicate FaithfulRun(t: seq<Event>, doc: Json, origin: string, result: Option<Status>) {
    && Ran(t, origin, result) && t[0].doc == Some(doc)
    && (|t| >= 2 ==> t[1].ok) && (|t| == 3 ==> t[2].doc == Some(t[1].posted))
  }

  function AfterRuns(doc: Json, origin: string, n: nat): Json {
    if n == 0 then doc else AfterRun(AfterRuns(doc, origin, n - 1), origin)
  }

  /** On a faithful store the first run settles everything: it succeeds unless the document
      is a primitive, no later run posts, and after a run that patched, every later one
      finds the origin present. */
  lemma {:induction false} LaterRunsPostNothing(
    first: seq<Event>, r1: Option<Status>, doc: Json, origin: string, n: nat, later: seq<Event>, r: Option<Status>)
    requires FaithfulRun(first, doc, origin, r1)
    requires n >= 1 && FaithfulRun(later, AfterRuns(doc, origin, n), origin, r)
    ensures AfterRuns(doc, origin, n) == AfterRun(doc, origin)
    ensures forall k :: 0 <= k < |later| ==> !later[k].PostedConfig?
    ensures r1 == Some(Patched) ==> r == Some(Present)
    ensures r1.Some? <==> doc.JObject? || doc.JArray?
  {
    RunsSettle(doc, origin, n);
    if Decide(doc, origin).Post? {
      PostedIsPresent(doc, origin);
    }
  }

  lemma {:induction false} RunsSettle(doc: Json, origin: string, n: nat)
    requires n >= 1
    ensures AfterRuns(doc, origin, n) == AfterRun(doc, origin)
    ensures !Decide(AfterRun(doc, origin), origin).Post?
  {
    if Decide(doc, origin).Post? {
      PostedIsPresent(doc, origin);
    }
    if n > 1 {
      RunsSettle(doc, origin, n - 1);
    } else {
      assert AfterRuns(doc, origin, 0) == doc;
    }
  }
}
