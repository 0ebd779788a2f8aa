/** The stream metadata collector.  A chunk is an arbitrary value whose property reads may
    throw; what a chunk contributes before the first throw is described by `ChunkOut`,
    and the collector is proved to fold exactly these contributions. */
module StreamMetadata {
  import opened Options
  import opened Decimal

  // ---------- values ----------

  datatype JS =
    | Undefined
    | Null
    | Bool(b: bool)
    | Integer(n: int)
    | OtherNumber           // fractions, infinities, NaN
    | Str(s: string)
    | Arr(elems: seq<JS>)
    | Obj(props: map<string, Prop>)

  datatype Prop = Data(v: JS) | Throws

  datatype Read = Got(v: JS) | Threw

  /** Reading a property of `fields(v)`: whatever is not an object reads as undefined. */
  function Get(v: JS, name: string): Read {
    if v.Obj? && name in v.props then
      (match v.props[name] case Data(x) => Got(x) case Throws => Threw)
    else Got(Undefined)
  }

  /** The value at a property; undefined if reading it throws. */
  function Val(v: JS, name: string): JS {
    match Get(v, name) case Got(x) => x case Threw => Undefined
  }

  function Entries(v: JS): seq<JS> {
    if v.Arr? then v.elems else []
  }

  function Number(v: JS): Option<nat> {
    if v.Integer? && 0 <= v.n <= MAX_SAFE_INTEGER then Some(v.n) else None
  }

  function Chars(v: JS): nat {
    if v.Str? then |v.s| else 0
  }

  predicate AlphaNumeric(c: char) {
    'a' <= c <= 'z' || 'A' <= c <= 'Z' || '0' <= c <= '9'
  }

  predicate IdentifierText(s: string) {
    && 1 <= |s| <= 160 && AlphaNumeric(s[0])
    && forall c :: c in s ==> AlphaNumeric(c) || c in "._:/-"
  }

  function Identifier(v: JS): Option<string> {
    if v.Str? && IdentifierText(v.s) then Some(v.s) else None
  }

  predicate Present(v: JS) {
    !v.Null? && !v.Undefined?
  }

  predicate KnownReason(s: string) {
    s in {"stop", "length", "tool_calls", "function_call", "content_filter", "toolUse", "error", "aborted"}
  }

  function Reason(v: JS): Option<string> {
    if !Present(v) then None
    else if v.Str? && KnownReason(v.s) then Some(v.s)
    else Some("other")
  }

  datatype Usage = Usage(input: Option<nat>, output: Option<nat>, total: Option<nat>, reasoning: Option<nat>)

  /** None when one of the reads throws. */
  function UsageOf(v: JS): Option<Usage> {
    var input, output, total, details :=
      Get(v, "prompt_tokens"), Get(v, "completion_tokens"), Get(v, "total_tokens"), Get(v, "completion_tokens_details");
    if input.Threw? || output.Threw? || total.Threw? || details.Threw? then None
    else
      var reasoning := Get(details.v, "reasoning_tokens");
      if reasoning.Threw? then None
      else Some(Usage(Number(input.v), Number(output.v), Number(total.v), Number(reasoning.v)))
  }

  // ---------- contributions ----------

  datatype Counter =
    | ChunkCount | PrimaryChoiceCount
    | DeltaTextChars | DeltaReasoningChars | DeltaRefusalChars
    | DeltaContentArrayEntries | MessageContentArrayEntries
    | DeltaToolEntries | DeltaToolArgumentChars
    | MessageTextChars | MessageToolEntries | MessageReasoningChars
    | MessageRefusalChars | MessageToolArgumentChars
    | ReasoningDetailEntries

  datatype Effect =
    | Add(key: Counter, amount: nat)
    | OfferId(id: Option<string>)
    | OfferModel(model: Option<string>)
    | SetFinishReason(reason: Option<string>)
    | SeeUsage(choice: bool)
    | SetUsage(choice: bool, usage: Usage)

  /** What was done, and whether it ran to the end without a throw. */
  datatype Out = Out(done: seq<Effect>, ok: bool)

  function Then(a: Out, b: Out): Out {
    if a.ok then Out(a.done + b.done, b.ok) else a
  }

  datatype Kind = CHARS | ENTRIES

  function Amount(kind: Kind, v: JS): nat {
    if kind == CHARS then Chars(v) else |Entries(v)|
  }

  /** `add(key, m(o.a) + m(o.b) + ...)`: all reads come before the one addition. */
  function MeasureOut(o: JS, names: seq<string>, kind: Kind, key: Counter, sum: nat := 0): Out {
    if names == [] then Out([Add(key, sum)], true)
    else
      var read := Get(o, names[0]);
      if read.Threw? then Out([], false) else MeasureOut(o, names[1..], kind, key, sum + Amount(kind, read.v))
  }

  /** One addition a tool entry; a throwing entry ends it. */
  function ToolsOut(tools: seq<JS>, key: Counter): Out {
    if tools == [] then Out([], true)
    else
      var init := ToolsOut(tools[..|tools| - 1], key);
      Then(init, ToolOut(tools[|tools| - 1], key))
  }

  function ToolOut(tool: JS, key: Counter): Out {
    var called := Get(tool, "function");
    if called.Threw? then Out([], false) else MeasureOut(called.v, ["arguments"], CHARS, key)
  }

  function IdOut(chunk: JS, wanted: bool): Out {
    if !wanted then Out([], true)
    else
      var read := Get(chunk, "id");
      if read.Threw? then Out([], false) else Out([OfferId(Identifier(read.v))], true)
  }

  function ModelOut(chunk: JS, wanted: bool): Out {
    if !wanted then Out([], true)
    else
      var read := Get(chunk, "model");
      if read.Threw? then Out([], false) else Out([OfferModel(Identifier(read.v))], true)
  }

  function IdsOut(chunk: JS, wantsId: bool, wantsModel: bool): Out {
    Then(IdOut(chunk, wantsId), ModelOut(chunk, wantsModel))
  }

  function UsageOut(o: JS, choice: bool): Out {
    var read := Get(o, "usage");
    if read.Threw? then Out([], false)
    else if !Present(read.v) then Out([], true)
    else
      var usage := UsageOf(read.v);
      if usage.None? then Out([SeeUsage(choice)], false)
      else Out([SeeUsage(choice), SetUsage(choice, usage.value)], true)
  }

  function FinishReasonOut(choice: JS): Out {
    var read := Get(choice, "finish_reason");
    if read.Threw? then Out([], false)
    else if Present(read.v) then Out([SetFinishReason(Reason(read.v))], true)
    else Out([], true)
  }

  const REASONING_FIELDS := ["reasoning_content", "reasoning", "reasoning_text"]

  function ContentOut(delta: JS, message: JS): Out {
    var o := MeasureOut(delta, ["content"], CHARS, DeltaTextChars);
    var o := Then(o, MeasureOut(delta, ["content"], ENTRIES, DeltaContentArrayEntries));
    Then(o, MeasureOut(message, ["content"], ENTRIES, MessageContentArrayEntries))
  }

  function DetailOut(delta: JS): Out {
    var o := MeasureOut(delta, REASONING_FIELDS, CHARS, DeltaReasoningChars);
    var o := Then(o, MeasureOut(delta, ["refusal"], CHARS, DeltaRefusalChars));
    Then(o, MeasureOut(delta, ["reasoning_details"], ENTRIES, ReasoningDetailEntries))
  }

  function DeltaOut(delta: JS, message: JS): Out {
    Then(Then(ContentOut(delta, message), DetailOut(delta)), ToolCallsOut(delta, DeltaToolEntries, DeltaToolArgumentChars))
  }

  function ToolCallsOut(o: JS, entries: Counter, arguments: Counter): Out {
    var read := Get(o, "tool_calls");
    if read.Threw? then Out([], false)
    else Then(Out([Add(entries, |Entries(read.v)|)], true), ToolsOut(Entries(read.v), arguments))
  }

  function MessageOut(message: JS): Out {
    var o := MeasureOut(message, ["content"], CHARS, MessageTextChars);
    var o := Then(o, MeasureOut(message, ["tool_calls"], ENTRIES, MessageToolEntries));
    var o := Then(o, MeasureOut(message, REASONING_FIELDS, CHARS, MessageReasoningChars));
    var o := Then(o, MeasureOut(message, ["refusal"], CHARS, MessageRefusalChars));
    Then(o, MessageToolsOut(message))
  }

  function MessageToolsOut(message: JS): Out {
    var read := Get(message, "tool_calls");
    if read.Threw? then Out([], false) else ToolsOut(Entries(read.v), MessageToolArgumentChars)
  }

  function BodyOut(choice: JS): Out {
    var delta, message := Get(choice, "delta"), Get(choice, "message");
    if delta.Threw? || message.Threw? then Out([], false)
    else Then(DeltaOut(delta.v, message.v), MessageOut(message.v))
  }

  function ChoiceOut(choice: JS): Out {
    Then(Then(FinishReasonOut(choice), UsageOut(choice, true)), BodyOut(choice))
  }

  function ChoicesOut(chunk: JS): Out {
    var read := Get(chunk, "choices");
    if read.Threw? then Out([], false)
    else if Entries(read.v) == [] then Out([], true)
    else Then(Out([Add(PrimaryChoiceCount, 1)], true), ChoiceOut(Entries(read.v)[0]))
  }

  /** What one chunk contributes.  The id and the model are read only while unknown. */
  function ChunkOut(chunk: JS, wantsId: bool, wantsModel: bool): Out {
    var o := Out([Add(ChunkCount, 1)], true);
    var o := Then(o, IdsOut(chunk, wantsId, wantsModel));
    var o := Then(o, UsageOut(chunk, false));
    Then(o, ChoicesOut(chunk))
  }

  // ---------- the summary ----------

  datatype Summary = Summary(
    counts: map<Counter, nat>,
    responseId: Option<string>, responseModel: Option<string>, finishReason: Option<string>,
    chunkUsageSeen: bool, choiceUsageSeen: bool, chunkUsage: Option<Usage>, choiceUsage: Option<Usage>)

  const ALL: set<Counter> := {
    ChunkCount, PrimaryChoiceCount, DeltaTextChars, DeltaReasoningChars, DeltaRefusalChars,
    DeltaContentArrayEntries, MessageContentArrayEntries, DeltaToolEntries, DeltaToolArgumentChars,
    MessageTextChars, MessageToolEntries, MessageReasoningChars, MessageRefusalChars,
    MessageToolArgumentChars, ReasoningDetailEntries}

  const EMPTY := Summary(map k | k in ALL :: 0, None, None, None, false, false, None, None)

  function Saturated(n: nat): nat {
    if n > MAX_SAFE_INTEGER then MAX_SAFE_INTEGER else n
  }

  function CountOf(s: Summary, key: Counter): nat {
    if key in s.counts then s.counts[key] else 0
  }

  function ApplyOne(s: Summary, e: Effect): Summary {
    match e
    case Add(key, amount) => s.(counts := s.counts[key := Saturated(CountOf(s, key) + amount)])
    case OfferId(id) => if s.responseId.None? then s.(responseId := id) else s
    case OfferModel(model) => if s.responseModel.None? then s.(responseModel := model) else s
    case SetFinishReason(reason) => s.(finishReason := reason)
    case SeeUsage(choice) => if choice then s.(choiceUsageSeen := true) else s.(chunkUsageSeen := true)
    case SetUsage(choice, usage) =>
      if choice then s.(choiceUsage := Some(usage)) else s.(chunkUsage := Some(usage))
  }

  function ApplyAll(s: Summary, es: seq<Effect>): Summary {
    if es == [] then s else ApplyOne(ApplyAll(s, es[..|es| - 1]), es[|es| - 1])
  }

  lemma {:induction false} ApplyConcat(s: Summary, a: seq<Effect>, b: seq<Effect>)
    ensures ApplyAll(s, a + b) == ApplyAll(ApplyAll(s, a), b)
  {
    if b == [] {
      assert a + b == a;
    } else {
      ApplyConcat(s, a, b[..|b| - 1]);
      assert (a + b)[..|a + b| - 1] == a + b[..|b| - 1];
    }
  }

  /** What a sequence of chunks contributes, in order, when the summary was s. */
  function Contributions(s: Summary, chunks: seq<JS>): seq<Effect> {
    if chunks == [] then []
    else
      var before := Contributions(s, chunks[..|chunks| - 1]);
      var now := ApplyAll(s, before);
      before + ChunkOut(chunks[|chunks| - 1], now.responseId.None?, now.responseModel.None?).done
  }

  function SummaryAfter(chunks: seq<JS>): Summary {
    ApplyAll(EMPTY, Contributions(EMPTY, chunks))
  }

  // ---------- what the fold means ----------

  function Total(es: seq<Effect>, key: Counter): nat {
    if es == [] then 0
    else
      var last := es[|es| - 1];
      Total(es[..|es| - 1], key) + if last.Add? && last.key == key then last.amount else 0
  }

  /** Each counter is the saturated sum of everything that was added to it. */
  lemma {:induction false} CountersSaturate(es: seq<Effect>, key: Counter)
    ensures CountOf(ApplyAll(EMPTY, es), key) == Saturated(Total(es, key))
  {
    if es != [] {
      CountersSaturate(es[..|es| - 1], key);
    }
  }

  lemma {:induction false} TotalConcat(a: seq<Effect>, b: seq<Effect>, key: Counter)
    ensures Total(a + b, key) == Total(a, key) + Total(b, key)
  {
    if b == [] {
      assert a + b == a;
    } else {
      TotalConcat(a, b[..|b| - 1], key);
      assert (a + b)[..|a + b| - 1] == a + b[..|b| - 1];
    }
  }

  /** Nothing but additions to the counters of the primary choice. */
  predicate Adds(es: seq<Effect>) {
    forall e :: e in es ==> e.Add? && e.key != ChunkCount && e.key != PrimaryChoiceCount
  }

  lemma {:induction false} MeasureAdds(o: JS, names: seq<string>, kind: Kind, key: Counter, sum: nat := 0)
    requires key != ChunkCount && key != PrimaryChoiceCount
    ensures Adds(MeasureOut(o, names, kind, key, sum).done)
  {
    if names != [] && Get(o, names[0]).Got? {
      MeasureAdds(o, names[1..], kind, key, sum + Amount(kind, Get(o, names[0]).v));
    }
  }

  lemma {:induction false} ToolsAdds(tools: seq<JS>, key: Counter)
    requires key != ChunkCount && key != PrimaryChoiceCount
    ensures Adds(ToolsOut(tools, key).done)
  {
    if tools != [] {
      ToolsAdds(tools[..|tools| - 1], key);
      var called := Get(tools[|tools| - 1], "function");
      if called.Got? {
        MeasureAdds(called.v, ["arguments"], CHARS, key);
      }
    }
  }

  lemma DeltaAdds(delta: JS, message: JS)
    ensures Adds(DeltaOut(delta, message).done)
  {
    ContentAdds(delta, message);
    DetailAdds(delta);
    ToolCallsAdds(delta);
  }

  lemma ContentAdds(delta: JS, message: JS)
    ensures Adds(ContentOut(delta, message).done)
  {
    MeasureAdds(delta, ["content"], CHARS, DeltaTextChars);
    MeasureAdds(delta, ["content"], ENTRIES, DeltaContentArrayEntries);
    MeasureAdds(message, ["content"], ENTRIES, MessageContentArrayEntries);
  }

  lemma DetailAdds(delta: JS)
    ensures Adds(DetailOut(delta).done)
  {
    MeasureAdds(delta, REASONING_FIELDS, CHARS, DeltaReasoningChars);
    MeasureAdds(delta, ["refusal"], CHARS, DeltaRefusalChars);
    MeasureAdds(delta, ["reasoning_details"], ENTRIES, ReasoningDetailEntries);
  }

  lemma ToolCallsAdds(delta: JS)
    ensures Adds(ToolCallsOut(delta, DeltaToolEntries, DeltaToolArgumentChars).done)
  {
    var read := Get(delta, "tool_calls");
    if read.Got? {
      ToolsAdds(Entries(read.v), DeltaToolArgumentChars);
    }
  }

  lemma MessageAdds(message: JS)
    ensures Adds(MessageOut(message).done)
  {
    MeasureAdds(message, ["content"], CHARS, MessageTextChars);
    MeasureAdds(message, ["tool_calls"], ENTRIES, MessageToolEntries);
    MeasureAdds(message, REASONING_FIELDS, CHARS, MessageReasoningChars);
    MeasureAdds(message, ["refusal"], CHARS, MessageRefusalChars);
    var read := Get(message, "tool_calls");
    if read.Got? {
      ToolsAdds(Entries(read.v), MessageToolArgumentChars);
    }
  }

  lemma BodyAdds(choice: JS)
    ensures Adds(BodyOut(choice).done)
  {
    var delta, message := Get(choice, "delta"), Get(choice, "message");
    if delta.Got? && message.Got? {
      DeltaAdds(delta.v, message.v);
      MessageAdds(message.v);
    }
  }

  lemma {:induction false} NoAddTotal(es: seq<Effect>, key: Counter)
    requires forall e :: e in es ==> !e.Add?
    ensures Total(es, key) == 0
  {
    if es != [] {
      assert es[|es| - 1] in es;
      NoAddTotal(es[..|es| - 1], key);
    }
  }

  /** The first valid id in the stream, whatever else its chunks do. */
  function FirstId(chunks: seq<JS>): Option<string> {
    if chunks == [] then None
    else
      var before, read := FirstId(chunks[..|chunks| - 1]), Get(chunks[|chunks| - 1], "id");
      if before.Some? then before else if read.Got? then Identifier(read.v) else None
  }

  /** The first valid model in a chunk that did not stop at reading a wanted id. */
  function FirstModel(chunks: seq<JS>): Option<string> {
    if chunks == [] then None
    else
      var init, last := chunks[..|chunks| - 1], chunks[|chunks| - 1];
      var before, read := FirstModel(init), Get(last, "model");
      if before.Some? then before
      else if (FirstId(init).None? && Get(last, "id").Threw?) || read.Threw? then None
      else Identifier(read.v)
  }

  lemma {:induction false} NoOfferKeeps(s: Summary, es: seq<Effect>)
    requires forall e :: e in es ==> !e.OfferId? && !e.OfferModel?
    ensures ApplyAll(s, es).responseId == s.responseId && ApplyAll(s, es).responseModel == s.responseModel
  {
    if es != [] {
      assert es[|es| - 1] in es;
      NoOfferKeeps(s, es[..|es| - 1]);
    }
  }

  function IdAfter(s: Summary, chunk: JS): Option<string> {
    var id := Get(chunk, "id");
    if s.responseId.Some? then s.responseId else if id.Got? then Identifier(id.v) else None
  }

  function ModelAfter(s: Summary, chunk: JS): Option<string> {
    var model := Get(chunk, "model");
    if s.responseModel.Some? then s.responseModel
    else if (s.responseId.None? && Get(chunk, "id").Threw?) || model.Threw? then None
    else Identifier(model.v)
  }

  lemma IdStep(s: Summary, chunk: JS)
    ensures ApplyAll(s, IdOut(chunk, s.responseId.None?).done) == s.(responseId := IdAfter(s, chunk))
  {
    OneEffect(s, IdOut(chunk, s.responseId.None?).done);
  }

  lemma ModelStep(s: Summary, chunk: JS)
    requires s.responseModel.Some? || Get(chunk, "model").Got?
    ensures ApplyAll(s, ModelOut(chunk, s.responseModel.None?).done) ==
            if s.responseModel.Some? then s else s.(responseModel := Identifier(Get(chunk, "model").v))
  {
    OneEffect(s, ModelOut(chunk, s.responseModel.None?).done);
  }

  lemma HeadIdentifiers(s: Summary, chunk: JS)
    ensures var after := ApplyAll(s, IdsOut(chunk, s.responseId.None?, s.responseModel.None?).done);
            after.responseId == IdAfter(s, chunk) && after.responseModel == ModelAfter(s, chunk)
  {
    var id, model := IdOut(chunk, s.responseId.None?), ModelOut(chunk, s.responseModel.None?);
    IdStep(s, chunk);
    if id.ok {
      ApplyConcat(s, id.done, model.done);
      if model.ok {
        ModelStep(ApplyAll(s, id.done), chunk);
      }
    }
  }

  predicate OffersNothing(out: Out) {
    forall e :: e in out.done ==> !e.OfferId? && !e.OfferModel?
  }

  lemma ThenOffersNothing(a: Out, b: Out)
    requires OffersNothing(a) && OffersNothing(b)
    ensures OffersNothing(Then(a, b))
  {
  }

  /** Nothing but the head of a chunk offers an identifier. */
  lemma RestOffersNothing(chunk: JS)
    ensures OffersNothing(UsageOut(chunk, false)) && OffersNothing(ChoicesOut(chunk))
  {
    var read := Get(chunk, "choices");
    if read.Got? && Entries(read.v) != [] {
      var choice := Entries(read.v)[0];
      BodyAdds(choice);
      ThenOffersNothing(FinishReasonOut(choice), UsageOut(choice, true));
      ThenOffersNothing(Then(FinishReasonOut(choice), UsageOut(choice, true)), BodyOut(choice));
    }
  }

  lemma TailOffersNothing(s: Summary, head: Out, tail: Out)
    requires OffersNothing(tail)
    ensures var before, after := ApplyAll(s, head.done), ApplyAll(s, Then(head, tail).done);
            after.responseId == before.responseId && after.responseModel == before.responseModel
  {
    ApplyConcat(s, head.done, tail.done);
    NoOfferKeeps(ApplyAll(s, head.done), tail.done);
  }

  lemma FrontIdentifiers(s: Summary, chunk: JS)
    ensures var front := Then(Out([Add(ChunkCount, 1)], true), IdsOut(chunk, s.responseId.None?, s.responseModel.None?));
            var after := ApplyAll(s, front.done);
            after.responseId == IdAfter(s, chunk) && after.responseModel == ModelAfter(s, chunk)
  {
    var first := [Add(ChunkCount, 1)];
    ApplyConcat(s, first, IdsOut(chunk, s.responseId.None?, s.responseModel.None?).done);
    NoOfferKeeps(s, first);
    HeadIdentifiers(ApplyAll(s, first), chunk);
  }

  /** What a chunk does to the two identifiers, however far it gets. */
  lemma ChunkIdentifiers(s: Summary, chunk: JS)
    ensures var after := ApplyAll(s, ChunkOut(chunk, s.responseId.None?, s.responseModel.None?).done);
            after.responseId == IdAfter(s, chunk) && after.responseModel == ModelAfter(s, chunk)
  {
    var front := Then(Out([Add(ChunkCount, 1)], true), IdsOut(chunk, s.responseId.None?, s.responseModel.None?));
    RestOffersNothing(chunk);
    FrontIdentifiers(s, chunk);
    TailOffersNothing(s, front, UsageOut(chunk, false));
    TailOffersNothing(s, Then(front, UsageOut(chunk, false)), ChoicesOut(chunk));
  }

  lemma OneEffect(s: Summary, es: seq<Effect>)
    requires |es| <= 1
    ensures ApplyAll(s, es) == if es == [] then s else ApplyOne(s, es[0])
  {
    if es != [] {
      assert es[..0] == [];
    }
  }

  /** The id and the model of the record are the first valid ones. */
  lemma {:induction false} FirstIdentifiersWin(chunks: seq<JS>)
    ensures SummaryAfter(chunks).responseId == FirstId(chunks)
    ensures SummaryAfter(chunks).responseModel == FirstModel(chunks)
  {
    if chunks != [] {
      var init, last := chunks[..|chunks| - 1], chunks[|chunks| - 1];
      FirstIdentifiersWin(init);
      var now := SummaryAfter(init);
      ChunkIdentifiers(now, last);
      ApplyConcat(EMPTY, Contributions(EMPTY, init), ChunkOut(last, now.responseId.None?, now.responseModel.None?).done);
    }
  }
}
