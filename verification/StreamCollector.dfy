/** The collector as the program runs it: an object updated in place, whose every
    operation swallows a throw, and which writes one record when it is finished. */
module StreamCollector {
  import opened Options
  import opened Decimal
  import opened StreamMetadata

  datatype Request = Request(
    model: Option<string>, maxTokens: Option<nat>, maxCompletionTokens: Option<nat>,
    includeUsage: bool, messageCount: nat, toolCount: nat)

  datatype Blocks = Blocks(text: nat, thinking: nat, toolCall: nat, stopReason: Option<string>)

  /** None when one of the reads throws. */
  function RequestOf(payload: JS): Option<Request> {
    var model, tokens, completion, stream, messages, tools :=
      Get(payload, "model"), Get(payload, "max_tokens"), Get(payload, "max_completion_tokens"),
      Get(payload, "stream_options"), Get(payload, "messages"), Get(payload, "tools");
    if model.Threw? || tokens.Threw? || completion.Threw? || stream.Threw? || messages.Threw? || tools.Threw?
       || Get(stream.v, "include_usage").Threw?
    then None
    else Some(Request(Identifier(model.v), Number(tokens.v), Number(completion.v),
                      Get(stream.v, "include_usage").v == Bool(true), |Entries(messages.v)|, |Entries(tools.v)|))
  }

  const REQUEST_FIELDS := {"model", "max_tokens", "max_completion_tokens", "stream_options", "messages", "tools"}

  /** One of the reads a request takes throws. */
  predicate ThrowsIn(payload: JS) {
    || (exists name :: name in REQUEST_FIELDS && Get(payload, name).Threw?)
    || Get(Val(payload, "stream_options"), "include_usage").Threw?
  }

  /** r says of each property of the payload what is kept of it. */
  predicate Describes(r: Request, payload: JS) {
    && r.model == Identifier(Val(payload, "model"))
    && r.maxTokens == Number(Val(payload, "max_tokens"))
    && r.maxCompletionTokens == Number(Val(payload, "max_completion_tokens"))
    && (r.includeUsage <==> Val(Val(payload, "stream_options"), "include_usage") == Bool(true))
    && r.messageCount == |Entries(Val(payload, "messages"))|
    && r.toolCount == |Entries(Val(payload, "tools"))|
  }

  /** How many blocks have this type; None when reading a type throws. */
  function CountBlocks(content: seq<JS>, kind: string): (n: Option<nat>)
    ensures n.Some? ==> n.value <= |content|
  {
    if content == [] then Some(0)
    else
      var before, read := CountBlocks(content[..|content| - 1], kind), Get(content[|content| - 1], "type");
      if before.None? || read.Threw? then None
      else Some(before.value + if read.v == Str(kind) then 1 else 0)
  }

  function BlocksOf(v: JS): Option<Blocks> {
    var content, stop := Get(v, "content"), Get(v, "stopReason");
    if content.Threw? || stop.Threw? then None
    else
      var text, thinking, tool :=
        CountBlocks(Entries(content.v), "text"), CountBlocks(Entries(content.v), "thinking"), CountBlocks(Entries(content.v), "toolCall");
      if text.None? || thinking.None? || tool.None? then None
      else Some(Blocks(text.value, thinking.value, tool.value, Reason(stop.v)))
  }

  datatype Record = Record(
    emitReasoning: Option<bool>, startedAt: string, requestedModel: Option<string>, request: Option<Request>,
    summary: Summary, beforeNormalization: Option<Blocks>, final: Option<Blocks>)

  /** A collector seen as a value, with the records it has tried to write. */
  datatype State = State(record: Record, finished: bool, written: seq<Record>)

  datatype Call =
    | CallContext(emitReasoning: JS)
    | CallRequest(payload: JS)
    | CallChunk(value: JS)
    | CallBeforeNormalization(output: JS)
    | CallFinish(output: JS)

  function AfterCall(s: State, call: Call): State {
    var r := s.record;
    match call
    case CallContext(v) => s.(record := r.(emitReasoning := if v.Bool? then Some(v.b) else None))
    case CallRequest(payload) =>
      var request := RequestOf(payload);
      if request.Some? then s.(record := r.(request := request)) else s
    case CallChunk(value) => s.(record := r.(summary := AfterChunk(r.summary, value)))
    case CallBeforeNormalization(output) =>
      var blocks := BlocksOf(output);
      if blocks.Some? then s.(record := r.(beforeNormalization := blocks)) else s
    case CallFinish(output) =>
      if s.finished then s
      else
        var blocks := BlocksOf(output);
        if blocks.None? then s.(finished := true)
        else
          var final := r.(final := blocks);
          State(final, true, s.written + [final])
  }

  function AfterChunk(s: Summary, chunk: JS): Summary {
    ApplyAll(s, ChunkOut(chunk, s.responseId.None?, s.responseModel.None?).done)
  }

  function Fresh(startedAt: string, requestedModel: JS): State {
    State(Record(None, startedAt, Identifier(requestedModel), None, EMPTY, None, None), false, [])
  }

  function AfterCalls(s: State, calls: seq<Call>): State {
    if calls == [] then s else AfterCall(AfterCalls(s, calls[..|calls| - 1]), calls[|calls| - 1])
  }

  /** What the first `finish` was given. */
  function FirstFinish(calls: seq<Call>): Option<JS> {
    if calls == [] then None
    else
      var before, last := FirstFinish(calls[..|calls| - 1]), calls[|calls| - 1];
      if before.None? && last.CallFinish? then Some(last.output) else before
  }

  /** Over any sequence of calls at most one record is written, and one is written exactly
      when there was a `finish` and the reads of the first one did not throw. */
  lemma {:induction false} AtMostOneWrite(startedAt: string, model: JS, calls: seq<Call>)
    ensures var s, first := AfterCalls(Fresh(startedAt, model), calls), FirstFinish(calls);
            && |s.written| <= 1
            && (s.finished <==> first.Some?)
            && (|s.written| == 1 <==> first.Some? && BlocksOf(first.value).Some?)
  {
    if calls != [] {
      AtMostOneWrite(startedAt, model, calls[..|calls| - 1]);
    }
  }

  function ChunksOf(calls: seq<Call>): seq<JS> {
    if calls == [] then []
    else
      var last := calls[|calls| - 1];
      ChunksOf(calls[..|calls| - 1]) + if last.CallChunk? then [last.value] else []
  }

  /** Whatever else is called, the summary is the fold over the chunks alone. */
  lemma {:induction false} SummaryIsTheFold(startedAt: string, model: JS, calls: seq<Call>)
    ensures AfterCalls(Fresh(startedAt, model), calls).record.summary == SummaryAfter(ChunksOf(calls))
  {
    if calls != [] {
      var init, last := calls[..|calls| - 1], calls[|calls| - 1];
      SummaryIsTheFold(startedAt, model, init);
      if last.CallChunk? {
        SummarySnoc(ChunksOf(init), last.value);
      } else {
        assert ChunksOf(init) + [] == ChunksOf(init);
      }
    }
  }

  lemma SummarySnoc(chunks: seq<JS>, chunk: JS)
    ensures SummaryAfter(chunks + [chunk]) == AfterChunk(SummaryAfter(chunks), chunk)
  {
    assert (chunks + [chunk])[..|chunks|] == chunks;
    var now := SummaryAfter(chunks);
    ApplyConcat(EMPTY, Contributions(EMPTY, chunks), ChunkOut(chunk, now.responseId.None?, now.responseModel.None?).done);
  }

  // ---------- the program ----------

  class Collector {
    var counts: map<Counter, nat>
    var responseId: Option<string>
    var responseModel: Option<string>
    var finishReason: Option<string>
    var chunkUsageSeen: bool
    var choiceUsageSeen: bool
    var chunkUsage: Option<Usage>
    var choiceUsage: Option<Usage>
    var emitReasoning: Option<bool>
    const startedAt: string
    const requestedModel: Option<string>
    var request: Option<Request>
    var blocksBefore: Option<Blocks>
    var final: Option<Blocks>
    var finished: bool
    ghost var written: seq<Record>

    function Now(): Summary
      reads this
    {
      Summary(counts, responseId, responseModel, finishReason, chunkUsageSeen, choiceUsageSeen, chunkUsage, choiceUsage)
    }

    ghost function View(): State
      reads this
    {
      State(Record(emitReasoning, startedAt, requestedModel, request, Now(), blocksBefore, final), finished, written)
    }

    /** Everything a chunk does not touch. */
    ghost function Rest(): (Option<bool>, Option<Request>, Option<Blocks>, Option<Blocks>, bool, seq<Record>)
      reads this
    {
      (emitReasoning, request, blocksBefore, final, finished, written)
    }

    constructor (startedAt: string, requestedModel: JS)
      ensures View() == Fresh(startedAt, requestedModel)
    {
      this.startedAt := startedAt;
      this.requestedModel := Identifier(requestedModel);
      counts := EMPTY.counts;
      responseId, responseModel, finishReason := None, None, None;
      chunkUsageSeen, choiceUsageSeen, chunkUsage, choiceUsage := false, false, None, None;
      emitReasoning, request, blocksBefore, final := None, None, None, None;
      finished := false;
      written := [];
    }

    method AddTo(key: Counter, amount: nat)
      modifies this
      ensures Now() == ApplyOne(old(Now()), Add(key, amount)) && Rest() == old(Rest())
    {
      var sum := (if key in counts then counts[key] else 0) + amount;
      counts := counts[key := if sum > MAX_SAFE_INTEGER then MAX_SAFE_INTEGER else sum];
    }

    method Measure(o: JS, names: seq<string>, kind: Kind, key: Counter) returns (ok: bool)
      modifies this
      ensures ok == MeasureOut(o, names, kind, key).ok
      ensures Now() == ApplyAll(old(Now()), MeasureOut(o, names, kind, key).done) && Rest() == old(Rest())
    {
      var sum: nat := 0;
      for i := 0 to |names|
        invariant Now() == old(Now()) && Rest() == old(Rest())
        invariant MeasureOut(o, names[i..], kind, key, sum) == MeasureOut(o, names, kind, key)
      {
        var read := Get(o, names[i]);
        if read.Threw? {
          return false;
        }
        assert names[i..][1..] == names[i + 1..];
        sum := sum + Amount(kind, read.v);
      }
      AddTo(key, sum);
      OneEffect(old(Now()), [Add(key, sum)]);
      return true;
    }

    method ToolArgument(tool: JS, key: Counter) returns (ok: bool)
      modifies this
      ensures ok == ToolOut(tool, key).ok
      ensures Now() == ApplyAll(old(Now()), ToolOut(tool, key).done) && Rest() == old(Rest())
    {
      var called := Get(tool, "function");
      if called.Threw? {
        return false;
      }
      ok := Measure(called.v, ["arguments"], CHARS, key);
    }

    method ToolArguments(tools: seq<JS>, key: Counter) returns (ok: bool)
      modifies this
      ensures ok == ToolsOut(tools, key).ok
      ensures Now() == ApplyAll(old(Now()), ToolsOut(tools, key).done) && Rest() == old(Rest())
    {
      ghost var s := Now();
      for i := 0 to |tools|
        invariant ToolsOut(tools[..i], key).ok && Rest() == old(Rest())
        invariant Now() == ApplyAll(s, ToolsOut(tools[..i], key).done)
      {
        ToolsSnoc(tools, i, key);
        Chain(s, ToolsOut(tools[..i], key), ToolOut(tools[i], key));
        ok := ToolArgument(tools[i], key);
        if !ok {
          StoppedTools(tools, i + 1, key);
          return;
        }
      }
      assert tools[..|tools|] == tools;
      return true;
    }

    method ContentPart(delta: JS, message: JS) returns (ok: bool)
      modifies this
      ensures ok == ContentOut(delta, message).ok
      ensures Now() == ApplyAll(old(Now()), ContentOut(delta, message).done) && Rest() == old(Rest())
    {
      ghost var s := Now();
      ghost var text := MeasureOut(delta, ["content"], CHARS, DeltaTextChars);
      ghost var parts := MeasureOut(delta, ["content"], ENTRIES, DeltaContentArrayEntries);
      ok := Measure(delta, ["content"], CHARS, DeltaTextChars);
      if !ok { return; }
      Chain(s, text, parts);
      ok := Measure(delta, ["content"], ENTRIES, DeltaContentArrayEntries);
      if !ok { return; }
      Chain(s, Then(text, parts), MeasureOut(message, ["content"], ENTRIES, MessageContentArrayEntries));
      ok := Measure(message, ["content"], ENTRIES, MessageContentArrayEntries);
    }

    method DetailPart(delta: JS) returns (ok: bool)
      modifies this
      ensures ok == DetailOut(delta).ok
      ensures Now() == ApplyAll(old(Now()), DetailOut(delta).done) && Rest() == old(Rest())
    {
      ghost var s := Now();
      ghost var reasoning := MeasureOut(delta, REASONING_FIELDS, CHARS, DeltaReasoningChars);
      ghost var refusal := MeasureOut(delta, ["refusal"], CHARS, DeltaRefusalChars);
      ok := Measure(delta, REASONING_FIELDS, CHARS, DeltaReasoningChars);
      if !ok { return; }
      Chain(s, reasoning, refusal);
      ok := Measure(delta, ["refusal"], CHARS, DeltaRefusalChars);
      if !ok { return; }
      Chain(s, Then(reasoning, refusal), MeasureOut(delta, ["reasoning_details"], ENTRIES, ReasoningDetailEntries));
      ok := Measure(delta, ["reasoning_details"], ENTRIES, ReasoningDetailEntries);
    }

    method DeltaPart(delta: JS, message: JS) returns (ok: bool)
      modifies this
      ensures ok == DeltaOut(delta, message).ok
      ensures Now() == ApplyAll(old(Now()), DeltaOut(delta, message).done) && Rest() == old(Rest())
    {
      ghost var s := Now();
      ok := ContentPart(delta, message);
      if !ok { return; }
      Chain(s, ContentOut(delta, message), DetailOut(delta));
      ok := DetailPart(delta);
      if !ok { return; }
      Chain(s, Then(ContentOut(delta, message), DetailOut(delta)), ToolCallsOut(delta, DeltaToolEntries, DeltaToolArgumentChars));
      ok := ToolCalls(delta, DeltaToolEntries, DeltaToolArgumentChars);
    }

    method ToolCalls(o: JS, entries: Counter, arguments: Counter) returns (ok: bool)
      modifies this
      ensures ok == ToolCallsOut(o, entries, arguments).ok
      ensures Now() == ApplyAll(old(Now()), ToolCallsOut(o, entries, arguments).done) && Rest() == old(Rest())
    {
      var read := Get(o, "tool_calls");
      if read.Threw? {
        return false;
      }
      var toolEntries := Entries(read.v);
      AddTo(entries, |toolEntries|);
      OneEffect(old(Now()), [Add(entries, |toolEntries|)]);
      Chain(old(Now()), Out([Add(entries, |toolEntries|)], true), ToolsOut(toolEntries, arguments));
      ok := ToolArguments(toolEntries, arguments);
    }

    method MessagePart(message: JS) returns (ok: bool)
      modifies this
      ensures ok == MessageOut(message).ok
      ensures Now() == ApplyAll(old(Now()), MessageOut(message).done) && Rest() == old(Rest())
    {
      ghost var s := Now();
      ghost var o := MeasureOut(message, ["content"], CHARS, MessageTextChars);
      ok := Measure(message, ["content"], CHARS, MessageTextChars);
      if !ok { return; }
      Chain(s, o, MeasureOut(message, ["tool_calls"], ENTRIES, MessageToolEntries));
      o := Then(o, MeasureOut(message, ["tool_calls"], ENTRIES, MessageToolEntries));
      ok := Measure(message, ["tool_calls"], ENTRIES, MessageToolEntries);
      if !ok { return; }
      Chain(s, o, MeasureOut(message, REASONING_FIELDS, CHARS, MessageReasoningChars));
      o := Then(o, MeasureOut(message, REASONING_FIELDS, CHARS, MessageReasoningChars));
      ok := Measure(message, REASONING_FIELDS, CHARS, MessageReasoningChars);
      if !ok { return; }
      Chain(s, o, MeasureOut(message, ["refusal"], CHARS, MessageRefusalChars));
      o := Then(o, MeasureOut(message, ["refusal"], CHARS, MessageRefusalChars));
      ok := Measure(message, ["refusal"], CHARS, MessageRefusalChars);
      if !ok { return; }
      Chain(s, o, MessageToolsOut(message));
      var read := Get(message, "tool_calls");
      if read.Threw? {
        return false;
      }
      ok := ToolArguments(Entries(read.v), MessageToolArgumentChars);
    }

    method TakeUsage(o: JS, choice: bool) returns (ok: bool)
      modifies this
      ensures ok == UsageOut(o, choice).ok
      ensures Now() == ApplyAll(old(Now()), UsageOut(o, choice).done) && Rest() == old(Rest())
    {
      var read := Get(o, "usage");
      if read.Threw? {
        return false;
      }
      if !Present(read.v) {
        return true;
      }
      if choice { choiceUsageSeen := true; } else { chunkUsageSeen := true; }
      var usage := UsageOf(read.v);
      OneEffect(old(Now()), [SeeUsage(choice)]);
      if usage.None? {
        return false;
      }
      if choice { choiceUsage := usage; } else { chunkUsage := usage; }
      assert [SeeUsage(choice), SetUsage(choice, usage.value)][..1] == [SeeUsage(choice)];
      return true;
    }

    method TakeFinishReason(choice: JS) returns (ok: bool)
      modifies this
      ensures ok == FinishReasonOut(choice).ok
      ensures Now() == ApplyAll(old(Now()), FinishReasonOut(choice).done) && Rest() == old(Rest())
    {
      OneEffect(Now(), FinishReasonOut(choice).done);
      var read := Get(choice, "finish_reason");
      if read.Threw? {
        return false;
      }
      if Present(read.v) {
        finishReason := Reason(read.v);
      }
      return true;
    }

    method ChoicePart(choice: JS) returns (ok: bool)
      modifies this
      ensures ok == ChoiceOut(choice).ok
      ensures Now() == ApplyAll(old(Now()), ChoiceOut(choice).done) && Rest() == old(Rest())
    {
      ghost var s := Now();
      ok := TakeFinishReason(choice);
      if !ok { return; }
      Chain(s, FinishReasonOut(choice), UsageOut(choice, true));
      ok := TakeUsage(choice, true);
      if !ok { return; }
      Chain(s, Then(FinishReasonOut(choice), UsageOut(choice, true)), BodyOut(choice));
      ok := BodyPart(choice);
    }

    method BodyPart(choice: JS) returns (ok: bool)
      modifies this
      ensures ok == BodyOut(choice).ok
      ensures Now() == ApplyAll(old(Now()), BodyOut(choice).done) && Rest() == old(Rest())
    {
      var delta, message := Get(choice, "delta"), Get(choice, "message");
      if delta.Threw? || message.Threw? {
        return false;
      }
      ghost var s := Now();
      ok := DeltaPart(delta.v, message.v);
      if !ok { return; }
      Chain(s, DeltaOut(delta.v, message.v), MessageOut(message.v));
      ok := MessagePart(message.v);
    }

    method ChoicesPart(chunk: JS) returns (ok: bool)
      modifies this
      ensures ok == ChoicesOut(chunk).ok
      ensures Now() == ApplyAll(old(Now()), ChoicesOut(chunk).done) && Rest() == old(Rest())
    {
      var read := Get(chunk, "choices");
      if read.Threw? {
        return false;
      }
      var choices := Entries(read.v);
      if |choices| == 0 {
        return true;
      }
      AddTo(PrimaryChoiceCount, 1);
      OneEffect(old(Now()), [Add(PrimaryChoiceCount, 1)]);
      Chain(old(Now()), Out([Add(PrimaryChoiceCount, 1)], true), ChoiceOut(choices[0]));
      ok := ChoicePart(choices[0]);
    }

    method TakeId(chunk: JS) returns (ok: bool)
      modifies this
      ensures ok == IdOut(chunk, old(responseId).None?).ok
      ensures Now() == ApplyAll(old(Now()), IdOut(chunk, old(responseId).None?).done)
      ensures Rest() == old(Rest()) && responseModel == old(responseModel)
    {
      OneEffect(Now(), IdOut(chunk, responseId.None?).done);
      if responseId.None? {
        var read := Get(chunk, "id");
        if read.Threw? {
          return false;
        }
        responseId := Identifier(read.v);
      }
      return true;
    }

    method TakeModel(chunk: JS) returns (ok: bool)
      modifies this
      ensures ok == ModelOut(chunk, old(responseModel).None?).ok
      ensures Now() == ApplyAll(old(Now()), ModelOut(chunk, old(responseModel).None?).done) && Rest() == old(Rest())
    {
      OneEffect(Now(), ModelOut(chunk, responseModel.None?).done);
      if responseModel.None? {
        var read := Get(chunk, "model");
        if read.Threw? {
          return false;
        }
        responseModel := Identifier(read.v);
      }
      return true;
    }

    method TakeIdentifiers(chunk: JS) returns (ok: bool)
      modifies this
      ensures ok == IdsOut(chunk, old(responseId).None?, old(responseModel).None?).ok
      ensures Now() == ApplyAll(old(Now()), IdsOut(chunk, old(responseId).None?, old(responseModel).None?).done)
      ensures Rest() == old(Rest())
    {
      ghost var s := Now();
      ghost var id, model := IdOut(chunk, responseId.None?), ModelOut(chunk, responseModel.None?);
      ok := TakeId(chunk);
      if !ok { return; }
      Chain(s, id, model);
      ok := TakeModel(chunk);
    }

    method IntakePart(chunk: JS) returns (ok: bool)
      modifies this
      ensures Rest() == old(Rest())
      ensures var out := Then(Out([Add(ChunkCount, 1)], true), IdsOut(chunk, old(responseId).None?, old(responseModel).None?));
              ok == out.ok && Now() == ApplyAll(old(Now()), out.done)
    {
      ghost var s, first := Now(), Out([Add(ChunkCount, 1)], true);
      ghost var ids := IdsOut(chunk, responseId.None?, responseModel.None?);
      AddTo(ChunkCount, 1);
      OneEffect(s, first.done);
      Chain(s, first, ids);
      ok := TakeIdentifiers(chunk);
    }

    /** chunk(): always returns, however the chunk's reads behave. */
    method Chunk(value: JS)
      modifies this
      ensures View() == AfterCall(old(View()), CallChunk(value))
    {
      Observe(value);
    }

    method Observe(chunk: JS)
      modifies this
      ensures Now() == AfterChunk(old(Now()), chunk) && Rest() == old(Rest())
    {
      ghost var s := Now();
      ghost var intake := Then(Out([Add(ChunkCount, 1)], true), IdsOut(chunk, responseId.None?, responseModel.None?));
      ThenAssociates(intake, UsageOut(chunk, false), ChoicesOut(chunk));
      var ok := IntakePart(chunk);
      if !ok { return; }
      Chain(s, intake, Then(UsageOut(chunk, false), ChoicesOut(chunk)));
      UsageAndChoices(chunk);
    }

    method UsageAndChoices(chunk: JS)
      modifies this
      ensures Rest() == old(Rest())
      ensures Now() == ApplyAll(old(Now()), Then(UsageOut(chunk, false), ChoicesOut(chunk)).done)
    {
      ghost var s := Now();
      var ok := TakeUsage(chunk, false);
      if !ok { return; }
      Chain(s, UsageOut(chunk, false), ChoicesOut(chunk));
      ok := ChoicesPart(chunk);
    }

    method Context(emit: JS)
      modifies this
      ensures View() == AfterCall(old(View()), CallContext(emit))
    {
      emitReasoning := if emit.Bool? then Some(emit.b) else None;
    }

    /** request(): the properties are read one after another; the first read that throws
        leaves everything as it was, however many came before it. */
    method TakeRequest(payload: JS)
      modifies this
      ensures View() == AfterCall(old(View()), CallRequest(payload))
      ensures ThrowsIn(payload) ==> View() == old(View())
      ensures !ThrowsIn(payload) ==> request.Some? && Describes(request.value, payload)
    {
      var model := Get(payload, "model");
      if model.Threw? { return; }
      var tokens := Get(payload, "max_tokens");
      if tokens.Threw? { return; }
      var completion := Get(payload, "max_completion_tokens");
      if completion.Threw? { return; }
      var stream := Get(payload, "stream_options");
      if stream.Threw? { return; }
      var usage := Get(stream.v, "include_usage");
      if usage.Threw? { return; }
      var messages := Get(payload, "messages");
      if messages.Threw? { return; }
      var tools := Get(payload, "tools");
      if tools.Threw? { return; }
      request := Some(Request(Identifier(model.v), Number(tokens.v), Number(completion.v),
                              usage.v == Bool(true), |Entries(messages.v)|, |Entries(tools.v)|));
    }

    method BeforeNormalization(output: JS)
      modifies this
      ensures View() == AfterCall(old(View()), CallBeforeNormalization(output))
    {
      var blocks := BlocksOf(output);
      if blocks.Some? {
        blocksBefore := blocks;
      }
    }

    /** finish(): the flag is set before anything that can throw. */
    method Finish(output: JS) returns (line: Option<Record>)
      modifies this
      ensures View() == AfterCall(old(View()), CallFinish(output))
      ensures written == old(written) + if line.Some? then [line.value] else []
    {
      if finished {
        return None;
      }
      finished := true;
      var blocks := BlocksOf(output);
      if blocks.None? {
        return None;
      }
      final := blocks;
      line := Some(Record(emitReasoning, startedAt, requestedModel, request, Now(), blocksBefore, final));
      written := written + [line.value];
    }
  }

  lemma Chain(s: Summary, a: Out, b: Out)
    requires a.ok
    ensures ApplyAll(s, Then(a, b).done) == ApplyAll(ApplyAll(s, a.done), b.done) && Then(a, b).ok == b.ok
  {
    ApplyConcat(s, a.done, b.done);
  }

  lemma ThenAssociates(a: Out, b: Out, c: Out)
    ensures Then(Then(a, b), c) == Then(a, Then(b, c))
  {
    assert a.done + b.done + c.done == a.done + (b.done + c.done);
  }

  lemma ToolsSnoc(tools: seq<JS>, i: nat, key: Counter)
    requires i < |tools|
    ensures ToolsOut(tools[..i + 1], key) == Then(ToolsOut(tools[..i], key), ToolOut(tools[i], key))
  {
    assert tools[..i + 1][..i] == tools[..i];
  }

  lemma {:induction false} StoppedTools(tools: seq<JS>, n: nat, key: Counter)
    requires n <= |tools| && !ToolsOut(tools[..n], key).ok
    ensures ToolsOut(tools, key) == ToolsOut(tools[..n], key)
    decreases |tools| - n
  {
    if n == |tools| {
      assert tools[..n] == tools;
    } else {
      assert tools[..n + 1][..n] == tools[..n];
      StoppedTools(tools, n + 1, key);
    }
  }
}
