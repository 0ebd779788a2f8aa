/** What a throw costs: a chunk contributes a prefix of what it would contribute if every
    read that throws yielded undefined instead. */
module StreamCalm {
  import opened StreamMetadata
  import opened StreamReference

  /** The same value with undefined behind every property whose read throws. */
  function Calm(v: JS): JS {
    match v
    case Arr(elems) => Arr(CalmEach(elems))
    case Obj(props) => Obj(map name | name in props :: Data(CalmProp(props[name])))
    case _ => v
  }

  function CalmProp(p: Prop): JS {
    match p case Data(v) => Calm(v) case Throws => Undefined
  }

  function CalmEach(vs: seq<JS>): seq<JS> {
    seq(|vs|, i requires 0 <= i < |vs| => Calm(vs[i]))
  }

  /** a is b, or b as far as the first throw. */
  ghost predicate Cuts(a: Out, b: Out) {
    b.ok && a.done <= b.done && (a.ok ==> a == b)
  }

  lemma ThenCuts(a: Out, b: Out, a': Out, b': Out)
    requires Cuts(a, a') && Cuts(b, b')
    ensures Cuts(Then(a, b), Then(a', b'))
  {
  }

  lemma CalmReads(v: JS, name: string)
    ensures Get(Calm(v), name) == Got(Calm(Val(v, name)))
  {
  }

  lemma CalmMeasures(v: JS)
    ensures Entries(Calm(v)) == CalmEach(Entries(v))
    ensures Chars(Calm(v)) == Chars(v) && Number(Calm(v)) == Number(v) && Identifier(Calm(v)) == Identifier(v)
    ensures Present(Calm(v)) == Present(v) && Reason(Calm(v)) == Reason(v)
  {
  }

  lemma {:induction false} MeasureCuts(o: JS, names: seq<string>, kind: Kind, key: Counter, sum: nat := 0)
    ensures Cuts(MeasureOut(o, names, kind, key, sum), MeasureOut(Calm(o), names, kind, key, sum))
  {
    if names != [] {
      var v := Val(o, names[0]);
      CalmReads(o, names[0]);
      CalmMeasures(v);
      MeasureCuts(o, names[1..], kind, key, sum + Amount(kind, v));
    }
  }

  lemma ToolCuts(tool: JS, key: Counter)
    ensures Cuts(ToolOut(tool, key), ToolOut(Calm(tool), key))
  {
    CalmReads(tool, "function");
    MeasureCuts(Val(tool, "function"), ["arguments"], CHARS, key);
  }

  lemma {:induction false} ToolsCut(tools: seq<JS>, key: Counter)
    ensures Cuts(ToolsOut(tools, key), ToolsOut(CalmEach(tools), key))
  {
    if tools != [] {
      var init, last := tools[..|tools| - 1], tools[|tools| - 1];
      ToolsCut(init, key);
      ToolCuts(last, key);
      assert CalmEach(tools)[..|tools| - 1] == CalmEach(init);
      ThenCuts(ToolsOut(init, key), ToolOut(last, key), ToolsOut(CalmEach(init), key), ToolOut(Calm(last), key));
    }
  }

  lemma IdsCut(chunk: JS, wantsId: bool, wantsModel: bool)
    ensures Cuts(IdsOut(chunk, wantsId, wantsModel), IdsOut(Calm(chunk), wantsId, wantsModel))
  {
    CalmReads(chunk, "id");
    CalmReads(chunk, "model");
    CalmMeasures(Val(chunk, "id"));
    CalmMeasures(Val(chunk, "model"));
    ThenCuts(IdOut(chunk, wantsId), ModelOut(chunk, wantsModel),
             IdOut(Calm(chunk), wantsId), ModelOut(Calm(chunk), wantsModel));
  }

  lemma CalmUsage(v: JS)
    ensures UsageOf(Calm(v)).Some? && (UsageOf(v).Some? ==> UsageOf(v) == UsageOf(Calm(v)))
  {
    var details := Val(v, "completion_tokens_details");
    CalmReads(v, "prompt_tokens");
    CalmReads(v, "completion_tokens");
    CalmReads(v, "total_tokens");
    CalmReads(v, "completion_tokens_details");
    CalmReads(details, "reasoning_tokens");
    CalmMeasures(Val(v, "prompt_tokens"));
    CalmMeasures(Val(v, "completion_tokens"));
    CalmMeasures(Val(v, "total_tokens"));
    CalmMeasures(Val(details, "reasoning_tokens"));
  }

  lemma UsageCuts(o: JS, choice: bool)
    ensures Cuts(UsageOut(o, choice), UsageOut(Calm(o), choice))
  {
    CalmReads(o, "usage");
    CalmMeasures(Val(o, "usage"));
    CalmUsage(Val(o, "usage"));
  }

  lemma ReasonCuts(choice: JS)
    ensures Cuts(FinishReasonOut(choice), FinishReasonOut(Calm(choice)))
  {
    CalmReads(choice, "finish_reason");
    CalmMeasures(Val(choice, "finish_reason"));
  }

  lemma ThreeCut(a: Out, b: Out, c: Out, a': Out, b': Out, c': Out)
    requires Cuts(a, a') && Cuts(b, b') && Cuts(c, c')
    ensures Cuts(Then(Then(a, b), c), Then(Then(a', b'), c'))
  {
    ThenCuts(a, b, a', b');
    ThenCuts(Then(a, b), c, Then(a', b'), c');
  }

  lemma ContentCuts(delta: JS, message: JS)
    ensures Cuts(ContentOut(delta, message), ContentOut(Calm(delta), Calm(message)))
  {
    MeasureCuts(delta, ["content"], CHARS, DeltaTextChars);
    MeasureCuts(delta, ["content"], ENTRIES, DeltaContentArrayEntries);
    MeasureCuts(message, ["content"], ENTRIES, MessageContentArrayEntries);
  }

  lemma DetailCuts(delta: JS)
    ensures Cuts(DetailOut(delta), DetailOut(Calm(delta)))
  {
    MeasureCuts(delta, REASONING_FIELDS, CHARS, DeltaReasoningChars);
    MeasureCuts(delta, ["refusal"], CHARS, DeltaRefusalChars);
    MeasureCuts(delta, ["reasoning_details"], ENTRIES, ReasoningDetailEntries);
  }

  lemma ToolCallsCut(o: JS, entries: Counter, arguments: Counter)
    ensures Cuts(ToolCallsOut(o, entries, arguments), ToolCallsOut(Calm(o), entries, arguments))
  {
    var tools := Entries(Val(o, "tool_calls"));
    CalmReads(o, "tool_calls");
    CalmMeasures(Val(o, "tool_calls"));
    ToolsCut(tools, arguments);
    var size := Out([Add(entries, |tools|)], true);
    ThenCuts(size, ToolsOut(tools, arguments), size, ToolsOut(CalmEach(tools), arguments));
  }

  lemma MessageToolsCut(message: JS)
    ensures Cuts(MessageToolsOut(message), MessageToolsOut(Calm(message)))
  {
    CalmReads(message, "tool_calls");
    CalmMeasures(Val(message, "tool_calls"));
    ToolsCut(Entries(Val(message, "tool_calls")), MessageToolArgumentChars);
  }

  lemma MessageCuts(message: JS)
    ensures Cuts(MessageOut(message), MessageOut(Calm(message)))
  {
    MeasureCuts(message, ["content"], CHARS, MessageTextChars);
    MeasureCuts(message, ["tool_calls"], ENTRIES, MessageToolEntries);
    MeasureCuts(message, REASONING_FIELDS, CHARS, MessageReasoningChars);
    MeasureCuts(message, ["refusal"], CHARS, MessageRefusalChars);
    MessageToolsCut(message);
  }

  lemma BodyCuts(choice: JS)
    ensures Cuts(BodyOut(choice), BodyOut(Calm(choice)))
  {
    var delta, message := Val(choice, "delta"), Val(choice, "message");
    CalmReads(choice, "delta");
    CalmReads(choice, "message");
    ContentCuts(delta, message);
    DetailCuts(delta);
    ToolCallsCut(delta, DeltaToolEntries, DeltaToolArgumentChars);
    MessageCuts(message);
    ThreeCut(ContentOut(delta, message), DetailOut(delta), ToolCallsOut(delta, DeltaToolEntries, DeltaToolArgumentChars),
             ContentOut(Calm(delta), Calm(message)), DetailOut(Calm(delta)),
             ToolCallsOut(Calm(delta), DeltaToolEntries, DeltaToolArgumentChars));
    ThenCuts(DeltaOut(delta, message), MessageOut(message), DeltaOut(Calm(delta), Calm(message)), MessageOut(Calm(message)));
  }

  lemma ChoiceCuts(choice: JS)
    ensures Cuts(ChoiceOut(choice), ChoiceOut(Calm(choice)))
  {
    ReasonCuts(choice);
    UsageCuts(choice, true);
    BodyCuts(choice);
    ThreeCut(FinishReasonOut(choice), UsageOut(choice, true), BodyOut(choice),
             FinishReasonOut(Calm(choice)), UsageOut(Calm(choice), true), BodyOut(Calm(choice)));
  }

  lemma ChoicesCut(chunk: JS)
    ensures Cuts(ChoicesOut(chunk), ChoicesOut(Calm(chunk)))
  {
    var choices := Entries(Val(chunk, "choices"));
    CalmReads(chunk, "choices");
    CalmMeasures(Val(chunk, "choices"));
    if choices != [] {
      ChoiceCuts(choices[0]);
      var one := Out([Add(PrimaryChoiceCount, 1)], true);
      ThenCuts(one, ChoiceOut(choices[0]), one, ChoiceOut(Calm(choices[0])));
    }
  }

  /** A throw only cuts off: up to it the chunk contributes, in the same order, what it
      would contribute without any throw, and a chunk that never throws loses nothing. */
  lemma ThrowsOnlyCut(chunk: JS, wantsId: bool, wantsModel: bool)
    ensures ChunkOut(Calm(chunk), wantsId, wantsModel).ok
    ensures ChunkOut(chunk, wantsId, wantsModel).done <= ChunkOut(Calm(chunk), wantsId, wantsModel).done
    ensures ChunkOut(chunk, wantsId, wantsModel).ok ==>
            ChunkOut(chunk, wantsId, wantsModel) == ChunkOut(Calm(chunk), wantsId, wantsModel)
  {
    var one := Out([Add(ChunkCount, 1)], true);
    IdsCut(chunk, wantsId, wantsModel);
    UsageCuts(chunk, false);
    ChoicesCut(chunk);
    var ids, usage := IdsOut(chunk, wantsId, wantsModel), UsageOut(chunk, false);
    var ids', usage' := IdsOut(Calm(chunk), wantsId, wantsModel), UsageOut(Calm(chunk), false);
    ThreeCut(one, ids, usage, one, ids', usage');
    ThenCuts(Then(Then(one, ids), usage), ChoicesOut(chunk), Then(Then(one, ids'), usage'), ChoicesOut(Calm(chunk)));
  }
}
