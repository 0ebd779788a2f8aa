/** What a record says, told from the calls that were made, in whatever order and with
    whatever throws. */
module StreamCalls {
  import opened Options
  import opened StreamMetadata
  import opened StreamReference
  import opened StreamCollector

  // ---------- what each call takes ----------

  /** A request is taken unless one of its reads throws, and then says what it should. */
  lemma RequestOfExactly(payload: JS)
    ensures RequestOf(payload).Some? <==> !ThrowsIn(payload)
    ensures RequestOf(payload).Some? ==> Describes(RequestOf(payload).value, payload)
  {
  }

  /** The positions of the blocks of this type. */
  function Typed(content: seq<JS>, kind: string): set<nat> {
    set i | 0 <= i < |content| && Val(content[i], "type") == Str(kind)
  }

  ghost predicate TypesReadable(content: seq<JS>) {
    forall i :: 0 <= i < |content| ==> Get(content[i], "type").Got?
  }

  lemma TypedSnoc(content: seq<JS>, kind: string)
    requires content != []
    ensures var init, n := content[..|content| - 1], |content| - 1;
            |Typed(content, kind)| == |Typed(init, kind)| + if Val(content[n], "type") == Str(kind) then 1 else 0
  {
    var init, n := content[..|content| - 1], |content| - 1;
    assert forall i :: 0 <= i < n ==> init[i] == content[i];
    assert Typed(content, kind) == Typed(init, kind) + if Val(content[n], "type") == Str(kind) then {n} else {};
  }

  lemma TypesSnoc(content: seq<JS>)
    requires content != []
    ensures TypesReadable(content) <==>
            TypesReadable(content[..|content| - 1]) && Get(content[|content| - 1], "type").Got?
  {
    var init := content[..|content| - 1];
    assert forall i :: 0 <= i < |init| ==> init[i] == content[i];
  }

  lemma {:induction false} CountBlocksExactly(content: seq<JS>, kind: string)
    ensures CountBlocks(content, kind).Some? <==> TypesReadable(content)
    ensures CountBlocks(content, kind).Some? ==> CountBlocks(content, kind).value == |Typed(content, kind)|
  {
    if content != [] {
      CountBlocksExactly(content[..|content| - 1], kind);
      TypedSnoc(content, kind);
      TypesSnoc(content);
    }
  }

  /** How many blocks of each type an output holds, and why it stopped. */
  predicate BlocksShow(b: Blocks, v: JS) {
    var content := Entries(Val(v, "content"));
    && b.text == |Typed(content, "text")| && b.thinking == |Typed(content, "thinking")|
    && b.toolCall == |Typed(content, "toolCall")| && b.stopReason == Reason(Val(v, "stopReason"))
  }

  ghost predicate BlocksReadable(v: JS) {
    Get(v, "content").Got? && Get(v, "stopReason").Got? && TypesReadable(Entries(Val(v, "content")))
  }

  /** Blocks are taken unless one of their reads throws, and then show the output. */
  lemma BlocksOfExactly(v: JS)
    ensures BlocksOf(v).Some? <==> BlocksReadable(v)
    ensures BlocksOf(v).Some? ==> BlocksShow(BlocksOf(v).value, v)
  {
    var content := Entries(Val(v, "content"));
    CountBlocksExactly(content, "text");
    CountBlocksExactly(content, "thinking");
    CountBlocksExactly(content, "toolCall");
  }

  // ---------- which calls count ----------

  function ContextGiven(call: Call): Option<Option<bool>> {
    if call.CallContext? then Some(if call.emitReasoning.Bool? then Some(call.emitReasoning.b) else None) else None
  }

  function RequestGiven(call: Call): Option<Request> {
    if call.CallRequest? then RequestOf(call.payload) else None
  }

  function BlocksGiven(call: Call): Option<Blocks> {
    if call.CallBeforeNormalization? then BlocksOf(call.output) else None
  }

  function Given<T>(calls: seq<Call>, f: Call -> Option<T>): seq<Option<T>> {
    seq(|calls|, k requires 0 <= k < |calls| => f(calls[k]))
  }

  lemma GivenSnoc<T>(calls: seq<Call>, f: Call -> Option<T>)
    requires calls != []
    ensures Given(calls, f) == Given(calls[..|calls| - 1], f) + [f(calls[|calls| - 1])]
  {
  }

  /** The record's request is the last one that was taken. */
  lemma {:induction false} LastRequestWins(startedAt: string, model: JS, calls: seq<Call>)
    ensures LastOf(Given(calls, RequestGiven), AfterCalls(Fresh(startedAt, model), calls).record.request)
  {
    if calls != [] {
      var init, last := calls[..|calls| - 1], calls[|calls| - 1];
      LastRequestWins(startedAt, model, init);
      GivenSnoc(calls, RequestGiven);
      LastSnoc(Given(init, RequestGiven), AfterCalls(Fresh(startedAt, model), init).record.request, RequestGiven(last));
    }
  }

  /** Its blocks before normalization are the last ones that were taken. */
  lemma {:induction false} LastBlocksWin(startedAt: string, model: JS, calls: seq<Call>)
    ensures LastOf(Given(calls, BlocksGiven), AfterCalls(Fresh(startedAt, model), calls).record.beforeNormalization)
  {
    if calls != [] {
      var init, last := calls[..|calls| - 1], calls[|calls| - 1];
      LastBlocksWin(startedAt, model, init);
      GivenSnoc(calls, BlocksGiven);
      LastSnoc(Given(init, BlocksGiven), AfterCalls(Fresh(startedAt, model), init).record.beforeNormalization, BlocksGiven(last));
    }
  }

  /** Its flag is that of the last context; its time and its requested model never change. */
  lemma {:induction false} LastContextWins(startedAt: string, model: JS, calls: seq<Call>) returns (context: Option<Option<bool>>)
    ensures LastOf(Given(calls, ContextGiven), context)
    ensures var r := AfterCalls(Fresh(startedAt, model), calls).record;
            && r.emitReasoning == (if context.Some? then context.value else None)
            && r.startedAt == startedAt && r.requestedModel == Identifier(model)
  {
    context := None;
    if calls != [] {
      var init, last := calls[..|calls| - 1], calls[|calls| - 1];
      context := LastContextWins(startedAt, model, init);
      GivenSnoc(calls, ContextGiven);
      LastSnoc(Given(init, ContextGiven), context, ContextGiven(last));
      context := if last.CallContext? then ContextGiven(last) else context;
    }
  }

  /** The first finish stands at k. */
  ghost predicate FinishesAt(calls: seq<Call>, k: int) {
    0 <= k < |calls| && calls[k].CallFinish? && forall j :: 0 <= j < k ==> !calls[j].CallFinish?
  }

  /** The line written at the first finish is the record as the calls before it left it,
      with the blocks of the output it was given; later calls write nothing and the final
      blocks stay. */
  lemma {:induction false} TheLineWritten(startedAt: string, model: JS, calls: seq<Call>, k: nat)
    requires FinishesAt(calls, k)
    ensures var s, blocks := AfterCalls(Fresh(startedAt, model), calls), BlocksOf(calls[k].output);
            && s.finished && s.record.final == blocks
            && s.written == if blocks.None? then []
                            else [AfterCalls(Fresh(startedAt, model), calls[..k]).record.(final := blocks)]
  {
    var init := calls[..|calls| - 1];
    if k < |init| {
      assert FinishesAt(init, k) && init[..k] == calls[..k] && init[k] == calls[k];
      TheLineWritten(startedAt, model, init, k);
    } else {
      NotFinished(startedAt, model, init);
      assert calls[..k] == init;
    }
  }

  lemma {:induction false} NotFinished(startedAt: string, model: JS, calls: seq<Call>)
    requires forall c :: c in calls ==> !c.CallFinish?
    ensures var s := AfterCalls(Fresh(startedAt, model), calls); !s.finished && s.written == [] && s.record.final == None
  {
    if calls != [] {
      assert calls[|calls| - 1] in calls;
      NotFinished(startedAt, model, calls[..|calls| - 1]);
    }
  }
}
