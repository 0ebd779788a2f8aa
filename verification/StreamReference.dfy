/** An independent account of what a stream amounts to: a table, by counter, of what a
    chunk is due, and the reports its chunks carry.  A chunk whose reads do not throw
    contributes exactly its due; one that throws contributes at most its due. */
module StreamReference {
  import opened Options
  import opened StreamMetadata

  function Text(v: JS, name: string): nat {
    Chars(Val(v, name))
  }

  function Size(v: JS, name: string): nat {
    |Entries(Val(v, name))|
  }

  function ReasoningText(v: JS): nat {
    Text(v, "reasoning_content") + Text(v, "reasoning") + Text(v, "reasoning_text")
  }

  function ArgumentText(tools: seq<JS>): nat {
    if tools == [] then 0
    else Text(Val(tools[0], "function"), "arguments") + ArgumentText(tools[1..])
  }

  function DeltaDue(delta: JS, key: Counter): nat {
    match key
    case DeltaTextChars => Text(delta, "content")
    case DeltaContentArrayEntries => Size(delta, "content")
    case DeltaReasoningChars => ReasoningText(delta)
    case DeltaRefusalChars => Text(delta, "refusal")
    case ReasoningDetailEntries => Size(delta, "reasoning_details")
    case DeltaToolEntries => Size(delta, "tool_calls")
    case DeltaToolArgumentChars => ArgumentText(Entries(Val(delta, "tool_calls")))
    case _ => 0
  }

  function MessageDue(message: JS, key: Counter): nat {
    match key
    case MessageTextChars => Text(message, "content")
    case MessageContentArrayEntries => Size(message, "content")
    case MessageReasoningChars => ReasoningText(message)
    case MessageRefusalChars => Text(message, "refusal")
    case MessageToolEntries => Size(message, "tool_calls")
    case MessageToolArgumentChars => ArgumentText(Entries(Val(message, "tool_calls")))
    case _ => 0
  }

  /** Only the first choice matters. */
  function ChoicesDue(chunk: JS, key: Counter): nat {
    var choices := Entries(Val(chunk, "choices"));
    if choices == [] then 0
    else if key == PrimaryChoiceCount then 1
    else DeltaDue(Val(choices[0], "delta"), key) + MessageDue(Val(choices[0], "message"), key)
  }

  /** What a chunk is due to add to a counter. */
  function ChunkDue(chunk: JS, key: Counter): nat {
    if key == ChunkCount then 1 else ChoicesDue(chunk, key)
  }

  function StreamDue(chunks: seq<JS>, key: Counter): nat {
    if chunks == [] then 0 else StreamDue(chunks[..|chunks| - 1], key) + ChunkDue(chunks[|chunks| - 1], key)
  }

  /** All of what is due if nothing throws, and never more. */
  ghost predicate Meets(out: Out, key: Counter, due: nat) {
    Total(out.done, key) <= due && (out.ok ==> Total(out.done, key) == due)
  }

  lemma ThenMeets(a: Out, b: Out, key: Counter, x: nat, y: nat)
    requires Meets(a, key, x) && Meets(b, key, y)
    ensures Meets(Then(a, b), key, x + y)
  {
    TotalConcat(a.done, b.done, key);
  }

  lemma OneAdd(added: Counter, amount: nat, key: Counter)
    ensures Total([Add(added, amount)], key) == if added == key then amount else 0
  {
    assert [Add(added, amount)][..0] == [];
  }

  /** The sum of the measures of some properties. */
  function SumOf(o: JS, names: seq<string>, kind: Kind): nat {
    if names == [] then 0 else Amount(kind, Val(o, names[0])) + SumOf(o, names[1..], kind)
  }

  lemma {:induction false} MeasureMeets(o: JS, names: seq<string>, kind: Kind, added: Counter, key: Counter, sum: nat := 0)
    ensures Meets(MeasureOut(o, names, kind, added, sum), key, if added == key then sum + SumOf(o, names, kind) else 0)
  {
    if names == [] {
      OneAdd(added, sum, key);
    } else if Get(o, names[0]).Got? {
      MeasureMeets(o, names[1..], kind, added, key, sum + Amount(kind, Get(o, names[0]).v));
    }
  }

  lemma OneName(o: JS, name: string, kind: Kind, added: Counter, key: Counter)
    ensures Meets(MeasureOut(o, [name], kind, added), key, if added == key then Amount(kind, Val(o, name)) else 0)
  {
    MeasureMeets(o, [name], kind, added, key);
    assert [name][1..] == [];
  }

  lemma Reasoning(o: JS, added: Counter, key: Counter)
    ensures Meets(MeasureOut(o, REASONING_FIELDS, CHARS, added), key, if added == key then ReasoningText(o) else 0)
  {
    MeasureMeets(o, REASONING_FIELDS, CHARS, added, key);
    var two, one: seq<string> := ["reasoning", "reasoning_text"], ["reasoning_text"];
    assert REASONING_FIELDS[1..] == two && two[1..] == one && one[1..] == [];
    assert SumOf(o, one, CHARS) == Text(o, "reasoning_text");
    assert SumOf(o, two, CHARS) == Text(o, "reasoning") + Text(o, "reasoning_text");
  }

  lemma {:induction false} ArgumentSnoc(tools: seq<JS>, tool: JS)
    ensures ArgumentText(tools + [tool]) == ArgumentText(tools) + Text(Val(tool, "function"), "arguments")
  {
    if tools == [] {
      assert tools + [tool] == [tool] && [tool][1..] == [];
    } else {
      assert (tools + [tool])[1..] == tools[1..] + [tool];
      ArgumentSnoc(tools[1..], tool);
    }
  }

  lemma {:induction false} ToolsMeet(tools: seq<JS>, added: Counter, key: Counter)
    ensures Meets(ToolsOut(tools, added), key, if added == key then ArgumentText(tools) else 0)
  {
    if tools != [] {
      var init, last := tools[..|tools| - 1], tools[|tools| - 1];
      ToolsMeet(init, added, key);
      ArgumentSnoc(init, last);
      assert tools == init + [last];
      var called := Val(last, "function");
      OneName(called, "arguments", CHARS, added, key);
      ThenMeets(ToolsOut(init, added), ToolOut(last, added), key,
                if added == key then ArgumentText(init) else 0, if added == key then Text(called, "arguments") else 0);
    }
  }

  lemma ToolCallsMeet(o: JS, entries: Counter, arguments: Counter, key: Counter)
    requires entries != arguments
    ensures Meets(ToolCallsOut(o, entries, arguments), key,
                  if key == entries then Size(o, "tool_calls")
                  else if key == arguments then ArgumentText(Entries(Val(o, "tool_calls"))) else 0)
  {
    var tools := Entries(Val(o, "tool_calls"));
    OneAdd(entries, |tools|, key);
    ToolsMeet(tools, arguments, key);
    ThenMeets(Out([Add(entries, |tools|)], true), ToolsOut(tools, arguments), key,
              if key == entries then |tools| else 0, if key == arguments then ArgumentText(tools) else 0);
  }

  lemma ContentMeets(delta: JS, message: JS, key: Counter)
    ensures Meets(ContentOut(delta, message), key,
                  match key
                  case DeltaTextChars => Text(delta, "content")
                  case DeltaContentArrayEntries => Size(delta, "content")
                  case MessageContentArrayEntries => Size(message, "content")
                  case _ => 0)
  {
    OneName(delta, "content", CHARS, DeltaTextChars, key);
    OneName(delta, "content", ENTRIES, DeltaContentArrayEntries, key);
    OneName(message, "content", ENTRIES, MessageContentArrayEntries, key);
    var a := MeasureOut(delta, ["content"], CHARS, DeltaTextChars);
    var b := MeasureOut(delta, ["content"], ENTRIES, DeltaContentArrayEntries);
    var c := MeasureOut(message, ["content"], ENTRIES, MessageContentArrayEntries);
    Three(a, b, c, key, if key == DeltaTextChars then Text(delta, "content") else 0,
          if key == DeltaContentArrayEntries then Size(delta, "content") else 0,
          if key == MessageContentArrayEntries then Size(message, "content") else 0);
  }

  lemma Three(a: Out, b: Out, c: Out, key: Counter, x: nat, y: nat, z: nat)
    requires Meets(a, key, x) && Meets(b, key, y) && Meets(c, key, z)
    ensures Meets(Then(Then(a, b), c), key, x + y + z)
  {
    ThenMeets(a, b, key, x, y);
    ThenMeets(Then(a, b), c, key, x + y, z);
  }

  lemma DetailMeets(delta: JS, key: Counter)
    ensures Meets(DetailOut(delta), key,
                  match key
                  case DeltaReasoningChars => ReasoningText(delta)
                  case DeltaRefusalChars => Text(delta, "refusal")
                  case ReasoningDetailEntries => Size(delta, "reasoning_details")
                  case _ => 0)
  {
    Reasoning(delta, DeltaReasoningChars, key);
    OneName(delta, "refusal", CHARS, DeltaRefusalChars, key);
    OneName(delta, "reasoning_details", ENTRIES, ReasoningDetailEntries, key);
    var a := MeasureOut(delta, REASONING_FIELDS, CHARS, DeltaReasoningChars);
    var b := MeasureOut(delta, ["refusal"], CHARS, DeltaRefusalChars);
    var c := MeasureOut(delta, ["reasoning_details"], ENTRIES, ReasoningDetailEntries);
    Three(a, b, c, key, if key == DeltaReasoningChars then ReasoningText(delta) else 0,
          if key == DeltaRefusalChars then Text(delta, "refusal") else 0,
          if key == ReasoningDetailEntries then Size(delta, "reasoning_details") else 0);
  }

  lemma DeltaMeets(delta: JS, message: JS, key: Counter)
    ensures Meets(DeltaOut(delta, message), key,
                  if key == MessageContentArrayEntries then Size(message, "content") else DeltaDue(delta, key))
  {
    ContentMeets(delta, message, key);
    DetailMeets(delta, key);
    ToolCallsMeet(delta, DeltaToolEntries, DeltaToolArgumentChars, key);
    var x: nat, y: nat, z: nat := 0, 0, 0;
    match key {
      case DeltaTextChars => x := Text(delta, "content");
      case DeltaContentArrayEntries => x := Size(delta, "content");
      case MessageContentArrayEntries => x := Size(message, "content");
      case DeltaReasoningChars => y := ReasoningText(delta);
      case DeltaRefusalChars => y := Text(delta, "refusal");
      case ReasoningDetailEntries => y := Size(delta, "reasoning_details");
      case DeltaToolEntries => z := Size(delta, "tool_calls");
      case DeltaToolArgumentChars => z := ArgumentText(Entries(Val(delta, "tool_calls")));
      case _ =>
    }
    Three(ContentOut(delta, message), DetailOut(delta), ToolCallsOut(delta, DeltaToolEntries, DeltaToolArgumentChars),
          key, x, y, z);
  }

  lemma MessageToolsMeet(message: JS, key: Counter)
    ensures Meets(MessageToolsOut(message), key,
                  if key == MessageToolArgumentChars then ArgumentText(Entries(Val(message, "tool_calls"))) else 0)
  {
    ToolsMeet(Entries(Val(message, "tool_calls")), MessageToolArgumentChars, key);
  }

  lemma MessageMeets(message: JS, key: Counter)
    ensures Meets(MessageOut(message), key, if key == MessageContentArrayEntries then 0 else MessageDue(message, key))
  {
    var a := MeasureOut(message, ["content"], CHARS, MessageTextChars);
    var b := MeasureOut(message, ["tool_calls"], ENTRIES, MessageToolEntries);
    var c := MeasureOut(message, REASONING_FIELDS, CHARS, MessageReasoningChars);
    var d := MeasureOut(message, ["refusal"], CHARS, MessageRefusalChars);
    OneName(message, "content", CHARS, MessageTextChars, key);
    OneName(message, "tool_calls", ENTRIES, MessageToolEntries, key);
    Reasoning(message, MessageReasoningChars, key);
    Three(a, b, c, key, if key == MessageTextChars then Text(message, "content") else 0,
          if key == MessageToolEntries then Size(message, "tool_calls") else 0,
          if key == MessageReasoningChars then ReasoningText(message) else 0);
    MessageEnds(message, Then(Then(a, b), c), key);
  }

  lemma MessageEnds(message: JS, head: Out, key: Counter)
    requires Meets(head, key,
                   match key
                   case MessageTextChars => Text(message, "content")
                   case MessageToolEntries => Size(message, "tool_calls")
                   case MessageReasoningChars => ReasoningText(message)
                   case _ => 0)
    ensures Meets(Then(Then(head, MeasureOut(message, ["refusal"], CHARS, MessageRefusalChars)), MessageToolsOut(message)),
                  key, if key == MessageContentArrayEntries then 0 else MessageDue(message, key))
  {
    var x: nat := match key
                  case MessageTextChars => Text(message, "content")
                  case MessageToolEntries => Size(message, "tool_calls")
                  case MessageReasoningChars => ReasoningText(message)
                  case _ => 0;
    OneName(message, "refusal", CHARS, MessageRefusalChars, key);
    MessageToolsMeet(message, key);
    Three(head, MeasureOut(message, ["refusal"], CHARS, MessageRefusalChars), MessageToolsOut(message), key, x,
          if key == MessageRefusalChars then Text(message, "refusal") else 0,
          if key == MessageToolArgumentChars then ArgumentText(Entries(Val(message, "tool_calls"))) else 0);
  }

  lemma BodyMeets(choice: JS, key: Counter)
    ensures Meets(BodyOut(choice), key, DeltaDue(Val(choice, "delta"), key) + MessageDue(Val(choice, "message"), key))
  {
    var delta, message := Val(choice, "delta"), Val(choice, "message");
    DeltaMeets(delta, message, key);
    MessageMeets(message, key);
    ThenMeets(DeltaOut(delta, message), MessageOut(message), key,
              if key == MessageContentArrayEntries then Size(message, "content") else DeltaDue(delta, key),
              if key == MessageContentArrayEntries then 0 else MessageDue(message, key));
  }

  lemma NoAddMeets(out: Out, key: Counter)
    requires forall e :: e in out.done ==> !e.Add?
    ensures Meets(out, key, 0)
  {
    NoAddTotal(out.done, key);
  }

  lemma ChoicesMeet(chunk: JS, key: Counter)
    ensures Meets(ChoicesOut(chunk), key, ChoicesDue(chunk, key))
  {
    var choices := Entries(Val(chunk, "choices"));
    if choices != [] {
      var choice := choices[0];
      NoAddMeets(FinishReasonOut(choice), key);
      UsageMeets(choice, true, key);
      BodyMeets(choice, key);
      var due := DeltaDue(Val(choice, "delta"), key) + MessageDue(Val(choice, "message"), key);
      Three(FinishReasonOut(choice), UsageOut(choice, true), BodyOut(choice), key, 0, 0, due);
      OneAdd(PrimaryChoiceCount, 1, key);
      ThenMeets(Out([Add(PrimaryChoiceCount, 1)], true), ChoiceOut(choice), key,
                if key == PrimaryChoiceCount then 1 else 0, due);
    }
  }

  lemma IdsMeet(chunk: JS, wantsId: bool, wantsModel: bool, key: Counter)
    ensures Meets(IdsOut(chunk, wantsId, wantsModel), key, 0)
  {
    NoAddMeets(IdOut(chunk, wantsId), key);
    NoAddMeets(ModelOut(chunk, wantsModel), key);
    ThenMeets(IdOut(chunk, wantsId), ModelOut(chunk, wantsModel), key, 0, 0);
  }

  lemma UsageMeets(o: JS, choice: bool, key: Counter)
    ensures Meets(UsageOut(o, choice), key, 0)
  {
    NoAddMeets(UsageOut(o, choice), key);
  }

  lemma HeadMeets(chunk: JS, wantsId: bool, wantsModel: bool, key: Counter) returns (head: Out)
    ensures Meets(head, key, if key == ChunkCount then 1 else 0)
    ensures Then(head, ChoicesOut(chunk)) == ChunkOut(chunk, wantsId, wantsModel)
    ensures key == ChunkCount ==> Total(head.done, key) == 1
  {
    var first, ids, usage := Out([Add(ChunkCount, 1)], true), IdsOut(chunk, wantsId, wantsModel), UsageOut(chunk, false);
    head := Then(Then(first, ids), usage);
    OneAdd(ChunkCount, 1, key);
    IdsMeet(chunk, wantsId, wantsModel, key);
    UsageMeets(chunk, false, key);
    Three(first, ids, usage, key, if key == ChunkCount then 1 else 0, 0, 0);
    TotalConcat(first.done, ids.done, key);
    TotalConcat(Then(first, ids).done, usage.done, key);
  }

  /** A chunk contributes to every counter at most what it is due, and exactly that if
      none of its reads throws; the chunk itself is counted in any case. */
  lemma ChunkMeets(chunk: JS, wantsId: bool, wantsModel: bool, key: Counter)
    ensures Meets(ChunkOut(chunk, wantsId, wantsModel), key, ChunkDue(chunk, key))
    ensures key == ChunkCount ==> Total(ChunkOut(chunk, wantsId, wantsModel).done, key) == 1
  {
    var head := HeadMeets(chunk, wantsId, wantsModel, key);
    ChoicesMeet(chunk, key);
    ThenMeets(head, ChoicesOut(chunk), key, if key == ChunkCount then 1 else 0, ChoicesDue(chunk, key));
    TotalConcat(head.done, ChoicesOut(chunk).done, key);
  }

  /** None of the chunk's reads throws. */
  predicate Whole(chunk: JS) {
    ChunkOut(chunk, true, true).ok
  }

  lemma WholeWhateverWanted(chunk: JS, wantsId: bool, wantsModel: bool)
    requires Whole(chunk)
    ensures ChunkOut(chunk, wantsId, wantsModel).ok
  {
  }

  lemma {:induction false} ContributionsMeet(chunks: seq<JS>, key: Counter)
    ensures var total := Total(Contributions(EMPTY, chunks), key);
            && total <= StreamDue(chunks, key)
            && ((forall c :: c in chunks ==> Whole(c)) ==> total == StreamDue(chunks, key))
            && (key == ChunkCount ==> total == |chunks|)
  {
    if chunks != [] {
      var init, last := chunks[..|chunks| - 1], chunks[|chunks| - 1];
      ContributionsMeet(init, key);
      var before := Contributions(EMPTY, init);
      var now := ApplyAll(EMPTY, before);
      ChunkMeets(last, now.responseId.None?, now.responseModel.None?, key);
      TotalConcat(before, ChunkOut(last, now.responseId.None?, now.responseModel.None?).done, key);
      if Whole(last) {
        WholeWhateverWanted(last, now.responseId.None?, now.responseModel.None?);
      }
    }
  }

  /** Over any stream no counter exceeds the capped total its chunks are due, and if no
      chunk throws every counter is exactly that. */
  lemma CountersMeetTheTable(chunks: seq<JS>, key: Counter)
    ensures CountOf(SummaryAfter(chunks), key) <= Saturated(StreamDue(chunks, key))
    ensures (forall c :: c in chunks ==> Whole(c)) ==> CountOf(SummaryAfter(chunks), key) == Saturated(StreamDue(chunks, key))
  {
    ContributionsMeet(chunks, key);
    CountersSaturate(Contributions(EMPTY, chunks), key);
  }

  lemma {:induction false} OneChoiceAChunk(chunks: seq<JS>)
    ensures StreamDue(chunks, PrimaryChoiceCount) <= |chunks|
  {
    if chunks != [] {
      OneChoiceAChunk(chunks[..|chunks| - 1]);
    }
  }

  /** After any stream, including chunks that throw midway: every counter is the saturated
      sum of its contributions, every chunk is counted, and no more primary choices than
      chunks are. */
  lemma StreamCounters(chunks: seq<JS>, key: Counter)
    ensures CountOf(SummaryAfter(chunks), key) == Saturated(Total(Contributions(EMPTY, chunks), key))
    ensures CountOf(SummaryAfter(chunks), ChunkCount) == Saturated(|chunks|)
    ensures CountOf(SummaryAfter(chunks), PrimaryChoiceCount) <= CountOf(SummaryAfter(chunks), ChunkCount)
  {
    CountersSaturate(Contributions(EMPTY, chunks), key);
    ContributionsMeet(chunks, ChunkCount);
    CountersSaturate(Contributions(EMPTY, chunks), ChunkCount);
    CountersMeetTheTable(chunks, PrimaryChoiceCount);
    OneChoiceAChunk(chunks);
  }

  // ---------- reports ----------

  /** What a stream has reported: the last finish reason and usages, and whether a usage
      was ever there to read. */
  datatype Reports = Reports(
    reason: Option<string>, chunkSeen: bool, chunkUsage: Option<Usage>, choiceSeen: bool, choiceUsage: Option<Usage>)

  function ReportsOf(s: Summary): Reports {
    Reports(s.finishReason, s.chunkUsageSeen, s.chunkUsage, s.choiceUsageSeen, s.choiceUsage)
  }

  /** The first choice of a chunk, if it has one. */
  function FirstChoice(chunk: JS): Option<JS> {
    var choices := Entries(Val(chunk, "choices"));
    if choices == [] then None else Some(choices[0])
  }

  /** The reads before a chunk's usage return: the id and the model, while they are wanted. */
  predicate ReachesUsage(chunk: JS, wantsId: bool, wantsModel: bool) {
    (wantsId ==> Get(chunk, "id").Got?) && (wantsModel ==> Get(chunk, "model").Got?)
  }

  predicate SeesUsage(o: JS) {
    Present(Val(o, "usage"))
  }

  /** The usage of o was absent, or read to the end. */
  predicate PassesUsage(o: JS) {
    Get(o, "usage").Got? && (SeesUsage(o) ==> UsageOf(Val(o, "usage")).Some?)
  }

  /** The reads before the first choice return, and there is one. */
  predicate ReachesChoice(chunk: JS, wantsId: bool, wantsModel: bool) {
    ReachesUsage(chunk, wantsId, wantsModel) && PassesUsage(chunk) && FirstChoice(chunk).Some?
  }

  function UsageStep(before: Option<Usage>, o: JS): Option<Usage> {
    if SeesUsage(o) && UsageOf(Val(o, "usage")).Some? then UsageOf(Val(o, "usage")) else before
  }

  function ReasonStep(before: Option<string>, choice: JS): Option<string> {
    if Present(Val(choice, "finish_reason")) then Reason(Val(choice, "finish_reason")) else before
  }

  function ChoiceStep(r: Reports, choice: JS): Reports {
    var reported := r.(reason := ReasonStep(r.reason, choice));
    if Get(choice, "finish_reason").Threw? then reported
    else reported.(choiceSeen := r.choiceSeen || SeesUsage(choice), choiceUsage := UsageStep(r.choiceUsage, choice))
  }

  /** What a chunk reports, as far as its reads get. */
  function ChunkStep(r: Reports, chunk: JS, wantsId: bool, wantsModel: bool): Reports {
    var used :=
      if ReachesUsage(chunk, wantsId, wantsModel)
      then r.(chunkSeen := r.chunkSeen || SeesUsage(chunk), chunkUsage := UsageStep(r.chunkUsage, chunk)) else r;
    if ReachesChoice(chunk, wantsId, wantsModel) then ChoiceStep(used, FirstChoice(chunk).value) else used
  }

  predicate WantsId(chunks: seq<JS>) { FirstId(chunks).None? }

  predicate WantsModel(chunks: seq<JS>) { FirstModel(chunks).None? }

  function ReportsAfter(chunks: seq<JS>): Reports {
    if chunks == [] then Reports(None, false, None, false, None)
    else
      var init := chunks[..|chunks| - 1];
      ChunkStep(ReportsAfter(init), chunks[|chunks| - 1], WantsId(init), WantsModel(init))
  }

  lemma {:induction false} SilentKeeps(s: Summary, es: seq<Effect>)
    requires forall e :: e in es ==> e.Add? || e.OfferId? || e.OfferModel?
    ensures ReportsOf(ApplyAll(s, es)) == ReportsOf(s)
  {
    if es != [] {
      assert es[|es| - 1] in es;
      SilentKeeps(s, es[..|es| - 1]);
    }
  }

  lemma UsageReports(s: Summary, o: JS, choice: bool)
    ensures UsageOut(o, choice).ok <==> PassesUsage(o)
    ensures ReportsOf(ApplyAll(s, UsageOut(o, choice).done)) ==
            if choice
            then ReportsOf(s).(choiceSeen := s.choiceUsageSeen || SeesUsage(o), choiceUsage := UsageStep(s.choiceUsage, o))
            else ReportsOf(s).(chunkSeen := s.chunkUsageSeen || SeesUsage(o), chunkUsage := UsageStep(s.chunkUsage, o))
  {
    var es := UsageOut(o, choice).done;
    if |es| == 2 {
      assert es[..1] == [SeeUsage(choice)];
      OneEffect(s, es[..1]);
    } else {
      OneEffect(s, es);
    }
  }

  lemma ThenApplies(s: Summary, a: Out, b: Out)
    ensures ApplyAll(s, Then(a, b).done) == if a.ok then ApplyAll(ApplyAll(s, a.done), b.done) else ApplyAll(s, a.done)
  {
    ApplyConcat(s, a.done, b.done);
  }

  lemma ReasonReports(s: Summary, choice: JS)
    ensures FinishReasonOut(choice).ok <==> Get(choice, "finish_reason").Got?
    ensures ReportsOf(ApplyAll(s, FinishReasonOut(choice).done)) ==
            ReportsOf(s).(reason := ReasonStep(s.finishReason, choice))
  {
    OneEffect(s, FinishReasonOut(choice).done);
  }

  lemma BodyReports(s: Summary, choice: JS)
    ensures ReportsOf(ApplyAll(s, BodyOut(choice).done)) == ReportsOf(s)
  {
    BodyAdds(choice);
    SilentKeeps(s, BodyOut(choice).done);
  }

  lemma ChoiceReports(s: Summary, choice: JS)
    ensures ReportsOf(ApplyAll(s, ChoiceOut(choice).done)) == ChoiceStep(ReportsOf(s), choice)
  {
    var reason, usage := FinishReasonOut(choice), UsageOut(choice, true);
    ThenApplies(s, Then(reason, usage), BodyOut(choice));
    ThenApplies(s, reason, usage);
    ReasonReports(s, choice);
    UsageReports(ApplyAll(s, reason.done), choice, true);
    BodyReports(ApplyAll(s, Then(reason, usage).done), choice);
  }

  lemma ChoicesReport(s: Summary, chunk: JS)
    ensures ReportsOf(ApplyAll(s, ChoicesOut(chunk).done)) ==
            if FirstChoice(chunk).Some? then ChoiceStep(ReportsOf(s), FirstChoice(chunk).value) else ReportsOf(s)
  {
    if FirstChoice(chunk).Some? {
      var primary, choice := Out([Add(PrimaryChoiceCount, 1)], true), FirstChoice(chunk).value;
      ThenApplies(s, primary, ChoiceOut(choice));
      SilentKeeps(s, primary.done);
      ChoiceReports(ApplyAll(s, primary.done), choice);
    }
  }

  lemma HeadReports(s: Summary, chunk: JS, wantsId: bool, wantsModel: bool) returns (head: Out)
    ensures head == Then(Out([Add(ChunkCount, 1)], true), IdsOut(chunk, wantsId, wantsModel))
    ensures head.ok <==> ReachesUsage(chunk, wantsId, wantsModel)
    ensures ReportsOf(ApplyAll(s, head.done)) == ReportsOf(s)
  {
    head := Then(Out([Add(ChunkCount, 1)], true), IdsOut(chunk, wantsId, wantsModel));
    SilentKeeps(s, head.done);
  }

  /** One chunk, however far it gets. */
  lemma ChunkReports(s: Summary, chunk: JS, wantsId: bool, wantsModel: bool)
    ensures ReportsOf(ApplyAll(s, ChunkOut(chunk, wantsId, wantsModel).done)) ==
            ChunkStep(ReportsOf(s), chunk, wantsId, wantsModel)
  {
    var usage, choices := UsageOut(chunk, false), ChoicesOut(chunk);
    var head := HeadReports(s, chunk, wantsId, wantsModel);
    ThenApplies(s, Then(head, usage), choices);
    ThenApplies(s, head, usage);
    UsageReports(ApplyAll(s, head.done), chunk, false);
    ChoicesReport(ApplyAll(s, Then(head, usage).done), chunk);
  }

  lemma {:induction false} ReportsFold(chunks: seq<JS>)
    ensures ReportsOf(SummaryAfter(chunks)) == ReportsAfter(chunks)
  {
    if chunks != [] {
      var init, last := chunks[..|chunks| - 1], chunks[|chunks| - 1];
      ReportsFold(init);
      FirstIdentifiersWin(init);
      var now := SummaryAfter(init);
      ChunkReports(now, last, WantsId(init), WantsModel(init));
      ApplyConcat(EMPTY, Contributions(EMPTY, init), ChunkOut(last, WantsId(init), WantsModel(init)).done);
    }
  }

  /** Chunk k showed a usage, even if reading it then threw. */
  predicate ShowsUsage(chunks: seq<JS>, k: int) {
    0 <= k < |chunks| && ReachesUsage(chunks[k], WantsId(chunks[..k]), WantsModel(chunks[..k])) && SeesUsage(chunks[k])
  }

  predicate ShowsChoiceUsage(chunks: seq<JS>, k: int) {
    && 0 <= k < |chunks| && ReachesChoice(chunks[k], WantsId(chunks[..k]), WantsModel(chunks[..k]))
    && Get(FirstChoice(chunks[k]).value, "finish_reason").Got? && SeesUsage(FirstChoice(chunks[k]).value)
  }

  lemma SeenStep(chunks: seq<JS>)
    requires chunks != []
    ensures ReportsAfter(chunks).chunkSeen <==>
            ReportsAfter(chunks[..|chunks| - 1]).chunkSeen || ShowsUsage(chunks, |chunks| - 1)
  {
  }

  lemma ChoiceSeenStep(chunks: seq<JS>)
    requires chunks != []
    ensures ReportsAfter(chunks).choiceSeen <==>
            ReportsAfter(chunks[..|chunks| - 1]).choiceSeen || ShowsChoiceUsage(chunks, |chunks| - 1)
  {
  }

  lemma ShownBefore(chunks: seq<JS>, k: int)
    requires chunks != [] && k < |chunks| - 1
    ensures ShowsUsage(chunks[..|chunks| - 1], k) <==> ShowsUsage(chunks, k)
    ensures ShowsChoiceUsage(chunks[..|chunks| - 1], k) <==> ShowsChoiceUsage(chunks, k)
  {
    if 0 <= k {
      assert chunks[..|chunks| - 1][..k] == chunks[..k];
    }
  }

  lemma {:induction false} SeenUsage(chunks: seq<JS>)
    ensures ReportsAfter(chunks).chunkSeen <==> exists k :: ShowsUsage(chunks, k)
  {
    if chunks != [] {
      var init := chunks[..|chunks| - 1];
      SeenUsage(init);
      SeenStep(chunks);
      forall k | k < |chunks| - 1 ensures ShowsUsage(init, k) <==> ShowsUsage(chunks, k) {
        ShownBefore(chunks, k);
      }
    }
  }

  lemma {:induction false} SeenChoiceUsage(chunks: seq<JS>)
    ensures ReportsAfter(chunks).choiceSeen <==> exists k :: ShowsChoiceUsage(chunks, k)
  {
    if chunks != [] {
      var init := chunks[..|chunks| - 1];
      SeenChoiceUsage(init);
      ChoiceSeenStep(chunks);
      forall k | k < |chunks| - 1 ensures ShowsChoiceUsage(init, k) <==> ShowsChoiceUsage(chunks, k) {
        ShownBefore(chunks, k);
      }
    }
  }

  /** A usage is recorded as seen exactly when some chunk of the stream showed one. */
  lemma SeenUsageStays(chunks: seq<JS>)
    ensures SummaryAfter(chunks).chunkUsageSeen <==> exists k :: ShowsUsage(chunks, k)
    ensures SummaryAfter(chunks).choiceUsageSeen <==> exists k :: ShowsChoiceUsage(chunks, k)
  {
    ReportsFold(chunks);
    SeenUsage(chunks);
    SeenChoiceUsage(chunks);
  }

  /** The usage chunk k gave: None if there was none, or its reads did not get through it. */
  function UsageGiven(chunks: seq<JS>, k: int): Option<Usage> {
    if ShowsUsage(chunks, k) then UsageOf(Val(chunks[k], "usage")) else None
  }

  function ChoiceUsageGiven(chunks: seq<JS>, k: int): Option<Usage> {
    if ShowsChoiceUsage(chunks, k) then UsageOf(Val(FirstChoice(chunks[k]).value, "usage")) else None
  }

  function ReasonGiven(chunks: seq<JS>, k: int): Option<string> {
    if 0 <= k < |chunks| && ReachesChoice(chunks[k], WantsId(chunks[..k]), WantsModel(chunks[..k]))
    then Reason(Val(FirstChoice(chunks[k]).value, "finish_reason")) else None
  }

  function UsagesGiven(chunks: seq<JS>): seq<Option<Usage>> {
    seq(|chunks|, k requires 0 <= k < |chunks| => UsageGiven(chunks, k))
  }

  function ChoiceUsagesGiven(chunks: seq<JS>): seq<Option<Usage>> {
    seq(|chunks|, k requires 0 <= k < |chunks| => ChoiceUsageGiven(chunks, k))
  }

  function ReasonsGiven(chunks: seq<JS>): seq<Option<string>> {
    seq(|chunks|, k requires 0 <= k < |chunks| => ReasonGiven(chunks, k))
  }

  /** Position k of xs holds something, and no later one does. */
  predicate LastAt<T>(xs: seq<Option<T>>, k: int) {
    0 <= k < |xs| && xs[k].Some? && forall j :: k < j < |xs| ==> xs[j].None?
  }

  /** x is what the last position of xs that holds something holds; None if none does. */
  ghost predicate LastOf<T>(xs: seq<Option<T>>, x: Option<T>) {
    if x.None? then forall k :: 0 <= k < |xs| ==> xs[k].None?
    else exists k :: LastAt(xs, k) && xs[k] == x
  }

  lemma LastSnoc<T>(xs: seq<Option<T>>, x: Option<T>, y: Option<T>)
    requires LastOf(xs, x)
    ensures LastOf(xs + [y], if y.Some? then y else x)
  {
    if y.Some? {
      assert LastAt(xs + [y], |xs|);
    } else if x.Some? {
      var k :| LastAt(xs, k) && xs[k] == x;
      assert LastAt(xs + [y], k);
    }
  }

  lemma GivenBefore(chunks: seq<JS>, k: int)
    requires 0 <= k < |chunks| - 1
    ensures UsageGiven(chunks[..|chunks| - 1], k) == UsageGiven(chunks, k)
    ensures ChoiceUsageGiven(chunks[..|chunks| - 1], k) == ChoiceUsageGiven(chunks, k)
    ensures ReasonGiven(chunks[..|chunks| - 1], k) == ReasonGiven(chunks, k)
  {
    assert chunks[..|chunks| - 1][..k] == chunks[..k];
  }

  lemma GivenSnoc(chunks: seq<JS>)
    requires chunks != []
    ensures var init, n := chunks[..|chunks| - 1], |chunks| - 1;
            && UsagesGiven(chunks) == UsagesGiven(init) + [UsageGiven(chunks, n)]
            && ChoiceUsagesGiven(chunks) == ChoiceUsagesGiven(init) + [ChoiceUsageGiven(chunks, n)]
            && ReasonsGiven(chunks) == ReasonsGiven(init) + [ReasonGiven(chunks, n)]
  {
    var init := chunks[..|chunks| - 1];
    forall k | 0 <= k < |chunks| - 1
      ensures UsageGiven(init, k) == UsageGiven(chunks, k) && ChoiceUsageGiven(init, k) == ChoiceUsageGiven(chunks, k)
      ensures ReasonGiven(init, k) == ReasonGiven(chunks, k)
    {
      GivenBefore(chunks, k);
    }
  }

  lemma StepUsage(r: Reports, chunk: JS, wantsId: bool, wantsModel: bool)
    ensures ChunkStep(r, chunk, wantsId, wantsModel).chunkUsage ==
            if ReachesUsage(chunk, wantsId, wantsModel) then UsageStep(r.chunkUsage, chunk) else r.chunkUsage
  {
  }

  lemma StepReason(r: Reports, chunk: JS, wantsId: bool, wantsModel: bool)
    ensures ChunkStep(r, chunk, wantsId, wantsModel).reason ==
            if ReachesChoice(chunk, wantsId, wantsModel) then ReasonStep(r.reason, FirstChoice(chunk).value) else r.reason
  {
  }

  lemma UsageStepGiven(chunks: seq<JS>)
    requires chunks != []
    ensures var given := UsageGiven(chunks, |chunks| - 1);
            ReportsAfter(chunks).chunkUsage ==
            if given.Some? then given else ReportsAfter(chunks[..|chunks| - 1]).chunkUsage
  {
    var init, last := chunks[..|chunks| - 1], chunks[|chunks| - 1];
    StepUsage(ReportsAfter(init), last, WantsId(init), WantsModel(init));
  }

  lemma ChoiceUsageStepGiven(chunks: seq<JS>)
    requires chunks != []
    ensures var given := ChoiceUsageGiven(chunks, |chunks| - 1);
            ReportsAfter(chunks).choiceUsage ==
            if given.Some? then given else ReportsAfter(chunks[..|chunks| - 1]).choiceUsage
  {
  }

  lemma ReasonStepGiven(chunks: seq<JS>)
    requires chunks != []
    ensures var given := ReasonGiven(chunks, |chunks| - 1);
            ReportsAfter(chunks).reason == if given.Some? then given else ReportsAfter(chunks[..|chunks| - 1]).reason
  {
    var init, last := chunks[..|chunks| - 1], chunks[|chunks| - 1];
    StepReason(ReportsAfter(init), last, WantsId(init), WantsModel(init));
  }

  lemma {:induction false} LastGiven(chunks: seq<JS>)
    ensures LastOf(UsagesGiven(chunks), ReportsAfter(chunks).chunkUsage)
    ensures LastOf(ChoiceUsagesGiven(chunks), ReportsAfter(chunks).choiceUsage)
    ensures LastOf(ReasonsGiven(chunks), ReportsAfter(chunks).reason)
  {
    if chunks != [] {
      var init, n := chunks[..|chunks| - 1], |chunks| - 1;
      LastGiven(init);
      GivenSnoc(chunks);
      UsageStepGiven(chunks);
      ChoiceUsageStepGiven(chunks);
      ReasonStepGiven(chunks);
      LastSnoc(UsagesGiven(init), ReportsAfter(init).chunkUsage, UsageGiven(chunks, n));
      LastSnoc(ChoiceUsagesGiven(init), ReportsAfter(init).choiceUsage, ChoiceUsageGiven(chunks, n));
      LastSnoc(ReasonsGiven(init), ReportsAfter(init).reason, ReasonGiven(chunks, n));
    }
  }

  /** Over any stream, throwing chunks included: the finish reason and the usages are those
      of the last chunk whose reads got as far as giving them, and absent if none did. */
  lemma LastReportsWin(chunks: seq<JS>)
    ensures ReportsOf(SummaryAfter(chunks)) == ReportsAfter(chunks)
    ensures LastOf(UsagesGiven(chunks), SummaryAfter(chunks).chunkUsage)
    ensures LastOf(ChoiceUsagesGiven(chunks), SummaryAfter(chunks).choiceUsage)
    ensures LastOf(ReasonsGiven(chunks), SummaryAfter(chunks).finishReason)
  {
    ReportsFold(chunks);
    LastGiven(chunks);
  }

  function PlainStep(r: Reports, chunk: JS): Reports {
    var used := r.(chunkSeen := r.chunkSeen || SeesUsage(chunk), chunkUsage := UsageStep(r.chunkUsage, chunk));
    if FirstChoice(chunk).None? then used
    else
      var choice := FirstChoice(chunk).value;
      used.(reason := ReasonStep(r.reason, choice), choiceSeen := r.choiceSeen || SeesUsage(choice),
            choiceUsage := UsageStep(r.choiceUsage, choice))
  }

  function PlainReports(chunks: seq<JS>): Reports {
    if chunks == [] then Reports(None, false, None, false, None)
    else PlainStep(PlainReports(chunks[..|chunks| - 1]), chunks[|chunks| - 1])
  }

  lemma WholePasses(chunk: JS)
    requires Whole(chunk)
    ensures ReachesUsage(chunk, true, true) && UsageOut(chunk, false).ok && ChoicesOut(chunk).ok
  {
    var head := HeadReports(EMPTY, chunk, true, true);
    assert ChunkOut(chunk, true, true) == Then(Then(head, UsageOut(chunk, false)), ChoicesOut(chunk));
  }

  lemma WholeChoice(choice: JS)
    requires ChoiceOut(choice).ok
    ensures Get(choice, "finish_reason").Got?
  {
    ReasonReports(EMPTY, choice);
  }

  lemma WholeStep(r: Reports, chunk: JS, wantsId: bool, wantsModel: bool)
    requires Whole(chunk)
    ensures ChunkStep(r, chunk, wantsId, wantsModel) == PlainStep(r, chunk)
  {
    WholePasses(chunk);
    UsageReports(EMPTY, chunk, false);
    if FirstChoice(chunk).Some? {
      var choice := FirstChoice(chunk).value;
      assert ChoicesOut(chunk) == Then(Out([Add(PrimaryChoiceCount, 1)], true), ChoiceOut(choice));
      WholeChoice(choice);
    }
  }

  lemma {:induction false} WholeFold(chunks: seq<JS>)
    requires forall c :: c in chunks ==> Whole(c)
    ensures ReportsAfter(chunks) == PlainReports(chunks)
  {
    if chunks != [] {
      var init, last := chunks[..|chunks| - 1], chunks[|chunks| - 1];
      WholeFold(init);
      WholeStep(ReportsAfter(init), last, WantsId(init), WantsModel(init));
    }
  }

  /** What a chunk carries, whatever its other reads do. */
  function UsageCarried(chunk: JS): Option<Usage> {
    if SeesUsage(chunk) then UsageOf(Val(chunk, "usage")) else None
  }

  function ChoiceUsageCarried(chunk: JS): Option<Usage> {
    if FirstChoice(chunk).Some? then UsageCarried(FirstChoice(chunk).value) else None
  }

  function ReasonCarried(chunk: JS): Option<string> {
    if FirstChoice(chunk).Some? then Reason(Val(FirstChoice(chunk).value, "finish_reason")) else None
  }

  function Each<T>(chunks: seq<JS>, f: JS -> Option<T>): seq<Option<T>> {
    seq(|chunks|, k requires 0 <= k < |chunks| => f(chunks[k]))
  }

  /** A chunk that does not throw gives whatever it carries. */
  lemma WholeGives(chunks: seq<JS>, k: int)
    requires 0 <= k < |chunks| && Whole(chunks[k])
    ensures UsageGiven(chunks, k) == UsageCarried(chunks[k])
    ensures ChoiceUsageGiven(chunks, k) == ChoiceUsageCarried(chunks[k])
    ensures ReasonGiven(chunks, k) == ReasonCarried(chunks[k])
  {
    WholePasses(chunks[k]);
    UsageReports(EMPTY, chunks[k], false);
    if FirstChoice(chunks[k]).Some? {
      var choice := FirstChoice(chunks[k]).value;
      assert ChoicesOut(chunks[k]) == Then(Out([Add(PrimaryChoiceCount, 1)], true), ChoiceOut(choice));
      WholeChoice(choice);
    }
  }

  lemma UsagesCarried(chunks: seq<JS>)
    requires forall c :: c in chunks ==> Whole(c)
    ensures UsagesGiven(chunks) == Each(chunks, UsageCarried)
  {
    forall k | 0 <= k < |chunks| ensures UsageGiven(chunks, k) == UsageCarried(chunks[k]) {
      WholeGives(chunks, k);
    }
  }

  lemma ChoiceUsagesCarried(chunks: seq<JS>)
    requires forall c :: c in chunks ==> Whole(c)
    ensures ChoiceUsagesGiven(chunks) == Each(chunks, ChoiceUsageCarried)
  {
    forall k | 0 <= k < |chunks| ensures ChoiceUsageGiven(chunks, k) == ChoiceUsageCarried(chunks[k]) {
      WholeGives(chunks, k);
    }
  }

  lemma ReasonsCarried(chunks: seq<JS>)
    requires forall c :: c in chunks ==> Whole(c)
    ensures ReasonsGiven(chunks) == Each(chunks, ReasonCarried)
  {
    forall k | 0 <= k < |chunks| ensures ReasonGiven(chunks, k) == ReasonCarried(chunks[k]) {
      WholeGives(chunks, k);
    }
  }

  /** If no chunk throws, the reports are simply those of the last chunk that carries them. */
  lemma LastReportsOfTheStream(chunks: seq<JS>)
    requires forall c :: c in chunks ==> Whole(c)
    ensures ReportsOf(SummaryAfter(chunks)) == PlainReports(chunks)
    ensures LastOf(Each(chunks, UsageCarried), SummaryAfter(chunks).chunkUsage)
    ensures LastOf(Each(chunks, ChoiceUsageCarried), SummaryAfter(chunks).choiceUsage)
    ensures LastOf(Each(chunks, ReasonCarried), SummaryAfter(chunks).finishReason)
  {
    LastReportsWin(chunks);
    WholeFold(chunks);
    UsagesCarried(chunks);
    ChoiceUsagesCarried(chunks);
    ReasonsCarried(chunks);
  }

  // ---------- what a single value gives ----------

  /** By code: 0 to 9, A to Z, a to z. */
  predicate LetterOrDigit(c: char) {
    48 <= c as int <= 57 || 65 <= c as int <= 90 || 97 <= c as int <= 122
  }

  /** An identifier is a text of 1 to 160 letters, digits and the five marks, beginning with
      a letter or digit; a number is an integer from 0 to 2^53 - 1; everything else counts
      as missing, or as empty. */
  lemma ValuesExactly(v: JS, s: string, n: nat)
    ensures Identifier(v) == Some(s) <==>
            && v == Str(s) && 1 <= |s| <= 160 && LetterOrDigit(s[0])
            && forall c :: c in s ==> LetterOrDigit(c) || c in "._:/-"
    ensures Number(v) == Some(n) <==> v == Integer(n) && n <= 9007199254740991
    ensures Chars(Str(s)) == |s| && (!v.Str? ==> Chars(v) == 0)
    ensures Entries(Arr([v])) == [v] && (!v.Arr? ==> Entries(v) == [])
    ensures Present(v) <==> v != Null && v != Undefined
  {
  }

  // ---------- what a report says ----------

  /** Which property of the reported value each number of a usage comes from. */
  predicate UsageShows(u: Usage, v: JS) {
    && u.input == Number(Val(v, "prompt_tokens"))
    && u.output == Number(Val(v, "completion_tokens"))
    && u.total == Number(Val(v, "total_tokens"))
    && u.reasoning == Number(Val(Val(v, "completion_tokens_details"), "reasoning_tokens"))
  }

  /** A usage is taken whole, or not at all if one of its five reads throws. */
  lemma UsageOfExactly(v: JS)
    ensures UsageOf(v).Some? <==>
            && (forall name :: name in {"prompt_tokens", "completion_tokens", "total_tokens", "completion_tokens_details"} ==>
                  Get(v, name).Got?)
            && Get(Val(v, "completion_tokens_details"), "reasoning_tokens").Got?
    ensures UsageOf(v).Some? ==> UsageShows(UsageOf(v).value, v)
  {
  }

  /** The usage recorded after a stream shows the numbers of the last chunk that gave one. */
  lemma RecordedUsageShows(chunks: seq<JS>, k: int)
    requires LastAt(UsagesGiven(chunks), k)
    ensures SummaryAfter(chunks).chunkUsage.Some?
    ensures UsageShows(SummaryAfter(chunks).chunkUsage.value, Val(chunks[k], "usage"))
  {
    LastReportsWin(chunks);
    TheLast(UsagesGiven(chunks), SummaryAfter(chunks).chunkUsage, k);
    UsageOfExactly(Val(chunks[k], "usage"));
  }

  /** The same for the usage of the first choice. */
  lemma RecordedChoiceUsageShows(chunks: seq<JS>, k: int)
    requires LastAt(ChoiceUsagesGiven(chunks), k)
    ensures SummaryAfter(chunks).choiceUsage.Some? && FirstChoice(chunks[k]).Some?
    ensures UsageShows(SummaryAfter(chunks).choiceUsage.value, Val(FirstChoice(chunks[k]).value, "usage"))
  {
    LastReportsWin(chunks);
    TheLast(ChoiceUsagesGiven(chunks), SummaryAfter(chunks).choiceUsage, k);
    UsageOfExactly(Val(FirstChoice(chunks[k]).value, "usage"));
  }

  lemma TheLast<T>(xs: seq<Option<T>>, x: Option<T>, k: int)
    requires LastOf(xs, x) && LastAt(xs, k)
    ensures x == xs[k]
  {
    assert x.Some?;
    var j :| LastAt(xs, j) && xs[j] == x;
    assert j == k;
  }

  /** The finish reason recorded is the text of the last one given if it is one of the eight
      known ones, and "other" if it is anything else that is neither null nor undefined. */
  lemma RecordedReasonShows(chunks: seq<JS>, k: int)
    requires LastAt(ReasonsGiven(chunks), k)
    ensures FirstChoice(chunks[k]).Some?
    ensures var v := Val(FirstChoice(chunks[k]).value, "finish_reason");
            && v != Null && v != Undefined
            && SummaryAfter(chunks).finishReason ==
               Some(if v.Str? && v.s in {"stop", "length", "tool_calls", "function_call", "content_filter", "toolUse",
                                         "error", "aborted"}
                    then v.s else "other")
  {
    LastReportsWin(chunks);
    TheLast(ReasonsGiven(chunks), SummaryAfter(chunks).finishReason, k);
  }
}
