/** The one line the collector writes, and why its length does not depend on the stream. */
module StreamRecord {
  import opened Options
  import opened Decimal
  import opened StreamMetadata
  import opened StreamCollector

  datatype Json =
    | JNull
    | JBool(b: bool)
    | JNum(n: nat)
    | JStr(s: string)
    | JObj(fields: seq<Field>)

  datatype Field = F(key: string, value: Json)

  function HexDigit(d: nat): char
    requires d < 16
  {
    "0123456789abcdef"[d]
  }

  /** A character inside a JSON string. */
  function Escaped(c: char): string {
    if c == '"' then ['\\', '"']
    else if c == '\\' then ['\\', '\\']
    else if c == '\n' then "\\n"
    else if c == '\r' then "\\r"
    else if c == '\t' then "\\t"
    else if c == 8 as char then "\\b"
    else if c == 12 as char then "\\f"
    else if c < ' ' then "\\u00" + [HexDigit(c as nat / 16), HexDigit(c as nat % 16)]
    else [c]
  }

  function Quoted(s: string): string {
    "\"" + EscapedText(s) + "\""
  }

  function EscapedText(s: string): string {
    if s == [] then [] else Escaped(s[0]) + EscapedText(s[1..])
  }

  /** Printable ASCII that is written as it is. */
  predicate Plain(s: string) {
    forall c :: c in s ==> ' ' <= c <= '~' && c != '"' && c != '\\'
  }

  lemma {:induction false} PlainEscapes(s: string)
    requires Plain(s)
    ensures EscapedText(s) == s
  {
    if s != [] {
      var rest := s[1..];
      assert s[0] in s;
      PlainChar(s[0]);
      assert forall c :: c in rest ==> c in s;
      PlainEscapes(rest);
      assert [s[0]] + rest == s;
    }
  }

  lemma PlainChar(c: char)
    requires ' ' <= c <= '~' && c != '"' && c != '\\'
    ensures Escaped(c) == [c]
  {
  }

  lemma PlainLength(s: string)
    requires Plain(s)
    ensures |Print(JStr(s))| == |s| + 2
  {
    PlainEscapes(s);
  }

  /** JSON.stringify without indentation; the keys are identifiers. */
  function Print(j: Json): string
    decreases j, 0
  {
    match j
    case JNull => "null"
    case JBool(b) => if b then "true" else "false"
    case JNum(n) => Digits(n)
    case JStr(s) => Quoted(s)
    case JObj(fields) => "{" + PrintFields(fields) + "}"
  }

  function PrintField(f: Field): string
    decreases f, 0
  {
    "\"" + f.key + "\":" + Print(f.value)
  }

  function PrintFields(fields: seq<Field>): string
    decreases fields, 0
  {
    if fields == [] then ""
    else if |fields| == 1 then PrintField(fields[0])
    else PrintField(fields[0]) + "," + PrintFields(fields[1..])
  }

  function OptNum(n: Option<nat>): Json { if n.Some? then JNum(n.value) else JNull }

  function OptStr(s: Option<string>): Json { if s.Some? then JStr(s.value) else JNull }

  function UsageJson(u: Option<Usage>): Json {
    if u.None? then JNull
    else JObj([F("input", OptNum(u.value.input)), F("output", OptNum(u.value.output)),
               F("total", OptNum(u.value.total)), F("reasoning", OptNum(u.value.reasoning))])
  }

  function BlocksJson(b: Option<Blocks>): Json {
    if b.None? then JNull
    else JObj([F("text", JNum(b.value.text)), F("thinking", JNum(b.value.thinking)),
               F("toolCall", JNum(b.value.toolCall)), F("stopReason", OptStr(b.value.stopReason))])
  }

  function RequestJson(r: Option<Request>): Json {
    if r.None? then JNull
    else JObj([F("model", OptStr(r.value.model)), F("maxTokens", OptNum(r.value.maxTokens)),
               F("maxCompletionTokens", OptNum(r.value.maxCompletionTokens)), F("includeUsage", JBool(r.value.includeUsage)),
               F("messageCount", JNum(r.value.messageCount)), F("toolCount", JNum(r.value.toolCount))])
  }

  function CountJson(s: Summary, key: Counter): Json { JNum(CountOf(s, key)) }

  const EVENT := "openai_stream_metadata"

  function HeadFields(event: string, r: Record): seq<Field> {
    [F("event", JStr(event)), F("schemaVersion", JNum(2)),
     F("emitReasoning", if r.emitReasoning.Some? then JBool(r.emitReasoning.value) else JNull),
     F("startedAt", JStr(r.startedAt))]
  }

  function ModelFields(r: Record): seq<Field> {
    [F("requestedModel", OptStr(r.requestedModel)), F("responseId", OptStr(r.summary.responseId)),
     F("responseModel", OptStr(r.summary.responseModel)), F("request", RequestJson(r.request))]
  }

  function UsageFields(s: Summary): seq<Field> {
    [F("chunkCount", CountJson(s, ChunkCount)), F("primaryChoiceCount", CountJson(s, PrimaryChoiceCount)),
     F("finishReason", OptStr(s.finishReason)),
     F("chunkUsageSeen", JBool(s.chunkUsageSeen)), F("choiceUsageSeen", JBool(s.choiceUsageSeen)),
     F("chunkUsage", UsageJson(s.chunkUsage)), F("choiceUsage", UsageJson(s.choiceUsage))]
  }

  function DeltaFields(s: Summary): seq<Field> {
    [F("deltaTextChars", CountJson(s, DeltaTextChars)), F("deltaReasoningChars", CountJson(s, DeltaReasoningChars)),
     F("deltaRefusalChars", CountJson(s, DeltaRefusalChars)),
     F("deltaContentArrayEntries", CountJson(s, DeltaContentArrayEntries)),
     F("messageContentArrayEntries", CountJson(s, MessageContentArrayEntries)),
     F("deltaToolEntries", CountJson(s, DeltaToolEntries)), F("deltaToolArgumentChars", CountJson(s, DeltaToolArgumentChars))]
  }

  function MessageFields(s: Summary): seq<Field> {
    [F("messageTextChars", CountJson(s, MessageTextChars)), F("messageToolEntries", CountJson(s, MessageToolEntries)),
     F("messageReasoningChars", CountJson(s, MessageReasoningChars)),
     F("messageRefusalChars", CountJson(s, MessageRefusalChars)),
     F("messageToolArgumentChars", CountJson(s, MessageToolArgumentChars)),
     F("reasoningDetailEntries", CountJson(s, ReasoningDetailEntries))]
  }

  /** The summary object, its fields in the order they are created in. */
  function RecordJson(r: Record): Json {
    JObj(HeadFields(EVENT, r) + ModelFields(r) + UsageFields(r.summary) + DeltaFields(r.summary) + MessageFields(r.summary)
         + LastFields(r))
  }

  // ---------- what can be in a record ----------

  /** No array is longer than the engine allows. */
  const MAX_ARRAY := 4294967295

  predicate SafeNum(n: Option<nat>) { n.Some? ==> n.value <= MAX_SAFE_INTEGER }

  predicate ShortText(s: Option<string>) { s.Some? ==> |s.value| <= 160 && Plain(s.value) }

  predicate SafeUsage(u: Option<Usage>) {
    u.Some? ==> SafeNum(u.value.input) && SafeNum(u.value.output) && SafeNum(u.value.total) && SafeNum(u.value.reasoning)
  }

  predicate SafeBlocks(b: Option<Blocks>) {
    b.Some? ==> b.value.text <= MAX_ARRAY && b.value.thinking <= MAX_ARRAY && b.value.toolCall <= MAX_ARRAY
                && ShortText(b.value.stopReason)
  }

  predicate SafeRequest(r: Option<Request>) {
    r.Some? ==> ShortText(r.value.model) && SafeNum(r.value.maxTokens) && SafeNum(r.value.maxCompletionTokens)
                && r.value.messageCount <= MAX_ARRAY && r.value.toolCount <= MAX_ARRAY
  }

  predicate SafeSummary(s: Summary) {
    && (forall k :: k in s.counts ==> s.counts[k] <= MAX_SAFE_INTEGER)
    && ShortText(s.responseId) && ShortText(s.responseModel) && ShortText(s.finishReason)
    && SafeUsage(s.chunkUsage) && SafeUsage(s.choiceUsage)
  }

  /** What toISOString gives: at most 27 characters, none of which needs an escape. */
  predicate Timestamp(s: string) {
    |s| <= 27 && Plain(s)
  }

  predicate SafeRecord(r: Record) {
    && Timestamp(r.startedAt) && ShortText(r.requestedModel) && SafeRequest(r.request) && SafeSummary(r.summary)
    && SafeBlocks(r.beforeNormalization) && SafeBlocks(r.final)
  }

  /** The arrays the collector measures directly are within the engine's limit. */
  predicate Sized(call: Call) {
    match call
    case CallRequest(p) => SizedAt(p, "messages") && SizedAt(p, "tools")
    case CallBeforeNormalization(o) => SizedAt(o, "content")
    case CallFinish(o) => SizedAt(o, "content")
    case _ => true
  }

  predicate SizedAt(v: JS, name: string) {
    Get(v, name).Got? ==> |Entries(Get(v, name).v)| <= MAX_ARRAY
  }

  predicate SafeEffect(e: Effect) {
    match e
    case OfferId(id) => ShortText(id)
    case OfferModel(model) => ShortText(model)
    case SetFinishReason(reason) => ShortText(reason)
    case SetUsage(_, usage) => SafeUsage(Some(usage))
    case _ => true
  }

  predicate SafeEffects(es: seq<Effect>) {
    forall e :: e in es ==> SafeEffect(e)
  }

  lemma {:induction false} SafeApply(s: Summary, es: seq<Effect>)
    requires SafeSummary(s) && SafeEffects(es)
    ensures SafeSummary(ApplyAll(s, es))
  {
    if es != [] {
      assert es[|es| - 1] in es;
      SafeApply(s, es[..|es| - 1]);
      SafeApplyOne(ApplyAll(s, es[..|es| - 1]), es[|es| - 1]);
    }
  }

  lemma SafeApplyOne(s: Summary, e: Effect)
    requires SafeSummary(s) && SafeEffect(e)
    ensures SafeSummary(ApplyOne(s, e))
  {
  }

  /** Whatever text an identifier or a reason was read from, its characters are plain. */
  lemma IdentifierIsPlain(v: JS)
    ensures ShortText(Identifier(v))
  {
  }

  lemma ReasonIsPlain(v: JS)
    ensures ShortText(Reason(v))
  {
    if Present(v) {
      if v.Str? && KnownReason(v.s) {
        KnownIsPlain(v.s);
      } else {
        assert Plain("other");
      }
    }
  }

  lemma KnownIsPlain(s: string)
    requires KnownReason(s)
    ensures |s| <= 160 && Plain(s)
  {
    assert Plain("stop") && Plain("length") && Plain("tool_calls") && Plain("function_call");
    assert Plain("content_filter") && Plain("toolUse") && Plain("error") && Plain("aborted");
  }

  lemma ReportsAreSafe(o: JS, choice: bool)
    ensures SafeEffects(UsageOut(o, choice).done) && SafeEffects(FinishReasonOut(o).done)
  {
    var read := Get(o, "finish_reason");
    if read.Got? {
      ReasonIsPlain(read.v);
    }
  }

  lemma IdsAreSafe(chunk: JS, wantsId: bool, wantsModel: bool)
    ensures SafeEffects(IdsOut(chunk, wantsId, wantsModel).done)
  {
    var id, model := Get(chunk, "id"), Get(chunk, "model");
    if id.Got? {
      IdentifierIsPlain(id.v);
    }
    if model.Got? {
      IdentifierIsPlain(model.v);
    }
  }

  lemma ChoicesAreSafe(chunk: JS)
    ensures SafeEffects(ChoicesOut(chunk).done)
  {
    var read := Get(chunk, "choices");
    if read.Got? && Entries(read.v) != [] {
      var choice := Entries(read.v)[0];
      ReportsAreSafe(choice, true);
      BodyIsSafe(choice);
    }
  }

  lemma BodyIsSafe(choice: JS)
    ensures SafeEffects(BodyOut(choice).done)
  {
    BodyAdds(choice);
  }

  lemma ChunkIsSafe(s: Summary, chunk: JS)
    requires SafeSummary(s)
    ensures SafeSummary(AfterChunk(s, chunk))
  {
    IdsAreSafe(chunk, s.responseId.None?, s.responseModel.None?);
    ReportsAreSafe(chunk, false);
    ChoicesAreSafe(chunk);
    SafeApply(s, ChunkOut(chunk, s.responseId.None?, s.responseModel.None?).done);
  }

  lemma RequestIsSafe(payload: JS)
    requires Sized(CallRequest(payload))
    ensures SafeRequest(RequestOf(payload))
  {
    var model := Get(payload, "model");
    if model.Got? {
      IdentifierIsPlain(model.v);
    }
  }

  lemma BlocksAreSafe(output: JS)
    requires SizedAt(output, "content")
    ensures SafeBlocks(BlocksOf(output))
  {
    var stop := Get(output, "stopReason");
    if stop.Got? {
      ReasonIsPlain(stop.v);
    }
  }

  lemma CallIsSafe(s: State, call: Call)
    requires SafeRecord(s.record) && Sized(call)
    ensures SafeRecord(AfterCall(s, call).record)
  {
    match call {
      case CallChunk(value) => ChunkIsSafe(s.record.summary, value);
      case CallRequest(payload) => RequestIsSafe(payload);
      case CallBeforeNormalization(output) => BlocksAreSafe(output);
      case CallFinish(output) => BlocksAreSafe(output);
      case _ =>
    }
  }

  // ---------- the bound ----------

  ghost predicate Fits(f: Field, cap: nat) {
    |PrintField(f)| + 1 <= cap
  }

  lemma {:induction false} FieldsBound(fields: seq<Field>, cap: nat)
    requires forall f :: f in fields ==> Fits(f, cap)
    ensures |PrintFields(fields)| <= |fields| * cap
  {
    if fields != [] {
      assert Fits(fields[0], cap);
      FieldsBound(fields[1..], cap);
      assert |fields| * cap == |fields[1..]| * cap + cap;
    }
  }

  lemma {:induction false} FieldsConcat(a: seq<Field>, b: seq<Field>)
    ensures |PrintFields(a + b)| <= |PrintFields(a)| + 1 + |PrintFields(b)|
  {
    if a == [] {
      assert a + b == b;
    } else {
      FieldsConcat(a[1..], b);
      assert (a + b)[1..] == a[1..] + b;
      if |a| == 1 {
        assert a[1..] + b == b;
      }
    }
  }

  lemma NumBound(n: nat)
    requires n <= MAX_SAFE_INTEGER
    ensures |Print(JNum(n))| <= 16
  {
    SafeLength(n);
  }

  lemma OptNumBound(n: Option<nat>)
    requires SafeNum(n)
    ensures |Print(OptNum(n))| <= 16
  {
    if n.Some? {
      SafeLength(n.value);
    }
  }

  lemma CountBound(s: Summary, key: Counter)
    requires SafeSummary(s)
    ensures |Print(CountJson(s, key))| <= 16
  {
    NumBound(CountOf(s, key));
  }

  lemma OptStrBound(s: Option<string>)
    requires ShortText(s)
    ensures |Print(OptStr(s))| <= 162
  {
    if s.Some? {
      PlainLength(s.value);
    }
  }

  lemma BoolBound(b: bool)
    ensures |Print(JBool(b))| <= 5
  {
  }

  lemma UsageBound(u: Option<Usage>)
    requires SafeUsage(u)
    ensures |Print(UsageJson(u))| <= 122
  {
    if u.Some? {
      OptNumBound(u.value.input);
      OptNumBound(u.value.output);
      OptNumBound(u.value.total);
      OptNumBound(u.value.reasoning);
      FieldsBound(UsageJson(u).fields, 30);
    }
  }

  lemma BlocksBound(b: Option<Blocks>)
    requires SafeBlocks(b)
    ensures |Print(BlocksJson(b))| <= 722
  {
    if b.Some? {
      NumBound(b.value.text);
      NumBound(b.value.thinking);
      NumBound(b.value.toolCall);
      OptStrBound(b.value.stopReason);
      FieldsBound(BlocksJson(b).fields, 180);
    }
  }

  lemma RequestBound(r: Option<Request>)
    requires SafeRequest(r)
    ensures |Print(RequestJson(r))| <= 1082
  {
    if r.Some? {
      OptNumBound(r.value.maxTokens);
      OptNumBound(r.value.maxCompletionTokens);
      NumBound(r.value.messageCount);
      NumBound(r.value.toolCount);
      OptStrBound(r.value.model);
      BoolBound(r.value.includeUsage);
      FieldsBound(RequestJson(r).fields, 180);
    }
  }

  lemma EventIsPlain()
    ensures Plain(EVENT) && |EVENT| == 22
  {
  }

  lemma HeadBound(event: string, r: Record)
    requires Plain(event) && |event| <= 22 && SafeRecord(r)
    ensures |PrintFields(HeadFields(event, r))| <= 4 * 60
  {
    NumBound(2);
    BoolBound(true);
    BoolBound(false);
    assert |Print(JNull)| == 4;
    PlainLength(r.startedAt);
    PlainLength(event);
    FieldsBound(HeadFields(event, r), 60);
  }

  lemma ModelBound(r: Record)
    requires SafeRecord(r)
    ensures |PrintFields(ModelFields(r))| <= 4 * 1100
  {
    RequestBound(r.request);
    OptStrBound(r.requestedModel);
    OptStrBound(r.summary.responseId);
    OptStrBound(r.summary.responseModel);
    FieldsBound(ModelFields(r), 1100);
  }

  lemma UsageFieldsBound(s: Summary)
    requires SafeSummary(s)
    ensures |PrintFields(UsageFields(s))| <= 7 * 180
  {
    CountBound(s, ChunkCount);
    CountBound(s, PrimaryChoiceCount);
    OptStrBound(s.finishReason);
    BoolBound(s.chunkUsageSeen);
    BoolBound(s.choiceUsageSeen);
    UsageBound(s.chunkUsage);
    UsageBound(s.choiceUsage);
    FieldsBound(UsageFields(s), 180);
  }

  lemma DeltaFieldsBound(s: Summary)
    requires SafeSummary(s)
    ensures |PrintFields(DeltaFields(s))| <= 7 * 50
  {
    CountBound(s, DeltaTextChars);
    CountBound(s, DeltaReasoningChars);
    CountBound(s, DeltaRefusalChars);
    CountBound(s, DeltaContentArrayEntries);
    CountBound(s, MessageContentArrayEntries);
    CountBound(s, DeltaToolEntries);
    CountBound(s, DeltaToolArgumentChars);
    FieldsBound(DeltaFields(s), 50);
  }

  lemma MessageFieldsBound(s: Summary)
    requires SafeSummary(s)
    ensures |PrintFields(MessageFields(s))| <= 6 * 50
  {
    CountBound(s, MessageTextChars);
    CountBound(s, MessageToolEntries);
    CountBound(s, MessageReasoningChars);
    CountBound(s, MessageRefusalChars);
    CountBound(s, MessageToolArgumentChars);
    CountBound(s, ReasoningDetailEntries);
    FieldsBound(MessageFields(s), 50);
  }

  const MAX_RECORD := 8500

  function LastFields(r: Record): seq<Field> {
    [F("beforeNormalization", BlocksJson(r.beforeNormalization)), F("final", BlocksJson(r.final))]
  }

  lemma LastBound(r: Record)
    requires SafeRecord(r)
    ensures |PrintFields(LastFields(r))| <= 2 * 760
  {
    BlocksBound(r.beforeNormalization);
    BlocksBound(r.final);
    FieldsBound(LastFields(r), 760);
  }

  lemma SixParts(a: seq<Field>, b: seq<Field>, c: seq<Field>, d: seq<Field>, e: seq<Field>, f: seq<Field>)
    ensures |Print(JObj(a + b + c + d + e + f))| <=
            |PrintFields(a)| + |PrintFields(b)| + |PrintFields(c)| + |PrintFields(d)| + |PrintFields(e)| + |PrintFields(f)| + 7
  {
    FieldsConcat(a, b);
    FieldsConcat(a + b, c);
    FieldsConcat(a + b + c, d);
    FieldsConcat(a + b + c + d, e);
    FieldsConcat(a + b + c + d + e, f);
  }

  lemma RecordBound(r: Record)
    requires SafeRecord(r)
    ensures |Print(RecordJson(r))| <= MAX_RECORD
  {
    EventIsPlain();
    HeadBound(EVENT, r);
    ModelBound(r);
    UsageFieldsBound(r.summary);
    DeltaFieldsBound(r.summary);
    MessageFieldsBound(r.summary);
    LastBound(r);
    SixParts(HeadFields(EVENT, r), ModelFields(r), UsageFields(r.summary), DeltaFields(r.summary), MessageFields(r.summary), LastFields(r));
  }

  lemma {:induction false} RecordsStaySafe(startedAt: string, model: JS, calls: seq<Call>)
    requires Timestamp(startedAt) && forall c :: c in calls ==> Sized(c)
    ensures var s := AfterCalls(Fresh(startedAt, model), calls);
            SafeRecord(s.record) && forall r :: r in s.written ==> SafeRecord(r)
  {
    if calls == [] {
      IdentifierIsPlain(model);
    } else {
      var init, last := calls[..|calls| - 1], calls[|calls| - 1];
      assert last in calls;
      RecordsStaySafe(startedAt, model, init);
      CallIsSafe(AfterCalls(Fresh(startedAt, model), init), last);
    }
  }

  /** Whatever is streamed through the collector, however long and however large, every
      line it tries to write is at most this long. */
  lemma LinesAreBounded(startedAt: string, model: JS, calls: seq<Call>, line: Record)
    requires Timestamp(startedAt) && forall c :: c in calls ==> Sized(c)
    requires line in AfterCalls(Fresh(startedAt, model), calls).written
    ensures |Print(RecordJson(line))| <= MAX_RECORD
  {
    RecordsStaySafe(startedAt, model, calls);
    RecordBound(line);
  }

  // ---------- which field shows what ----------

  function NameOf(key: Counter): string {
    match key
    case ChunkCount => "chunkCount"
    case PrimaryChoiceCount => "primaryChoiceCount"
    case DeltaTextChars => "deltaTextChars"
    case DeltaReasoningChars => "deltaReasoningChars"
    case DeltaRefusalChars => "deltaRefusalChars"
    case DeltaContentArrayEntries => "deltaContentArrayEntries"
    case MessageContentArrayEntries => "messageContentArrayEntries"
    case DeltaToolEntries => "deltaToolEntries"
    case DeltaToolArgumentChars => "deltaToolArgumentChars"
    case MessageTextChars => "messageTextChars"
    case MessageToolEntries => "messageToolEntries"
    case MessageReasoningChars => "messageReasoningChars"
    case MessageRefusalChars => "messageRefusalChars"
    case MessageToolArgumentChars => "messageToolArgumentChars"
    case ReasoningDetailEntries => "reasoningDetailEntries"
  }

  predicate Shows(j: Json, key: string, value: Json) {
    j.JObj? && F(key, value) in j.fields
  }

  lemma PartsShow(r: Record, f: Field)
    ensures || f in HeadFields(EVENT, r) || f in ModelFields(r) || f in UsageFields(r.summary)
            || f in DeltaFields(r.summary) || f in MessageFields(r.summary) || f in LastFields(r)
            <==> Shows(RecordJson(r), f.key, f.value)
  {
    assert f == F(f.key, f.value);
  }

  /** Every counter is printed under its own name. */
  lemma CountersShow(r: Record, key: Counter)
    ensures Shows(RecordJson(r), NameOf(key), JNum(CountOf(r.summary, key)))
  {
    var f, u, d, m := F(NameOf(key), JNum(CountOf(r.summary, key))), UsageFields(r.summary), DeltaFields(r.summary), MessageFields(r.summary);
    PartsShow(r, f);
    match key {
      case ChunkCount => assert u[0] == f;
      case PrimaryChoiceCount => assert u[1] == f;
      case DeltaTextChars => assert d[0] == f;
      case DeltaReasoningChars => assert d[1] == f;
      case DeltaRefusalChars => assert d[2] == f;
      case DeltaContentArrayEntries => assert d[3] == f;
      case MessageContentArrayEntries => assert d[4] == f;
      case DeltaToolEntries => assert d[5] == f;
      case DeltaToolArgumentChars => assert d[6] == f;
      case MessageTextChars => assert m[0] == f;
      case MessageToolEntries => assert m[1] == f;
      case MessageReasoningChars => assert m[2] == f;
      case MessageRefusalChars => assert m[3] == f;
      case MessageToolArgumentChars => assert m[4] == f;
      case ReasoningDetailEntries => assert m[5] == f;
    }
  }

  /** So is every text, and what is not there is null. */
  lemma TextsShow(r: Record)
    ensures var j := RecordJson(r);
            && Shows(j, "event", JStr("openai_stream_metadata")) && Shows(j, "schemaVersion", JNum(2))
            && Shows(j, "startedAt", JStr(r.startedAt))
            && Shows(j, "emitReasoning", if r.emitReasoning.Some? then JBool(r.emitReasoning.value) else JNull)
            && Shows(j, "requestedModel", if r.requestedModel.Some? then JStr(r.requestedModel.value) else JNull)
            && Shows(j, "responseId", if r.summary.responseId.Some? then JStr(r.summary.responseId.value) else JNull)
            && Shows(j, "responseModel", if r.summary.responseModel.Some? then JStr(r.summary.responseModel.value) else JNull)
            && Shows(j, "finishReason", if r.summary.finishReason.Some? then JStr(r.summary.finishReason.value) else JNull)
  {
    var h, m, u := HeadFields(EVENT, r), ModelFields(r), UsageFields(r.summary);
    PartsShow(r, h[0]);
    PartsShow(r, h[1]);
    PartsShow(r, h[2]);
    PartsShow(r, h[3]);
    PartsShow(r, m[0]);
    PartsShow(r, m[1]);
    PartsShow(r, m[2]);
    PartsShow(r, u[2]);
  }

  /** And every object. */
  lemma ObjectsShow(r: Record)
    ensures var j := RecordJson(r);
            && Shows(j, "request", RequestJson(r.request))
            && Shows(j, "chunkUsageSeen", JBool(r.summary.chunkUsageSeen)) && Shows(j, "chunkUsage", UsageJson(r.summary.chunkUsage))
            && Shows(j, "choiceUsageSeen", JBool(r.summary.choiceUsageSeen)) && Shows(j, "choiceUsage", UsageJson(r.summary.choiceUsage))
            && Shows(j, "beforeNormalization", BlocksJson(r.beforeNormalization)) && Shows(j, "final", BlocksJson(r.final))
  {
    var m, u, l := ModelFields(r), UsageFields(r.summary), LastFields(r);
    PartsShow(r, m[3]);
    PartsShow(r, u[3]);
    PartsShow(r, u[4]);
    PartsShow(r, u[5]);
    PartsShow(r, u[6]);
    PartsShow(r, l[0]);
    PartsShow(r, l[1]);
  }

  predicate ShowsNumber(j: Json, key: string, n: Option<nat>) {
    Shows(j, key, if n.Some? then JNum(n.value) else JNull)
  }

  lemma UsageIsPrinted(u: Usage)
    ensures var j := UsageJson(Some(u));
            && ShowsNumber(j, "input", u.input) && ShowsNumber(j, "output", u.output)
            && ShowsNumber(j, "total", u.total) && ShowsNumber(j, "reasoning", u.reasoning)
  {
    var fields := UsageJson(Some(u)).fields;
    assert fields[0].key == "input" && fields[1].key == "output" && fields[2].key == "total" && fields[3].key == "reasoning";
  }

  lemma BlocksArePrinted(b: Blocks)
    ensures var j := BlocksJson(Some(b));
            && Shows(j, "text", JNum(b.text)) && Shows(j, "thinking", JNum(b.thinking)) && Shows(j, "toolCall", JNum(b.toolCall))
            && Shows(j, "stopReason", if b.stopReason.Some? then JStr(b.stopReason.value) else JNull)
  {
    var fields := BlocksJson(Some(b)).fields;
    assert fields[0].key == "text" && fields[1].key == "thinking" && fields[2].key == "toolCall" && fields[3].key == "stopReason";
  }

  lemma RequestIsPrinted(r: Request)
    ensures var j := RequestJson(Some(r));
            && Shows(j, "model", if r.model.Some? then JStr(r.model.value) else JNull)
            && ShowsNumber(j, "maxTokens", r.maxTokens) && ShowsNumber(j, "maxCompletionTokens", r.maxCompletionTokens)
            && Shows(j, "includeUsage", JBool(r.includeUsage))
            && Shows(j, "messageCount", JNum(r.messageCount)) && Shows(j, "toolCount", JNum(r.toolCount))
  {
    var fields := RequestJson(Some(r)).fields;
    assert fields[0].key == "model" && fields[1].key == "maxTokens" && fields[2].key == "maxCompletionTokens";
    assert fields[3].key == "includeUsage" && fields[4].key == "messageCount" && fields[5].key == "toolCount";
  }
}
