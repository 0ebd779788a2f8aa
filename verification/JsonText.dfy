/** The JSON text of a record reads back as the value it was printed from. */
module JsonText {
  import opened Options
  import opened Decimal
  import StreamMetadata
  import StreamCollector
  import opened StreamRecord

  // ---------- a reader ----------

  predicate IsHex(c: char) {
    '0' <= c <= '9' || 'a' <= c <= 'f'
  }

  function HexValue(c: char): nat
    requires IsHex(c)
  {
    if c <= '9' then c as nat - '0' as nat else 10 + (c as nat - 'a' as nat)
  }

  /** One character of a text, escaped or not, and what follows it. */
  function ReadChar(s: string): (r: Option<(char, string)>)
    ensures r.Some? ==> |r.value.1| < |s|
  {
    if s == [] || s[0] == '"' then None
    else if s[0] != '\\' then Some((s[0], s[1..]))
    else if |s| < 2 then None
    else
      match s[1]
      case '"' => Some(('"', s[2..]))
      case '\\' => Some(('\\', s[2..]))
      case 'n' => Some(('\n', s[2..]))
      case 'r' => Some(('\r', s[2..]))
      case 't' => Some(('\t', s[2..]))
      case 'b' => Some((8 as char, s[2..]))
      case 'f' => Some((12 as char, s[2..]))
      case 'u' =>
        if |s| >= 6 && s[2] == '0' && s[3] == '0' && IsHex(s[4]) && IsHex(s[5])
        then Some(((16 * HexValue(s[4]) + HexValue(s[5])) as char, s[6..])) else None
      case _ => None
  }

  /** A text up to its closing quote, and what follows the quote. */
  function ReadText(s: string): (r: Option<(string, string)>)
    ensures r.Some? ==> |r.value.1| < |s|
    decreases |s|
  {
    if s == [] then None
    else if s[0] == '"' then Some(([], s[1..]))
    else
      var c := ReadChar(s);
      if c.None? then None
      else
        var more := ReadText(c.value.1);
        if more.None? then None else Some(([c.value.0] + more.value.0, more.value.1))
  }

  /** The length of the run of digits at the front. */
  function DigitRun(s: string): (n: nat)
    ensures n <= |s| && AllDigits(s[..n])
  {
    if s != [] && IsDigit(s[0]) then
      var n := DigitRun(s[1..]);
      assert s[..n + 1] == [s[0]] + s[1..][..n];
      n + 1
    else 0
  }

  function ReadValue(s: string): (r: Option<(Json, string)>)
    ensures r.Some? ==> |r.value.1| < |s|
    decreases |s|, 1
  {
    if "null" <= s then Some((JNull, s[4..]))
    else if "true" <= s then Some((JBool(true), s[4..]))
    else if "false" <= s then Some((JBool(false), s[5..]))
    else if s == [] then None
    else if s[0] == '"' then
      var text := ReadText(s[1..]);
      if text.None? then None else Some((JStr(text.value.0), text.value.1))
    else if s[0] == '{' then
      if "{}" <= s then Some((JObj([]), s[2..]))
      else
        var fields := ReadFields(s[1..]);
        if fields.None? then None else Some((JObj(fields.value.0), fields.value.1))
    else
      var n := DigitRun(s);
      if n == 0 then None else Some((JNum(Denotes(s[..n])), s[n..]))
  }

  function ReadField(s: string): (r: Option<(Field, string)>)
    ensures r.Some? ==> |r.value.1| < |s|
    decreases |s|, 2
  {
    if s == [] || s[0] != '"' then None
    else
      var key := ReadText(s[1..]);
      if key.None? || key.value.1 == [] || key.value.1[0] != ':' then None
      else
        var value := ReadValue(key.value.1[1..]);
        if value.None? then None else Some((F(key.value.0, value.value.0), value.value.1))
  }

  /** The fields up to the closing brace, and what follows it. */
  function ReadFields(s: string): (r: Option<(seq<Field>, string)>)
    ensures r.Some? ==> |r.value.1| < |s|
    decreases |s|, 3
  {
    var first := ReadField(s);
    if first.None? || first.value.1 == [] then None
    else if first.value.1[0] == '}' then Some(([first.value.0], first.value.1[1..]))
    else if first.value.1[0] != ',' then None
    else
      var more := ReadFields(first.value.1[1..]);
      if more.None? then None else Some(([first.value.0] + more.value.0, more.value.1))
  }

  // ---------- reading what was printed ----------

  lemma CharReadsBack(c: char, rest: string)
    ensures ReadChar(Escaped(c) + rest) == Some((c, rest))
    ensures Escaped(c) != [] && Escaped(c)[0] != '"'
  {
    var e, s := Escaped(c), Escaped(c) + rest;
    assert s[|e|..] == rest;
    if e == [c] {
    } else if |e| == 2 {
      assert s[1] == e[1];
    } else {
      HexReadsBack(c as nat / 16);
      HexReadsBack(c as nat % 16);
      assert s[2] == e[2] && s[3] == e[3] && s[4] == e[4] && s[5] == e[5];
    }
  }

  lemma HexReadsBack(d: nat)
    requires d < 16
    ensures IsHex(HexDigit(d)) && HexValue(HexDigit(d)) == d
  {
  }

  lemma {:induction false} TextReadsBack(text: string, rest: string)
    ensures ReadText(EscapedText(text) + "\"" + rest) == Some((text, rest))
  {
    if text == [] {
      assert EscapedText(text) + "\"" + rest == "\"" + rest;
    } else {
      var tail := EscapedText(text[1..]) + "\"" + rest;
      assert EscapedText(text) + "\"" + rest == Escaped(text[0]) + tail;
      CharReadsBack(text[0], tail);
      TextReadsBack(text[1..], rest);
      assert [text[0]] + text[1..] == text;
    }
  }

  lemma {:induction false} RunReadsBack(digits: string, rest: string)
    requires AllDigits(digits) && (rest == [] || !IsDigit(rest[0]))
    ensures DigitRun(digits + rest) == |digits|
  {
    if digits == [] {
      assert digits + rest == rest;
    } else {
      assert digits[0] in digits && (digits + rest)[1..] == digits[1..] + rest;
      RunReadsBack(digits[1..], rest);
    }
  }

  lemma NumberReadsBack(n: nat, rest: string)
    requires rest == [] || !IsDigit(rest[0])
    ensures ReadValue(Digits(n) + rest) == Some((JNum(n), rest))
  {
    var digits := Digits(n);
    var s := digits + rest;
    assert digits[0] in digits && s[0] == digits[0];
    RunReadsBack(digits, rest);
    DigitsRoundTrip(n);
    assert s[..|digits|] == digits && s[|digits|..] == rest;
  }

  /** The keys of all objects in j can be printed as they are. */
  predicate PlainKeys(j: Json) {
    j.JObj? ==> forall i :: 0 <= i < |j.fields| ==> Plain(j.fields[i].key) && PlainKeys(j.fields[i].value)
  }

  lemma NoWord(s: string)
    requires s != []
    ensures s[0] != 'n' ==> !("null" <= s)
    ensures s[0] != 't' ==> !("true" <= s)
    ensures s[0] != 'f' ==> !("false" <= s)
  {
    assert "null"[0] == 'n' && "true"[0] == 't' && "false"[0] == 'f';
  }

  /** Whatever is printed reads back, and leaves what follows it. */
  lemma {:induction false} ValueReadsBack(j: Json, rest: string)
    requires PlainKeys(j) && (rest == [] || !IsDigit(rest[0]))
    ensures ReadValue(Print(j) + rest) == Some((j, rest))
    decreases j, 1
  {
    match j {
      case JNum(n) => NumberReadsBack(n, rest);
      case JStr(text) => StringReadsBack(text, rest);
      case JObj(fields) => ObjectReadsBack(j, rest);
      case JNull => assert ("null" + rest)[4..] == rest;
      case JBool(b) => BoolReadsBack(b, rest);
    }
  }

  lemma StringReadsBack(text: string, rest: string)
    ensures ReadValue(Print(JStr(text)) + rest) == Some((JStr(text), rest))
  {
    var s := "\"" + (EscapedText(text) + "\"" + rest);
    assert Print(JStr(text)) + rest == s && s[1..] == EscapedText(text) + "\"" + rest;
    NoWord(s);
    TextReadsBack(text, rest);
  }

  lemma BoolReadsBack(b: bool, rest: string)
    ensures ReadValue(Print(JBool(b)) + rest) == Some((JBool(b), rest))
  {
    var s := Print(JBool(b)) + rest;
    NoWord(s);
    if b {
      assert s[4..] == rest;
    } else {
      assert s[0] == 'f' && s[5..] == rest;
    }
  }

  lemma {:induction false} ObjectReadsBack(j: Json, rest: string)
    requires j.JObj? && PlainKeys(j)
    ensures ReadValue(Print(j) + rest) == Some((j, rest))
    decreases j, 0, 1
  {
    if j.fields == [] {
      EmptyObject(rest);
    } else {
      FieldsReadBack(j.fields, rest);
      FullObject(j.fields, rest);
    }
  }

  lemma EmptyObject(rest: string)
    ensures ReadValue(Print(JObj([])) + rest) == Some((JObj([]), rest))
  {
    var s := "{}" + rest;
    assert Print(JObj([])) + rest == s && s[2..] == rest;
    NoWord(s);
  }

  lemma FullObject(fields: seq<Field>, rest: string)
    requires fields != [] && ReadFields(PrintFields(fields) + "}" + rest) == Some((fields, rest))
    ensures ReadValue(Print(JObj(fields)) + rest) == Some((JObj(fields), rest))
  {
    var inner := PrintFields(fields) + "}" + rest;
    assert Print(JObj(fields)) + rest == "{" + inner;
    StartsWithQuote(fields);
    ReadObject(inner, fields, rest);
  }

  lemma ReadObject(inner: string, fields: seq<Field>, rest: string)
    requires inner != [] && inner[0] == '"' && ReadFields(inner) == Some((fields, rest))
    ensures ReadValue("{" + inner) == Some((JObj(fields), rest))
  {
    var s := "{" + inner;
    assert s[1..] == inner && s[1] == '"';
    NoWord(s);
  }

  lemma StartsWithQuote(fields: seq<Field>)
    requires fields != []
    ensures PrintFields(fields) != [] && PrintFields(fields)[0] == '"'
  {
    assert PrintField(fields[0])[0] == '"';
  }

  lemma {:induction false} FieldsReadBack(fields: seq<Field>, rest: string)
    requires fields != [] && forall i :: 0 <= i < |fields| ==> Plain(fields[i].key) && PlainKeys(fields[i].value)
    ensures ReadFields(PrintFields(fields) + "}" + rest) == Some((fields, rest))
    decreases fields, 1
  {
    var f, more := fields[0], fields[1..];
    assert fields == [f] + more;
    if more == [] {
      assert fields == [f];
      FieldReadsBack(f, "}" + rest);
      LastField(f, rest);
    } else {
      FieldReadsBack(f, "," + (PrintFields(more) + "}" + rest));
      FieldsReadBack(more, rest);
      OneMoreField(f, more, rest);
    }
  }

  lemma LastField(f: Field, rest: string)
    requires ReadField(PrintField(f) + ("}" + rest)) == Some((f, "}" + rest))
    ensures ReadFields(PrintFields([f]) + "}" + rest) == Some(([f], rest))
  {
    assert PrintFields([f]) + "}" + rest == PrintField(f) + ("}" + rest);
    assert ("}" + rest)[1..] == rest;
  }

  lemma PrintCons(f: Field, more: seq<Field>, rest: string)
    requires more != []
    ensures PrintFields([f] + more) + "}" + rest == PrintField(f) + ("," + (PrintFields(more) + "}" + rest))
  {
    assert ([f] + more)[1..] == more;
  }

  lemma ReadCons(s: string, f: Field, tail: string, more: seq<Field>, rest: string)
    requires ReadField(s) == Some((f, "," + tail)) && ReadFields(tail) == Some((more, rest))
    ensures ReadFields(s) == Some(([f] + more, rest))
  {
    assert ("," + tail)[1..] == tail;
  }

  lemma OneMoreField(f: Field, more: seq<Field>, rest: string)
    requires more != []
    requires var tail := PrintFields(more) + "}" + rest;
             ReadField(PrintField(f) + ("," + tail)) == Some((f, "," + tail)) && ReadFields(tail) == Some((more, rest))
    ensures ReadFields(PrintFields([f] + more) + "}" + rest) == Some(([f] + more, rest))
  {
    var tail := PrintFields(more) + "}" + rest;
    PrintCons(f, more, rest);
    ReadCons(PrintField(f) + ("," + tail), f, tail, more, rest);
  }

  lemma {:induction false} FieldReadsBack(f: Field, rest: string)
    requires Plain(f.key) && PlainKeys(f.value) && (rest == [] || !IsDigit(rest[0]))
    ensures ReadField(PrintField(f) + rest) == Some((f, rest))
    decreases f, 0
  {
    var tail := ":" + (Print(f.value) + rest);
    PlainEscapes(f.key);
    assert PrintField(f) + rest == "\"" + (EscapedText(f.key) + "\"" + tail);
    TextReadsBack(f.key, tail);
    assert tail[1..] == Print(f.value) + rest;
    ValueReadsBack(f.value, rest);
  }

  // ---------- the record ----------

  /** The keys of these fields, and all keys in their values, can be printed as they are. */
  predicate PlainFields(fields: seq<Field>) {
    forall i :: 0 <= i < |fields| ==> Plain(fields[i].key) && PlainKeys(fields[i].value)
  }

  lemma RequestKeys()
    ensures Plain("model") && Plain("maxTokens") && Plain("maxCompletionTokens")
  {
  }

  lemma RequestCountKeys()
    ensures Plain("includeUsage") && Plain("messageCount") && Plain("toolCount")
  {
  }

  lemma PlainRequest(r: Option<StreamCollector.Request>)
    ensures PlainKeys(RequestJson(r))
  {
    RequestKeys();
    RequestCountKeys();
  }

  lemma NumberKeys()
    ensures Plain("input") && Plain("output") && Plain("total") && Plain("reasoning")
  {
  }

  lemma BlockKeys()
    ensures Plain("text") && Plain("thinking") && Plain("toolCall") && Plain("stopReason")
  {
  }

  lemma LastKeys()
    ensures Plain("beforeNormalization") && Plain("final")
  {
  }

  lemma PlainUsage(u: Option<StreamMetadata.Usage>)
    ensures PlainKeys(UsageJson(u))
  {
    NumberKeys();
  }

  lemma PlainBlocks(b: Option<StreamCollector.Blocks>)
    ensures PlainKeys(BlocksJson(b))
  {
    BlockKeys();
  }

  lemma HeadKeys()
    ensures Plain("event") && Plain("schemaVersion")
  {
  }

  lemma StartKeys()
    ensures Plain("emitReasoning") && Plain("startedAt")
  {
  }

  lemma ModelKeys()
    ensures Plain("requestedModel") && Plain("request")
  {
  }

  lemma ResponseKeys()
    ensures Plain("responseId") && Plain("responseModel")
  {
  }

  lemma PlainHead(r: StreamCollector.Record)
    ensures PlainFields(HeadFields(EVENT, r))
  {
    HeadKeys();
    StartKeys();
  }

  lemma PlainLast(r: StreamCollector.Record)
    ensures PlainFields(LastFields(r))
  {
    PlainBlocks(r.beforeNormalization);
    PlainBlocks(r.final);
    LastKeys();
  }

  lemma PlainModels(r: StreamCollector.Record)
    ensures PlainFields(ModelFields(r))
  {
    PlainRequest(r.request);
    ModelKeys();
    ResponseKeys();
  }

  lemma CountKeys()
    ensures Plain("chunkCount") && Plain("primaryChoiceCount") && Plain("finishReason")
  {
  }

  lemma SeenKeys()
    ensures Plain("chunkUsageSeen") && Plain("choiceUsageSeen")
  {
  }

  lemma UsageKeys()
    ensures Plain("chunkUsage") && Plain("choiceUsage")
  {
  }

  lemma PlainUsages(s: StreamMetadata.Summary)
    ensures PlainFields(UsageFields(s))
  {
    PlainUsage(s.chunkUsage);
    PlainUsage(s.choiceUsage);
    CountKeys();
    SeenKeys();
    UsageKeys();
  }

  lemma DeltaKeys()
    ensures Plain("deltaTextChars") && Plain("deltaReasoningChars") && Plain("deltaRefusalChars")
  {
  }

  lemma ArrayKeys()
    ensures Plain("deltaContentArrayEntries") && Plain("messageContentArrayEntries")
  {
  }

  lemma DeltaToolKeys()
    ensures Plain("deltaToolEntries") && Plain("deltaToolArgumentChars")
  {
  }

  lemma PlainDeltas(s: StreamMetadata.Summary)
    ensures PlainFields(DeltaFields(s))
  {
    DeltaKeys();
    ArrayKeys();
    DeltaToolKeys();
  }

  lemma MessageKeys()
    ensures Plain("messageTextChars") && Plain("messageToolEntries") && Plain("messageReasoningChars")
  {
  }

  lemma MessageToolKeys()
    ensures Plain("messageRefusalChars") && Plain("messageToolArgumentChars") && Plain("reasoningDetailEntries")
  {
  }

  lemma PlainMessages(s: StreamMetadata.Summary)
    ensures PlainFields(MessageFields(s))
  {
    MessageKeys();
    MessageToolKeys();
  }

  lemma PlainConcat(a: seq<Field>, b: seq<Field>)
    requires PlainFields(a) && PlainFields(b)
    ensures PlainFields(a + b)
  {
  }

  /** Every line the collector can write reads back as the record it shows. */
  lemma LineReadsBack(r: StreamCollector.Record)
    ensures ReadValue(Print(RecordJson(r))) == Some((RecordJson(r), ""))
  {
    var s := r.summary;
    PlainHead(r);
    PlainLast(r);
    PlainModels(r);
    PlainUsages(s);
    PlainDeltas(s);
    PlainMessages(s);
    PlainConcat(HeadFields(EVENT, r), ModelFields(r));
    PlainConcat(HeadFields(EVENT, r) + ModelFields(r), UsageFields(s));
    PlainConcat(HeadFields(EVENT, r) + ModelFields(r) + UsageFields(s), DeltaFields(s));
    PlainConcat(HeadFields(EVENT, r) + ModelFields(r) + UsageFields(s) + DeltaFields(s), MessageFields(s));
    PlainConcat(HeadFields(EVENT, r) + ModelFields(r) + UsageFields(s) + DeltaFields(s) + MessageFields(s), LastFields(r));
    assert PlainKeys(RecordJson(r));
    ValueReadsBack(RecordJson(r), "");
    assert Print(RecordJson(r)) + "" == Print(RecordJson(r));
  }
}
