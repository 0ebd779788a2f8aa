/** The argument parsers of the client CLI.  All four walk the arguments with one index
    and fill an options record; they differ only in their flags and in which are required. */
module ClientCli {
  import opened Options
  import opened Decimal

  datatype Kind = TextFlag | IntegerFlag | Switch(sets: bool)

  datatype Val = Text(s: string) | Number(n: nat) | Flag(b: bool)

  type Record = map<string, Val>

  datatype Parser = Parser(flags: map<string, Kind>, required: set<string>)

  const PROVISION := Parser(
    map["--client-name" := TextFlag, "--project-id" := TextFlag, "--workspace" := TextFlag,
        "--target-port" := IntegerFlag, "--template-ref" := TextFlag, "--setup-username" := TextFlag,
        "--poll-seconds" := IntegerFlag, "--timeout-minutes" := IntegerFlag,
        "--env-local-path" := TextFlag, "--handoff-path" := TextFlag,
        "--force-new" := Switch(true), "--no-local-files" := Switch(false)],
    {"--client-name"})

  const UPDATE_REF := Parser(
    map["--service" := TextFlag, "--template-ref" := TextFlag, "--expected-current-ref" := TextFlag,
        "--setup-username" := TextFlag, "--force-redeploy" := Switch(true),
        "--poll-seconds" := IntegerFlag, "--timeout-minutes" := IntegerFlag],
    {"--service", "--template-ref", "--expected-current-ref"})

  const UPDATE_OPENCLAW_REF := Parser(
    map["--service" := TextFlag, "--expected-current-ref" := TextFlag, "--setup-username" := TextFlag,
        "--force-redeploy" := Switch(true), "--openclaw-ref" := TextFlag,
        "--poll-seconds" := IntegerFlag, "--timeout-minutes" := IntegerFlag],
    {"--service", "--openclaw-ref", "--expected-current-ref"})

  const ROTATE := Parser(
    map["--service" := TextFlag, "--setup-username" := TextFlag,
        "--poll-seconds" := IntegerFlag, "--timeout-minutes" := IntegerFlag],
    {"--service"})

  /** A value requireValue accepts. */
  predicate IsValue(s: string) {
    s != "" && !("--" <= s)
  }

  function RequireValue(value: Option<string>): Option<string> {
    if value.None? || !IsValue(value.value) then None else value
  }

  /** parseIntegerFlag; None is the thrown error. */
  function ParseIntegerFlag(value: Option<string>): Option<nat> {
    var raw := RequireValue(value);
    if raw.None? || !AllDigits(raw.value) then None
    else
      var parsed := Denotes(raw.value);
      if parsed > MAX_SAFE_INTEGER || parsed <= 0 then None else Some(parsed)
  }

  /** Integer flags accept exactly the nonempty digit strings that denote 1 to 2^53 - 1. */
  lemma IntegerFlagExactly(s: string, n: nat)
    ensures ParseIntegerFlag(Some(s)) == Some(n)
            <==> s != "" && AllDigits(s) && Denotes(s) == n && 1 <= n <= MAX_SAFE_INTEGER
  {
    if s != "" && AllDigits(s) {
      assert IsDigit(s[0]) by { assert s[0] in s; }
    }
  }

  // ---------- what an argument list means ----------

  /** One flag with the value written behind it, if it takes one. */
  datatype Group = Group(flag: string, written: seq<string>)

  /** What a well-formed group sets its option to. */
  function Meaning(p: Parser, g: Group): Option<Val> {
    if g.flag !in p.flags then None
    else
      match p.flags[g.flag]
      case Switch(sets) => if g.written == [] then Some(Flag(sets)) else None
      case TextFlag =>
        if |g.written| == 1 && IsValue(g.written[0]) then Some(Text(g.written[0])) else None
      case IntegerFlag =>
        if |g.written| == 1 && ParseIntegerFlag(Some(g.written[0])).Some?
        then Some(Number(ParseIntegerFlag(Some(g.written[0])).value)) else None
  }

  function Args(groups: seq<Group>): seq<string> {
    if groups == [] then [] else [groups[0].flag] + groups[0].written + Args(groups[1..])
  }

  /** The record a list of well-formed groups fills in, later groups last. */
  function Filled(p: Parser, groups: seq<Group>): Option<Record> {
    if groups == [] then Some(map[])
    else
      var before, value := Filled(p, groups[..|groups| - 1]), Meaning(p, groups[|groups| - 1]);
      if before.None? || value.None? then None
      else Some(before.value[groups[|groups| - 1].flag := value.value])
  }

  /** The argument list parses to this record: it is a sequence of well-formed groups, and
      the required options are set. */
  ghost predicate Parses(p: Parser, args: seq<string>, record: Record) {
    p.required <= record.Keys
    && exists groups :: Args(groups) == args && Filled(p, groups) == Some(record)
  }

  // ---------- the program ----------

  /** The index loop of the parsers. */
  method ParseArgs(p: Parser, args: seq<string>) returns (result: Option<Record>)
    ensures result.Some? ==> Parses(p, args, result.value)
    ensures result.None? ==> forall record :: !Parses(p, args, record)
  {
    var options: Record := map[];
    ghost var groups: seq<Group> := [];
    var index := 0;
    while index < |args|
      invariant 0 <= index <= |args| && Args(groups) == args[..index] && Filled(p, groups) == Some(options)
    {
      var arg := args[index];
      var value := if index + 1 < |args| then Some(args[index + 1]) else None;
      if arg !in p.flags {
        NoOtherReading(p, args, groups, index);
        return None;
      }
      match p.flags[arg] {
        case Switch(sets) =>
          ArgsSnoc(groups, Group(arg, []));
          options := options[arg := Flag(sets)];
          groups := groups + [Group(arg, [])];
        case TextFlag =>
          var text := RequireValue(value);
          if text.None? {
            NoOtherReading(p, args, groups, index);
            return None;
          }
          ArgsSnoc(groups, Group(arg, [text.value]));
          options := options[arg := Text(text.value)];
          groups := groups + [Group(arg, [text.value])];
          index := index + 1;
        case IntegerFlag =>
          var number := ParseIntegerFlag(value);
          if number.None? {
            NoOtherReading(p, args, groups, index);
            return None;
          }
          ArgsSnoc(groups, Group(arg, [value.value]));
          options := options[arg := Number(number.value)];
          groups := groups + [Group(arg, [value.value])];
          index := index + 1;
      }
      index := index + 1;
    }
    assert args[..index] == args;
    if !(p.required <= options.Keys) {
      forall record ensures !Parses(p, args, record) {
        if Parses(p, args, record) {
          OneReading(p, args, groups, record);
        }
      }
      return None;
    }
    return Some(options);
  }

  lemma {:induction false} ArgsSnoc(groups: seq<Group>, g: Group)
    ensures Args(groups + [g]) == Args(groups) + [g.flag] + g.written
  {
    if groups == [] {
      assert groups + [g] == [g] && Args([g][1..]) == [];
    } else {
      assert (groups + [g])[1..] == groups[1..] + [g];
      ArgsSnoc(groups[1..], g);
    }
  }

  // ---------- an argument list has one reading ----------

  ghost predicate WellFormed(p: Parser, groups: seq<Group>) {
    forall i :: 0 <= i < |groups| ==> Meaning(p, groups[i]).Some?
  }

  lemma {:induction false} FilledIsWellFormed(p: Parser, groups: seq<Group>)
    ensures Filled(p, groups).Some? <==> WellFormed(p, groups)
  {
    if groups != [] {
      FilledIsWellFormed(p, groups[..|groups| - 1]);
    }
  }

  /** Two readings of lists of which one continues the other agree as far as they go. */
  lemma {:induction false} SameGroups(p: Parser, a: seq<Group>, b: seq<Group>)
    requires WellFormed(p, a) && WellFormed(p, b) && Args(a) <= Args(b)
    ensures a <= b
  {
    if a != [] {
      assert b != [];
      assert Args(a)[0] == a[0].flag && Args(b)[0] == b[0].flag;
      assert Meaning(p, a[0]).Some? && Meaning(p, b[0]).Some?;
      assert |a[0].written| == |b[0].written|;
      if a[0].written != [] {
        assert Args(a)[1] == a[0].written[0] && Args(b)[1] == b[0].written[0];
      }
      assert a[0] == b[0];
      var n := 1 + |a[0].written|;
      assert Args(a[1..]) == Args(a)[n..] && Args(b[1..]) == Args(b)[n..];
      assert Args(a)[n..] <= Args(b)[n..];
      assert WellFormed(p, a[1..]) && WellFormed(p, b[1..]);
      SameGroups(p, a[1..], b[1..]);
    }
  }

  lemma OneReading(p: Parser, args: seq<string>, groups: seq<Group>, record: Record)
    requires Args(groups) == args && Filled(p, groups).Some? && Parses(p, args, record)
    ensures Filled(p, groups) == Some(record)
  {
    var others :| Args(others) == args && Filled(p, others) == Some(record);
    FilledIsWellFormed(p, groups);
    FilledIsWellFormed(p, others);
    SameGroups(p, groups, others);
    SameGroups(p, others, groups);
    assert groups == others;
  }

  /** The arguments from index on begin with a well-formed group. */
  predicate Readable(p: Parser, args: seq<string>, index: nat)
    requires index < |args|
  {
    args[index] in p.flags &&
    var value := if index + 1 < |args| then Some(args[index + 1]) else None;
    match p.flags[args[index]]
    case Switch(_) => true
    case TextFlag => RequireValue(value).Some?
    case IntegerFlag => ParseIntegerFlag(value).Some?
  }

  lemma NextIsReadable(p: Parser, args: seq<string>, groups: seq<Group>, others: seq<Group>)
    requires WellFormed(p, others) && Args(others) == args && groups <= others && |Args(groups)| < |args|
    ensures Readable(p, args, |Args(groups)|)
  {
    NextGroup(groups, others);
    var n, g := |Args(groups)|, others[|groups|];
    assert Meaning(p, g).Some?;
    if g.written != [] {
      assert args[n + 1..n + 1 + |g.written|][0] == args[n + 1];
    }
  }

  /** Where the loop stops with an error, no reading of the list goes on. */
  lemma NoOtherReading(p: Parser, args: seq<string>, groups: seq<Group>, index: nat)
    requires index < |args| && Args(groups) == args[..index] && Filled(p, groups).Some?
    requires !Readable(p, args, index)
    ensures forall record :: !Parses(p, args, record)
  {
    FilledIsWellFormed(p, groups);
    forall others | Args(others) == args ensures Filled(p, others).None? {
      FilledIsWellFormed(p, others);
      if WellFormed(p, others) {
        SameGroups(p, groups, others);
        NextIsReadable(p, args, groups, others);
      }
    }
  }

  /** The group after a common beginning starts where the beginning's arguments end. */
  lemma {:induction false} NextGroup(a: seq<Group>, b: seq<Group>)
    requires a <= b && |Args(a)| < |Args(b)|
    ensures |a| < |b|
    ensures var n, g := |Args(a)|, b[|a|];
            Args(b)[n] == g.flag && n + 1 + |g.written| <= |Args(b)| && Args(b)[n + 1..n + 1 + |g.written|] == g.written
  {
    if a == [] {
      assert b != [];
      assert Args(b)[1..1 + |b[0].written|] == b[0].written;
    } else {
      NextGroup(a[1..], b[1..]);
      var k, n, g := 1 + |a[0].written|, |Args(a[1..])|, b[|a|];
      assert b[1..][|a| - 1] == g;
      assert Args(b)[k..] == Args(b[1..]);
      assert Args(b)[k + n..][..1 + |g.written|] == Args(b[1..])[n..][..1 + |g.written|];
    }
  }

  // ---------- printing a record ----------

  /** A value this flag can hold and the command line can carry. */
  predicate Printable(p: Parser, flag: string, v: Val) {
    flag in p.flags &&
    match p.flags[flag]
    case TextFlag => v.Text? && IsValue(v.s)
    case IntegerFlag => v.Number? && 1 <= v.n <= MAX_SAFE_INTEGER
    case Switch(sets) => v == Flag(sets)
  }

  function Printed(flag: string, v: Val): Group {
    match v
    case Text(s) => Group(flag, [s])
    case Number(n) => Group(flag, [Digits(n)])
    case Flag(_) => Group(flag, [])
  }

  lemma PrintedMeansItself(p: Parser, flag: string, v: Val)
    requires Printable(p, flag, v)
    ensures Meaning(p, Printed(flag, v)) == Some(v)
  {
    if v.Number? {
      DigitsRoundTrip(v.n);
      IntegerFlagExactly(Digits(v.n), v.n);
    }
  }

  /** The groups a record prints as, in the order of the given flags. */
  function PrintedGroups(record: Record, order: seq<string>): (groups: seq<Group>)
    requires forall f :: f in order ==> f in record
    ensures |groups| == |order|
  {
    if order == [] then []
    else PrintedGroups(record, order[..|order| - 1]) + [Printed(order[|order| - 1], record[order[|order| - 1]])]
  }

  /** Each option of the record once, in some order. */
  ghost predicate Ordering(order: seq<string>, record: Record) {
    && (forall f :: f in record <==> f in order)
    && forall i, j :: 0 <= i < j < |order| ==> order[i] != order[j]
  }

  lemma {:induction false} PrintedFills(p: Parser, record: Record, order: seq<string>)
    requires forall f :: f in order ==> f in record && Printable(p, f, record[f])
    ensures var filled := Filled(p, PrintedGroups(record, order));
            && filled.Some? && (forall f :: f in filled.value <==> f in order)
            && forall f :: f in order ==> filled.value[f] == record[f]
  {
    if order != [] {
      var init, last := order[..|order| - 1], order[|order| - 1];
      assert forall f :: f in order <==> f in init || f == last;
      PrintedFills(p, record, init);
      PrintedMeansItself(p, last, record[last]);
    }
  }

  /** Parsing the printed flags of a record gives the record back, and nothing else, in
      whatever order the flags are printed. */
  lemma ParsePrinted(p: Parser, record: Record, order: seq<string>)
    requires p.required <= record.Keys && Ordering(order, record)
    requires forall f :: f in record ==> Printable(p, f, record[f])
    ensures Parses(p, Args(PrintedGroups(record, order)), record)
    ensures forall other :: Parses(p, Args(PrintedGroups(record, order)), other) ==> other == record
  {
    var groups := PrintedGroups(record, order);
    PrintedFills(p, record, order);
    assert Filled(p, groups).value == record;
    forall other | Parses(p, Args(groups), other) ensures other == record {
      OneReading(p, Args(groups), groups, other);
    }
  }

  /** No argument that begins with two dashes, and no empty one, is ever taken as a value:
      in a list that parses it is one of the parser's flags. */
  lemma {:induction false} DashesAreFlags(p: Parser, groups: seq<Group>, i: nat)
    requires WellFormed(p, groups) && i < |Args(groups)|
    requires "--" <= Args(groups)[i] || Args(groups)[i] == ""
    ensures Args(groups)[i] in p.flags
  {
    var g, n := groups[0], 1 + |groups[0].written|;
    assert Meaning(p, g).Some?;
    if i >= n {
      assert Args(groups)[i] == Args(groups[1..])[i - n];
      DashesAreFlags(p, groups[1..], i - n);
    }
  }

  /** The same, said of the arguments alone. */
  lemma NoFlagIsTakenAsValue(p: Parser, args: seq<string>, record: Record, i: nat)
    requires Parses(p, args, record) && i < |args| && ("--" <= args[i] || args[i] == "")
    ensures args[i] in p.flags
  {
    var groups :| Args(groups) == args && Filled(p, groups) == Some(record);
    FilledIsWellFormed(p, groups);
    DashesAreFlags(p, groups, i);
  }

  /** Where a flag is given more than once, the last one counts. */
  lemma {:induction false} LastGroupWins(p: Parser, groups: seq<Group>, k: nat)
    requires Filled(p, groups).Some? && k < |groups|
    requires forall j :: k < j < |groups| ==> groups[j].flag != groups[k].flag
    ensures groups[k].flag in Filled(p, groups).value
    ensures Meaning(p, groups[k]) == Some(Filled(p, groups).value[groups[k].flag])
  {
    var init := groups[..|groups| - 1];
    if k < |init| {
      assert init[k] == groups[k] && groups[|groups| - 1].flag != groups[k].flag;
      LastGroupWins(p, init, k);
    }
  }

  /** Reordering whole flag groups does not change the result, as long as no flag is given
      twice. */
  lemma OrderDoesNotMatter(p: Parser, a: seq<Group>, b: seq<Group>, record: Record)
    requires Parses(p, Args(a), record) && WellFormed(p, a) && WellFormed(p, b)
    requires multiset(a) == multiset(b)
    requires DistinctFlags(a)
    ensures Parses(p, Args(b), record)
  {
    FilledIsWellFormed(p, a);
    FilledIsWellFormed(p, b);
    OneReading(p, Args(a), a, record);
    DistinctPermuted(a, b);
    SameMembers(a, b);
    SameFilled(p, a, b);
  }

  lemma SameMembers(a: seq<Group>, b: seq<Group>)
    requires multiset(a) == multiset(b)
    ensures forall g :: g in a <==> g in b
  {
    assert forall g :: g in a <==> g in multiset(a);
    assert forall g :: g in b <==> g in multiset(b);
  }

  lemma SameFilled(p: Parser, a: seq<Group>, b: seq<Group>)
    requires Filled(p, a).Some? && Filled(p, b).Some? && DistinctFlags(a) && DistinctFlags(b)
    requires forall g :: g in a <==> g in b
    ensures Filled(p, a) == Filled(p, b)
  {
    FilledByMembers(p, a);
    FilledByMembers(p, b);
    var x, y := Filled(p, a).value, Filled(p, b).value;
    forall f | f in x ensures f in y && y[f] == x[f] {
      var g :| g in a && g.flag == f;
    }
    forall f | f in y ensures f in x {
      var g :| g in b && g.flag == f;
    }
    assert x == y;
  }

  ghost predicate DistinctFlags(groups: seq<Group>) {
    forall i, j :: 0 <= i < j < |groups| ==> groups[i].flag != groups[j].flag
  }

  lemma DistinctPermuted(a: seq<Group>, b: seq<Group>)
    requires DistinctFlags(a) && multiset(a) == multiset(b)
    ensures DistinctFlags(b)
  {
    forall i, j | 0 <= i < j < |b| ensures b[i].flag != b[j].flag {
      assert b == b[..i] + [b[i]] + b[i + 1..j] + [b[j]] + b[j + 1..];
      assert multiset(b)[b[i]] >= 1 && multiset(b)[b[j]] >= 1;
      assert b[i] in multiset(a) && b[j] in multiset(a);
      if b[i] == b[j] {
        assert multiset(b)[b[i]] >= 2;
        OnceInDistinct(a, b[i]);
      }
    }
  }

  lemma {:induction false} OnceInDistinct(a: seq<Group>, g: Group)
    requires DistinctFlags(a)
    ensures multiset(a)[g] <= 1
  {
    if a != [] {
      var init, last := a[..|a| - 1], a[|a| - 1];
      OnceInDistinct(init, g);
      assert a == init + [last];
      if g == last {
        assert g !in init;
      }
    }
  }

  lemma {:induction false} FilledByMembers(p: Parser, groups: seq<Group>)
    requires Filled(p, groups).Some? && DistinctFlags(groups)
    ensures forall f :: f in Filled(p, groups).value <==> exists g :: g in groups && g.flag == f
    ensures forall g :: g in groups ==> g.flag in Filled(p, groups).value && Meaning(p, g) == Some(Filled(p, groups).value[g.flag])
  {
    if groups != [] {
      var init, last := groups[..|groups| - 1], groups[|groups| - 1];
      FilledByMembers(p, init);
      assert forall g :: g in groups <==> g in init || g == last;
      assert forall g :: g in init ==> g.flag != last.flag;
    }
  }

  /** If the switch is given at all, it is turned this way. */
  predicate OneWay(record: Record, flag: string, sets: bool) {
    flag in record ==> record[flag] == Flag(sets)
  }

  lemma {:induction false} FilledSwitch(p: Parser, groups: seq<Group>, flag: string)
    requires flag in p.flags && p.flags[flag].Switch? && Filled(p, groups).Some?
    ensures OneWay(Filled(p, groups).value, flag, p.flags[flag].sets)
  {
    if groups != [] {
      FilledSwitch(p, groups[..|groups| - 1], flag);
    }
  }

  lemma SwitchIsOneWay(p: Parser, args: seq<string>, record: Record, flag: string)
    requires flag in p.flags && p.flags[flag].Switch? && Parses(p, args, record)
    ensures OneWay(record, flag, p.flags[flag].sets)
  {
    var groups :| Args(groups) == args && Filled(p, groups) == Some(record);
    FilledSwitch(p, groups, flag);
  }

  // ---------- the four parsers ----------

  method ParseProvisionArgs(args: seq<string>) returns (result: Option<Record>)
    ensures result.Some? ==> Parses(PROVISION, args, result.value)
    ensures result.None? ==> forall record :: !Parses(PROVISION, args, record)
    ensures result.Some? ==> "--client-name" in result.value && OneWay(result.value, "--force-new", true)
    ensures result.Some? ==> OneWay(result.value, "--no-local-files", false)
  {
    result := ParseArgs(PROVISION, args);
    if result.Some? {
      SwitchIsOneWay(PROVISION, args, result.value, "--force-new");
      SwitchIsOneWay(PROVISION, args, result.value, "--no-local-files");
    }
  }

  method ParseUpdateRefArgs(args: seq<string>) returns (result: Option<Record>)
    ensures result.Some? ==> Parses(UPDATE_REF, args, result.value)
    ensures result.None? ==> forall record :: !Parses(UPDATE_REF, args, record)
    ensures result.Some? ==>
              && {"--service", "--template-ref", "--expected-current-ref"} <= result.value.Keys
              && OneWay(result.value, "--force-redeploy", true)
  {
    result := ParseArgs(UPDATE_REF, args);
    if result.Some? {
      SwitchIsOneWay(UPDATE_REF, args, result.value, "--force-redeploy");
    }
  }

  method ParseUpdateOpenClawRefArgs(args: seq<string>) returns (result: Option<Record>)
    ensures result.Some? ==> Parses(UPDATE_OPENCLAW_REF, args, result.value)
    ensures result.None? ==> forall record :: !Parses(UPDATE_OPENCLAW_REF, args, record)
    ensures result.Some? ==>
              && {"--service", "--openclaw-ref", "--expected-current-ref"} <= result.value.Keys
              && OneWay(result.value, "--force-redeploy", true)
  {
    result := ParseArgs(UPDATE_OPENCLAW_REF, args);
    if result.Some? {
      SwitchIsOneWay(UPDATE_OPENCLAW_REF, args, result.value, "--force-redeploy");
    }
  }

  method ParseRotateGatewayTokenArgs(args: seq<string>) returns (result: Option<Record>)
    ensures result.Some? ==> Parses(ROTATE, args, result.value)
    ensures result.None? ==> forall record :: !Parses(ROTATE, args, record)
    ensures result.Some? ==> "--service" in result.value
  {
    result := ParseArgs(ROTATE, args);
  }
}
