/** The build-time instrumentation of the transport source.  It cuts the source into a
    head, a factory region, a processor region and a tail, puts lines around anchors that
    occur exactly once, and glues the parts together again. */
module Instrument {
  import opened Options
  import opened Patching

  /** A replacement that puts its anchor back with text before and after it. */
  datatype Insertion<T> = Insertion(before: seq<T>, anchor: seq<T>, after: seq<T>) {
    function Replacement(): seq<T> { before + anchor + after }
  }

  /** replaceOnce: None is the thrown error. */
  function InsertOnce<T(==)>(s: seq<T>, ins: Insertion<T>): Option<seq<T>> {
    if Count(s, ins.anchor) != 1 then None else Some(ReplaceFirst(s, ins.anchor, ins.Replacement()))
  }

  function InsertEach<T(==)>(s: seq<T>, list: seq<Insertion<T>>): Option<seq<T>> {
    if list == [] then Some(s)
    else
      var before := InsertEach(s, list[..|list| - 1]);
      if before.None? then None else InsertOnce(before.value, list[|list| - 1])
  }

  /** `s.indexOf(b)`. */
  function IndexOf<T(==)>(s: seq<T>, b: seq<T>): (i: int)
    ensures i >= 0 ==> i + |b| <= |s|
    decreases |s|
  {
    if b <= s then 0
    else if s == [] then -1
    else
      var i := IndexOf(s[1..], b);
      if i < 0 then -1 else i + 1
  }

  datatype Plan<T> = Plan(
    factoryStart: seq<T>, processorStart: seq<T>, processorEnd: seq<T>,
    factory: seq<Insertion<T>>, processor: seq<Insertion<T>>, importLine: Insertion<T>)

  function Instrumented<T(==)>(source: seq<T>, plan: Plan<T>): Option<seq<T>> {
    if Count(source, plan.factoryStart) != 1 || Count(source, plan.processorStart) != 1
       || Count(source, plan.processorEnd) != 1
    then None
    else
      var start := IndexOf(source, plan.factoryStart);
      var middle := IndexOf(source, plan.processorStart);
      var end := IndexOf(source, plan.processorEnd);
      if !(0 <= start < middle < end <= |source|) then None
      else
        var factory := InsertEach(source[start..middle], plan.factory);
        var processor := InsertEach(source[middle..end], plan.processor);
        if factory.None? || processor.None? then None
        else InsertOnce(source[..start] + factory.value + processor.value + source[end..], plan.importLine)
  }

  // ---------- where every element comes from ----------

  datatype Part = Factory | Processor | Import

  /** An element of the result is the source's, or belongs to the text that insertion i of
      a part puts before or after its anchor. */
  datatype Origin = Source | Before(part: Part, i: nat) | After(part: Part, i: nat)

  datatype Traced<T> = Traced(t: T, origin: Origin)

  function Mark<T>(s: seq<T>, o: Origin): (trace: seq<Traced<T>>)
    ensures |trace| == |s| && forall k :: 0 <= k < |s| ==> trace[k] == Traced(s[k], o)
  {
    seq(|s|, k requires 0 <= k < |s| => Traced(s[k], o))
  }

  /** The text, without its origins. */
  function Erase<T>(trace: seq<Traced<T>>): (s: seq<T>)
    ensures |s| == |trace| && forall k :: 0 <= k < |s| ==> s[k] == trace[k].t
  {
    seq(|trace|, k requires 0 <= k < |trace| => trace[k].t)
  }

  /** What is left when everything that does not come from o is deleted. */
  function Pick<T>(trace: seq<Traced<T>>, o: Origin): seq<T> {
    if trace == [] then []
    else Pick(trace[..|trace| - 1], o) + if trace[|trace| - 1].origin == o then [trace[|trace| - 1].t] else []
  }

  /** One insertion, around the first occurrence of its anchor. */
  function TraceOnce<T(==)>(trace: seq<Traced<T>>, ins: Insertion<T>, part: Part, i: nat): seq<Traced<T>> {
    var k := IndexOf(Erase(trace), ins.anchor);
    if k < 0 then trace else TraceAt(trace, ins, part, i, k)
  }

  function TraceAt<T>(trace: seq<Traced<T>>, ins: Insertion<T>, part: Part, i: nat, k: nat): seq<Traced<T>>
    requires k + |ins.anchor| <= |trace|
  {
    var m := k + |ins.anchor|;
    trace[..k] + Mark(ins.before, Before(part, i)) + trace[k..m] + Mark(ins.after, After(part, i)) + trace[m..]
  }

  function TraceEach<T(==)>(s: seq<T>, list: seq<Insertion<T>>, part: Part): seq<Traced<T>> {
    if list == [] then Mark(s, Source)
    else TraceOnce(TraceEach(s, list[..|list| - 1], part), list[|list| - 1], part, |list| - 1)
  }

  /** The result but for the import line: head and tail are the source's own. */
  function TraceRegions<T(==)>(source: seq<T>, plan: Plan<T>, start: nat, middle: nat, end: nat): seq<Traced<T>>
    requires start <= middle <= end <= |source|
  {
    Mark(source[..start], Source) + TraceEach(source[start..middle], plan.factory, Factory)
    + TraceEach(source[middle..end], plan.processor, Processor) + Mark(source[end..], Source)
  }

  /** The texts an origin stands for. */
  function Planned<T>(source: seq<T>, plan: Plan<T>, o: Origin): seq<T> {
    match o
    case Source => source
    case Before(part, i) => if i < |ListOf(plan, part)| then ListOf(plan, part)[i].before else []
    case After(part, i) => if i < |ListOf(plan, part)| then ListOf(plan, part)[i].after else []
  }

  function ListOf<T>(plan: Plan<T>, part: Part): seq<Insertion<T>> {
    match part case Factory => plan.factory case Processor => plan.processor case Import => [plan.importLine]
  }

  // ---------- deletion ----------

  lemma {:induction false} PickConcat<T>(a: seq<Traced<T>>, b: seq<Traced<T>>, o: Origin)
    ensures Pick(a + b, o) == Pick(a, o) + Pick(b, o)
  {
    if b == [] {
      assert a + b == a;
    } else {
      assert (a + b)[..|a + b| - 1] == a + b[..|b| - 1];
      PickConcat(a, b[..|b| - 1], o);
    }
  }

  lemma {:induction false} PickMark<T>(s: seq<T>, o: Origin, from: Origin)
    ensures Pick(Mark(s, from), o) == if o == from then s else []
  {
    if s != [] {
      PickMark(s[..|s| - 1], o, from);
      assert Mark(s, from)[..|s| - 1] == Mark(s[..|s| - 1], from);
    }
  }

  lemma EraseConcat<T>(a: seq<Traced<T>>, b: seq<Traced<T>>)
    ensures Erase(a + b) == Erase(a) + Erase(b)
  {
  }

  lemma EraseMark<T>(s: seq<T>, o: Origin)
    ensures Erase(Mark(s, o)) == s
  {
  }

  lemma {:induction false} IndexIsFirst<T>(s: seq<T>, b: seq<T>)
    requires b != [] && Count(s, b) > 0
    ensures FirstAt(s, b, IndexOf(s, b))
    decreases |s|
  {
    if !(b <= s) {
      IndexIsFirst(s[1..], b);
      FirstInTail(s, b, IndexOf(s[1..], b));
    }
  }

  lemma FirstIsUnique<T>(s: seq<T>, b: seq<T>, i: int, j: int)
    requires FirstAt(s, b, i) && FirstAt(s, b, j)
    ensures i == j
  {
  }

  /** The traced insertion is the insertion. */
  lemma OnceErases<T>(trace: seq<Traced<T>>, ins: Insertion<T>, part: Part, i: nat)
    requires InsertOnce(Erase(trace), ins).Some?
    ensures Erase(TraceOnce(trace, ins, part, i)) == InsertOnce(Erase(trace), ins).value
  {
    var s := Erase(trace);
    var k := ReplaceShape(s, ins.anchor, ins.Replacement());
    IndexIsFirst(s, ins.anchor);
    FirstIsUnique(s, ins.anchor, k, IndexOf(s, ins.anchor));
    AtErases(trace, ins, part, i, k);
  }

  lemma AtErases<T>(trace: seq<Traced<T>>, ins: Insertion<T>, part: Part, i: nat, k: nat)
    requires OccursAt(Erase(trace), ins.anchor, k)
    ensures Erase(TraceAt(trace, ins, part, i, k)) ==
            Erase(trace)[..k] + ins.Replacement() + Erase(trace)[k + |ins.anchor|..]
  {
    var m := k + |ins.anchor|;
    ErasedParts(trace, k, m, ins.before, Before(part, i), ins.after, After(part, i));
    assert Erase(trace)[k..m] == ins.anchor;
  }

  lemma ErasedParts<T>(trace: seq<Traced<T>>, k: nat, m: nat, before: seq<T>, o: Origin, after: seq<T>, p: Origin)
    requires k <= m <= |trace|
    ensures Erase(trace[..k] + Mark(before, o) + trace[k..m] + Mark(after, p) + trace[m..]) ==
            Erase(trace)[..k] + (before + Erase(trace)[k..m] + after) + Erase(trace)[m..]
  {
  }

  lemma {:induction false} EachErases<T>(s: seq<T>, list: seq<Insertion<T>>, part: Part)
    requires InsertEach(s, list).Some?
    ensures Erase(TraceEach(s, list, part)) == InsertEach(s, list).value
  {
    if list == [] {
      EraseMark(s, Source);
    } else {
      EachErases(s, list[..|list| - 1], part);
      OnceErases(TraceEach(s, list[..|list| - 1], part), list[|list| - 1], part, |list| - 1);
    }
  }

  /** An insertion adds its own texts, and deleting them gives back what was there. */
  lemma AtPicks<T>(trace: seq<Traced<T>>, ins: Insertion<T>, part: Part, i: nat, k: nat, o: Origin)
    requires k + |ins.anchor| <= |trace|
    requires Pick(trace, Before(part, i)) == [] && Pick(trace, After(part, i)) == []
    ensures Pick(TraceAt(trace, ins, part, i, k), o) ==
            if o == Before(part, i) then ins.before else if o == After(part, i) then ins.after else Pick(trace, o)
  {
    var x, y, z, b, a := TraceAtPicks(trace, ins, part, i, k, o);
    Woven(x, y, z, b, a, Pick(trace, o));
  }

  lemma TraceAtPicks<T>(trace: seq<Traced<T>>, ins: Insertion<T>, part: Part, i: nat, k: nat, o: Origin)
    returns (x: seq<T>, y: seq<T>, z: seq<T>, b: seq<T>, a: seq<T>)
    requires k + |ins.anchor| <= |trace|
    ensures b == (if o == Before(part, i) then ins.before else []) && a == if o == After(part, i) then ins.after else []
    ensures Pick(trace, o) == x + y + z && Pick(TraceAt(trace, ins, part, i, k), o) == x + b + y + a + z
  {
    var m := k + |ins.anchor|;
    x, y, z := Pick(trace[..k], o), Pick(trace[k..m], o), Pick(trace[m..], o);
    PickSplit(trace, k, m, o);
    b, a := PickedParts(trace, k, m, ins.before, Before(part, i), ins.after, After(part, i), o);
  }

  lemma PickSplit<T>(trace: seq<Traced<T>>, k: nat, m: nat, o: Origin)
    requires k <= m <= |trace|
    ensures Pick(trace, o) == Pick(trace[..k], o) + Pick(trace[k..m], o) + Pick(trace[m..], o)
  {
    assert trace == trace[..k] + trace[k..m] + trace[m..];
    PickConcat(trace[..k] + trace[k..m], trace[m..], o);
    PickConcat(trace[..k], trace[k..m], o);
  }

  lemma Woven<T>(x: seq<T>, y: seq<T>, z: seq<T>, b: seq<T>, a: seq<T>, whole: seq<T>)
    requires x + y + z == whole
    ensures b == [] && a == [] ==> x + b + y + a + z == whole
    ensures whole == [] && a == [] ==> x + b + y + a + z == b
    ensures whole == [] && b == [] ==> x + b + y + a + z == a
  {
  }

  lemma PickedParts<T>(trace: seq<Traced<T>>, k: nat, m: nat, before: seq<T>, from: Origin, after: seq<T>, to: Origin, o: Origin)
    returns (b: seq<T>, a: seq<T>)
    requires k <= m <= |trace|
    ensures b == (if o == from then before else []) && a == if o == to then after else []
    ensures Pick(trace[..k] + Mark(before, from) + trace[k..m] + Mark(after, to) + trace[m..], o) ==
            Pick(trace[..k], o) + b + Pick(trace[k..m], o) + a + Pick(trace[m..], o)
  {
    b, a := Pick(Mark(before, from), o), Pick(Mark(after, to), o);
    PickConcat(trace[..k] + Mark(before, from) + trace[k..m] + Mark(after, to), trace[m..], o);
    PickConcat(trace[..k] + Mark(before, from) + trace[k..m], Mark(after, to), o);
    PickConcat(trace[..k] + Mark(before, from), trace[k..m], o);
    PickConcat(trace[..k], Mark(before, from), o);
    PickMark(before, o, from);
    PickMark(after, o, to);
  }

  /** What a traced region holds of each origin. */
  function InRegion<T>(s: seq<T>, list: seq<Insertion<T>>, part: Part, o: Origin): seq<T> {
    match o
    case Source => s
    case Before(p, i) => if p == part && i < |list| then list[i].before else []
    case After(p, i) => if p == part && i < |list| then list[i].after else []
  }

  lemma RegionGrows<T>(s: seq<T>, list: seq<Insertion<T>>, part: Part, o: Origin)
    requires list != []
    ensures InRegion(s, list, part, o) ==
            if o == Before(part, |list| - 1) then list[|list| - 1].before
            else if o == After(part, |list| - 1) then list[|list| - 1].after
            else InRegion(s, list[..|list| - 1], part, o)
  {
  }

  lemma {:induction false} EachPicks<T>(s: seq<T>, list: seq<Insertion<T>>, part: Part, o: Origin)
    requires InsertEach(s, list).Some?
    ensures Pick(TraceEach(s, list, part), o) == InRegion(s, list, part, o)
    decreases |list|
  {
    if list == [] {
      PickMark(s, o, Source);
    } else {
      var init, i := list[..|list| - 1], |list| - 1;
      EachPicks(s, init, part, o);
      EachPicks(s, init, part, Before(part, i));
      EachPicks(s, init, part, After(part, i));
      EachErases(s, init, part);
      RegionGrows(s, list, part, o);
      OncePicks(TraceEach(s, init, part), list[i], part, i, o);
    }
  }

  lemma OncePicks<T>(trace: seq<Traced<T>>, ins: Insertion<T>, part: Part, i: nat, o: Origin)
    requires InsertOnce(Erase(trace), ins).Some?
    requires Pick(trace, Before(part, i)) == [] && Pick(trace, After(part, i)) == []
    ensures Pick(TraceOnce(trace, ins, part, i), o) ==
            if o == Before(part, i) then ins.before else if o == After(part, i) then ins.after else Pick(trace, o)
  {
    var s := Erase(trace);
    CountedIsNonempty(s, ins.anchor);
    IndexIsFirst(s, ins.anchor);
    AtPicks(trace, ins, part, i, IndexOf(s, ins.anchor), o);
  }

  lemma CountedIsNonempty<T>(s: seq<T>, b: seq<T>)
    requires Count(s, b) > 0
    ensures b != []
  {
  }

  // ---------- the whole source ----------

  lemma FourPicks<T>(head: seq<Traced<T>>, f: seq<Traced<T>>, p: seq<Traced<T>>, tail: seq<Traced<T>>, o: Origin)
    ensures Pick(head + f + p + tail, o) == Pick(head, o) + Pick(f, o) + Pick(p, o) + Pick(tail, o)
  {
    PickConcat(head + f + p, tail, o);
    PickConcat(head + f, p, o);
    PickConcat(head, f, o);
  }

  lemma RegionsPick<T>(source: seq<T>, plan: Plan<T>, start: nat, middle: nat, end: nat, o: Origin)
    requires start <= middle <= end <= |source|
    requires InsertEach(source[start..middle], plan.factory).Some?
    requires InsertEach(source[middle..end], plan.processor).Some?
    ensures Pick(TraceRegions(source, plan, start, middle, end), o) ==
            if o != Source && o.part == Import then [] else Planned(source, plan, o)
  {
    var f, p := TraceEach(source[start..middle], plan.factory, Factory), TraceEach(source[middle..end], plan.processor, Processor);
    FourPicks(Mark(source[..start], Source), f, p, Mark(source[end..], Source), o);
    PickMark(source[..start], o, Source);
    PickMark(source[end..], o, Source);
    EachPicks(source[start..middle], plan.factory, Factory, o);
    EachPicks(source[middle..end], plan.processor, Processor, o);
    PlannedParts(source, plan, start, middle, end, o);
  }

  lemma PlannedParts<T>(source: seq<T>, plan: Plan<T>, start: nat, middle: nat, end: nat, o: Origin)
    requires start <= middle <= end <= |source|
    ensures (if o == Source then source[..start] else []) + InRegion(source[start..middle], plan.factory, Factory, o)
            + InRegion(source[middle..end], plan.processor, Processor, o) + (if o == Source then source[end..] else [])
            == if o != Source && o.part == Import then [] else Planned(source, plan, o)
  {
    if o == Source {
      assert source == source[..start] + source[start..middle] + source[middle..end] + source[end..];
    } else {
      Sole(InRegion(source[start..middle], plan.factory, Factory, o), InRegion(source[middle..end], plan.processor, Processor, o));
    }
  }

  lemma Sole<T>(f: seq<T>, p: seq<T>)
    ensures p == [] ==> [] + f + p + [] == f
    ensures f == [] ==> [] + f + p + [] == p
  {
  }

  lemma RegionsErase<T>(source: seq<T>, plan: Plan<T>, start: nat, middle: nat, end: nat)
    requires start <= middle <= end <= |source|
    requires InsertEach(source[start..middle], plan.factory).Some?
    requires InsertEach(source[middle..end], plan.processor).Some?
    ensures Erase(TraceRegions(source, plan, start, middle, end)) ==
            source[..start] + InsertEach(source[start..middle], plan.factory).value
            + InsertEach(source[middle..end], plan.processor).value + source[end..]
  {
    var head, tail := Mark(source[..start], Source), Mark(source[end..], Source);
    var f := TraceEach(source[start..middle], plan.factory, Factory);
    var p := TraceEach(source[middle..end], plan.processor, Processor);
    EachErases(source[start..middle], plan.factory, Factory);
    EachErases(source[middle..end], plan.processor, Processor);
    EraseConcat(head + f + p, tail);
    EraseConcat(head + f, p);
    EraseConcat(head, f);
    EraseMark(source[..start], Source);
    EraseMark(source[end..], Source);
  }

  /** The regions are where the anchors stand. */
  ghost predicate Cut<T>(source: seq<T>, plan: Plan<T>, start: int, middle: int, end: int) {
    && FirstAt(source, plan.factoryStart, start) && FirstAt(source, plan.processorStart, middle)
    && FirstAt(source, plan.processorEnd, end) && start < middle < end
  }

  /** The result read with origins: deleting all that was inserted gives back the source,
      and what was inserted is every planned text, each once, and nothing else. */
  ghost predicate OnlyInserts<T>(source: seq<T>, plan: Plan<T>, result: seq<T>, trace: seq<Traced<T>>) {
    Erase(trace) == result && forall o :: Pick(trace, o) == Planned(source, plan, o)
  }

  /** The main result.  Whenever instrumentation succeeds, the anchors cut the source into
      head, factory, processor and tail; apart from the import line the result is the head,
      the two regions with their own insertions, and the tail; and it holds the source and
      every planned text exactly once, and nothing else. */
  lemma InstrumentationOnlyInserts<T>(source: seq<T>, plan: Plan<T>)
    returns (start: int, middle: int, end: int, trace: seq<Traced<T>>)
    requires Instrumented(source, plan).Some?
    ensures Cut(source, plan, start, middle, end)
    ensures InsertEach(source[start..middle], plan.factory).Some? && InsertEach(source[middle..end], plan.processor).Some?
    ensures trace == TraceOnce(TraceRegions(source, plan, start, middle, end), plan.importLine, Import, 0)
    ensures OnlyInserts(source, plan, Instrumented(source, plan).value, trace)
  {
    start := IndexOf(source, plan.factoryStart);
    middle := IndexOf(source, plan.processorStart);
    end := IndexOf(source, plan.processorEnd);
    CountedIsNonempty(source, plan.factoryStart);
    CountedIsNonempty(source, plan.processorStart);
    CountedIsNonempty(source, plan.processorEnd);
    IndexIsFirst(source, plan.factoryStart);
    IndexIsFirst(source, plan.processorStart);
    IndexIsFirst(source, plan.processorEnd);
    trace := ImportTraced(source, plan, start, middle, end);
  }

  lemma ImportTraced<T>(source: seq<T>, plan: Plan<T>, start: nat, middle: nat, end: nat) returns (trace: seq<Traced<T>>)
    requires start <= middle <= end <= |source|
    requires InsertEach(source[start..middle], plan.factory).Some?
    requires InsertEach(source[middle..end], plan.processor).Some?
    requires InsertOnce(source[..start] + InsertEach(source[start..middle], plan.factory).value
                        + InsertEach(source[middle..end], plan.processor).value + source[end..], plan.importLine).Some?
    ensures trace == TraceOnce(TraceRegions(source, plan, start, middle, end), plan.importLine, Import, 0)
    ensures OnlyInserts(source, plan,
                        InsertOnce(source[..start] + InsertEach(source[start..middle], plan.factory).value
                                   + InsertEach(source[middle..end], plan.processor).value + source[end..],
                                   plan.importLine).value, trace)
  {
    var regions, ins := TraceRegions(source, plan, start, middle, end), plan.importLine;
    trace := TraceOnce(regions, ins, Import, 0);
    RegionsErase(source, plan, start, middle, end);
    OnceErases(regions, ins, Import, 0);
    RegionsPick(source, plan, start, middle, end, Before(Import, 0));
    RegionsPick(source, plan, start, middle, end, After(Import, 0));
    forall o ensures Pick(trace, o) == Planned(source, plan, o) {
      RegionsPick(source, plan, start, middle, end, o);
      OncePicks(regions, ins, Import, 0, o);
      ImportPlanned(source, plan, o);
    }
  }

  lemma ImportPlanned<T>(source: seq<T>, plan: Plan<T>, o: Origin)
    ensures o != Source && o.part == Import ==>
            Planned(source, plan, o) ==
            if o.i != 0 then [] else if o.Before? then plan.importLine.before else plan.importLine.after
  {
  }

  // ---------- when it refuses ----------

  lemma CountsOnce<T>(s: seq<T>, b: seq<T>)
    ensures Count(s, b) == 1 <==> OccursOnce(s, b)
  {
    if b != [] {
      CountIsOne(s, b);
    } else {
      forall i: nat | FirstAt(s, b, i) ensures Contains(s[i + |b|..], b) {
        assert OccursAt(s[i..], b, 0);
      }
    }
  }

  /** At each insertion's turn its anchor occurs exactly once in the text so far. */
  ghost predicate Insertable<T>(s: seq<T>, list: seq<Insertion<T>>) {
    forall i :: 0 <= i < |list| ==> OnceInTurn(s, list, i)
  }

  ghost predicate OnceInTurn<T>(s: seq<T>, list: seq<Insertion<T>>, i: nat)
    requires i < |list|
  {
    InsertEach(s, list[..i]).Some? && OccursOnce(InsertEach(s, list[..i]).value, list[i].anchor)
  }

  lemma {:induction false} InsertEachExactly<T>(s: seq<T>, list: seq<Insertion<T>>)
    ensures InsertEach(s, list).Some? <==> Insertable(s, list)
  {
    if list != [] {
      var init, n := list[..|list| - 1], |list| - 1;
      InsertEachExactly(s, init);
      forall i | 0 <= i < n ensures OnceInTurn(s, init, i) <==> OnceInTurn(s, list, i) {
        assert init[..i] == list[..i];
      }
      if InsertEach(s, init).Some? {
        CountsOnce(InsertEach(s, init).value, list[n].anchor);
      }
      assert Insertable(s, list) <==> Insertable(s, init) && OnceInTurn(s, list, n);
    }
  }

  /** The source is instrumented if and only if the three anchors occur once each, in this
      order, and every insertion of the plan finds its own anchor exactly once in its turn. */
  lemma InstrumentedExactly<T>(source: seq<T>, plan: Plan<T>)
    ensures Instrumented(source, plan).Some? <==>
            && OccursOnce(source, plan.factoryStart) && OccursOnce(source, plan.processorStart)
            && OccursOnce(source, plan.processorEnd)
            && exists start, middle, end ::
                 && Cut(source, plan, start, middle, end)
                 && Insertable(source[start..middle], plan.factory) && Insertable(source[middle..end], plan.processor)
                 && OccursOnce(Erase(TraceRegions(source, plan, start, middle, end)), plan.importLine.anchor)
  {
    CountsOnce(source, plan.factoryStart);
    CountsOnce(source, plan.processorStart);
    CountsOnce(source, plan.processorEnd);
    if Count(source, plan.factoryStart) == 1 && Count(source, plan.processorStart) == 1 && Count(source, plan.processorEnd) == 1 {
      OrderedExactly(source, plan);
    }
  }

  lemma OneCut<T>(source: seq<T>, plan: Plan<T>, start: int, middle: int, end: int)
    requires Count(source, plan.factoryStart) == 1 && Count(source, plan.processorStart) == 1 && Count(source, plan.processorEnd) == 1
    ensures Cut(source, plan, start, middle, end) <==>
            && start == IndexOf(source, plan.factoryStart) && middle == IndexOf(source, plan.processorStart)
            && end == IndexOf(source, plan.processorEnd) && 0 <= start < middle < end <= |source|
  {
    CountedIsNonempty(source, plan.factoryStart);
    CountedIsNonempty(source, plan.processorStart);
    CountedIsNonempty(source, plan.processorEnd);
    IndexIsFirst(source, plan.factoryStart);
    IndexIsFirst(source, plan.processorStart);
    IndexIsFirst(source, plan.processorEnd);
  }

  lemma OrderedExactly<T>(source: seq<T>, plan: Plan<T>)
    requires Count(source, plan.factoryStart) == 1 && Count(source, plan.processorStart) == 1 && Count(source, plan.processorEnd) == 1
    ensures Instrumented(source, plan).Some? <==>
            exists start, middle, end ::
              && Cut(source, plan, start, middle, end)
              && Insertable(source[start..middle], plan.factory) && Insertable(source[middle..end], plan.processor)
              && OccursOnce(Erase(TraceRegions(source, plan, start, middle, end)), plan.importLine.anchor)
  {
    var start, middle, end :=
      IndexOf(source, plan.factoryStart), IndexOf(source, plan.processorStart), IndexOf(source, plan.processorEnd);
    forall a, b, c ensures Cut(source, plan, a, b, c) <==> a == start && b == middle && c == end && 0 <= start < middle < end <= |source| {
      OneCut(source, plan, a, b, c);
    }
    if 0 <= start < middle < end <= |source| {
      assert Cut(source, plan, start, middle, end);
      InsertEachExactly(source[start..middle], plan.factory);
      InsertEachExactly(source[middle..end], plan.processor);
      if Insertable(source[start..middle], plan.factory) && Insertable(source[middle..end], plan.processor) {
        RegionsErase(source, plan, start, middle, end);
        CountsOnce(Erase(TraceRegions(source, plan, start, middle, end)), plan.importLine.anchor);
      }
    }
  }

  // ---------- the program ----------

  method InsertInto<T(==)>(region: seq<T>, list: seq<Insertion<T>>) returns (result: Option<seq<T>>)
    ensures result == InsertEach(region, list)
  {
    var text := region;
    for i := 0 to |list|
      invariant InsertEach(region, list[..i]) == Some(text)
    {
      assert list[..i + 1][..i] == list[..i];
      var next := InsertOnce(text, list[i]);
      if next.None? {
        FailsForGood(region, list, i + 1);
        return None;
      }
      text := next.value;
    }
    assert list[..|list|] == list;
    return Some(text);
  }

  lemma {:induction false} FailsForGood<T>(region: seq<T>, list: seq<Insertion<T>>, n: nat)
    requires n <= |list| && InsertEach(region, list[..n]).None?
    ensures InsertEach(region, list).None?
    decreases |list| - n
  {
    if n == |list| {
      assert list[..n] == list;
    } else {
      assert list[..n + 1][..n] == list[..n];
      FailsForGood(region, list, n + 1);
    }
  }

  /** instrumentOpenAIStreamMetadata. */
  method InstrumentSource<T(==)>(source: seq<T>, plan: Plan<T>) returns (result: Option<seq<T>>)
    ensures result == Instrumented(source, plan)
    ensures result.Some? ==>
              exists start, middle, end, trace ::
                && Cut(source, plan, start, middle, end) && OnlyInserts(source, plan, result.value, trace)
                && trace == TraceOnce(TraceRegions(source, plan, start, middle, end), plan.importLine, Import, 0)
  {
    var anchors := [plan.factoryStart, plan.processorStart, plan.processorEnd];
    for i := 0 to 3
      invariant forall k :: 0 <= k < i ==> Count(source, anchors[k]) == 1
    {
      if Count(source, anchors[i]) != 1 {
        return None;
      }
    }
    assert Count(source, anchors[0]) == 1 && Count(source, anchors[1]) == 1 && Count(source, anchors[2]) == 1;
    var start := IndexOf(source, plan.factoryStart);
    var middle := IndexOf(source, plan.processorStart);
    var end := IndexOf(source, plan.processorEnd);
    CountedIsNonempty(source, plan.factoryStart);
    CountedIsNonempty(source, plan.processorEnd);
    IndexIsFirst(source, plan.factoryStart);
    IndexIsFirst(source, plan.processorEnd);
    if !(start < middle && middle < end) {
      return None;
    }
    var factory := InsertInto(source[start..middle], plan.factory);
    if factory.None? {
      return None;
    }
    var processor := InsertInto(source[middle..end], plan.processor);
    if processor.None? {
      return None;
    }
    result := InsertOnce(source[..start] + factory.value + processor.value + source[end..], plan.importLine);
    if result.Some? {
      ghost var _, _, _, trace := InstrumentationOnlyInserts(source, plan);
    }
  }
}
