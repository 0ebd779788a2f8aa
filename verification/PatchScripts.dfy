/** Several patch scripts run one after another over the same file: a script refuses its
    own output, still refuses it after the others have run, and scripts that share an
    anchor succeed in any order. */
module PatchScripts {
  import opened Patching

  lemma {:induction false} NewBlocksAppear<T>(pieces: seq<Piece<T>>, r: Rule<T>)
    requires Swaps(pieces, r) > 0
    ensures Contains(After(pieces), r.new')
  {
    var rest := After(pieces[1..]);
    if pieces[0] == Swap(r) {
      assert After(pieces)[0..|r.new'|] == r.new';
      assert OccursAt(After(pieces), r.new', 0);
    } else {
      NewBlocksAppear(pieces[1..], r);
      var i :| OccursAt(rest, r.new', i);
      var head := match pieces[0] case Keep(t) => [t] case Swap(q) => q.new';
      InAppended(head, rest, r.new', i);
    }
  }

  lemma InAppended<T>(head: seq<T>, rest: seq<T>, b: seq<T>, i: int)
    requires OccursAt(rest, b, i)
    ensures OccursAt(head + rest, b, |head| + i)
  {
    assert (head + rest)[|head| + i..|head| + i + |b|] == rest[i..i + |b|];
  }

  lemma ContainsTransitive<T>(s: seq<T>, b: seq<T>, m: seq<T>)
    requires Contains(s, b) && Contains(b, m)
    ensures Contains(s, m)
  {
    var i :| OccursAt(s, b, i);
    var j :| OccursAt(b, m, j);
    assert s[i..i + |b|] == b && b[j..j + |m|] == m;
    assert forall k :: 0 <= k < |m| ==> s[i + j + k] == b[j + k] == m[k];
    assert OccursAt(s, m, i + j);
  }

  /** Every marker is part of what its rule puts in. */
  ghost predicate Marked<T>(rules: seq<Rule<T>>) {
    forall r :: r in rules ==> Contains(r.new', r.marker)
  }

  /** After a script has run, the marker of every one of its rules is in the text. */
  lemma OutputIsMarked<T(!new)>(s: seq<T>, rules: seq<Rule<T>>, r: Rule<T>)
    requires Script(rules) && Marked(rules) && Passes(s, rules) && r in rules
    ensures Contains(Apply(s, rules), r.marker)
  {
    LoopIsSimultaneous(s, rules);
    assert r in RuleSet(rules);
    SwapsAreCounted(s, RuleSet(rules), r);
    NewBlocksAppear(Parse(s, RuleSet(rules)), r);
    ContainsTransitive(Apply(s, rules), r.new', r.marker);
  }

  /** A script refuses its own output. */
  lemma RefusesOwnOutput<T(!new)>(s: seq<T>, rules: seq<Rule<T>>)
    requires Script(rules) && Marked(rules) && Passes(s, rules) && rules != []
    ensures !Passes(Apply(s, rules), rules)
  {
    var r := rules[0];
    OutputIsMarked(s, rules, r);
    assert r in RuleSet(rules);
    ContainedCounts(Apply(s, rules), r.marker);
    assert !GuardPasses(Apply(s, rules), r);
  }

  // ---------- another script's replacements ----------

  lemma MarkerSurvivesOne<T>(s: seq<T>, m: seq<T>, old': seq<T>, new': seq<T>)
    requires m != [] && old' != [] && Clash(m, old') && Contains(s, m)
    ensures Contains(ReplaceFirst(s, old', new'), m)
  {
    if Count(s, old') == 0 {
      NothingToReplace(s, old', new');
    } else {
      var i := ReplaceShape(s, old', new');
      var j :| OccursAt(s, m, j);
      ClashingOccurrences(s, m, j, old', i);
      var s' := ReplaceFirst(s, old', new');
      if j + |m| <= i {
        assert s'[j..j + |m|] == s[j..j + |m|];
        assert OccursAt(s', m, j);
      } else {
        var head, tail := s[..i] + new', s[i + |old'|..];
        assert tail[j - i - |old'|..j - i - |old'| + |m|] == s[j..j + |m|];
        InAppended(head, tail, m, j - i - |old'|);
      }
    }
  }

  /** A marker no old block of the others can lie across survives them all. */
  lemma {:induction false} MarkerSurvives<T>(s: seq<T>, m: seq<T>, others: seq<Rule<T>>)
    requires m != [] && Contains(s, m)
    requires forall q :: q in others ==> q.old' != [] && Clash(m, q.old')
    ensures Contains(Apply(s, others), m)
  {
    if others != [] {
      var init, last := others[..|others| - 1], others[|others| - 1];
      MarkerSurvives(s, m, init);
      MarkerSurvivesOne(Apply(s, init), m, last.old', last.new');
    }
  }

  /** A rerun is refused whatever other rules were applied in between, as long as one
      marker of the script cannot be cut by them. */
  lemma StillRefused<T(!new)>(s: seq<T>, rules: seq<Rule<T>>, others: seq<Rule<T>>, r: Rule<T>)
    requires Script(rules) && Marked(rules) && Passes(s, rules) && r in rules
    requires forall q :: q in others ==> q.old' != [] && Clash(r.marker, q.old')
    ensures !Passes(Apply(Apply(s, rules), others), rules)
  {
    OutputIsMarked(s, rules, r);
    assert r in RuleSet(rules);
    MarkerSurvives(Apply(s, rules), r.marker, others);
    ContainedCounts(Apply(Apply(s, rules), others), r.marker);
    assert !GuardPasses(Apply(Apply(s, rules), others), r);
  }

  lemma MarkerStaysAbsent<T>(s: seq<T>, m: seq<T>, old': seq<T>, new': seq<T>)
    requires m != [] && old' != [] && new' != [] && Clash(m, new') && Count(s, m) == 0
    ensures Count(ReplaceFirst(s, old', new'), m) == 0
  {
    if Count(s, old') == 0 {
      NothingToReplace(s, old', new');
    } else {
      var head, tail := ReplaceParts(s, old', new');
      UncountedIsAbsent(s, m);
      OutsideReplaced(head, old', new', tail, m);
      AbsentIsUncounted(ReplaceFirst(s, old', new'), m);
    }
  }

  /** A block that cannot lie across the new block was there before. */
  lemma OutsideReplaced<T>(head: seq<T>, old': seq<T>, new': seq<T>, tail: seq<T>, m: seq<T>)
    requires m != [] && new' != [] && Clash(m, new')
    ensures Contains(head + new' + tail, m) ==> Contains(head + old' + tail, m)
  {
    forall j | OccursAt(head + new' + tail, m, j) ensures Contains(head + old' + tail, m) {
      OutsideAt(head, old', new', tail, m, j);
    }
  }

  lemma OutsideAt<T>(head: seq<T>, old': seq<T>, new': seq<T>, tail: seq<T>, m: seq<T>, j: int)
    requires m != [] && new' != [] && Clash(m, new') && OccursAt(head + new' + tail, m, j)
    ensures Contains(head + old' + tail, m)
  {
    var s' := head + new' + tail;
    assert OccursAt(head + new', new', |head|);
    assert s'[|head|..|head| + |new'|] == new';
    ClashingOccurrences(s', m, j, new', |head|);
    if j + |m| <= |head| {
      assert head[j..j + |m|] == s'[j..j + |m|];
      assert (head + old' + tail)[j..j + |m|] == head[j..j + |m|];
      assert OccursAt(head + old' + tail, m, j);
    } else {
      var k := j - |head| - |new'|;
      assert tail[k..k + |m|] == s'[j..j + |m|];
      InAppended(head + old', tail, m, k);
    }
  }

  /** An anchor that its rule puts back in front of an addition that cannot overlap it is
      found exactly once again. */
  lemma {:induction false} AnchorKept<T>(s: seq<T>, t: seq<T>, x: seq<T>)
    requires t != [] && Clash(x, t)
    ensures Count(ReplaceFirst(s, t, t + x), t) == Count(s, t)
    decreases |s|
  {
    var s' := ReplaceFirst(s, t, t + x);
    if |s| < |t| {
    } else if t <= s {
      var rest := s[|t|..];
      assert s'[|t|..] == x + rest && (x + rest)[0..] == x + rest;
      CountAcross(x, rest, t, 0);
    } else {
      AnchorKept(s[1..], t, x);
      assert s'[1..] == ReplaceFirst(s[1..], t, t + x);
      if t <= s' {
        AnchorNotSooner(s, t, x);
      }
    }
  }

  lemma AnchorNotSooner<T>(s: seq<T>, t: seq<T>, x: seq<T>)
    requires t != [] && t <= ReplaceFirst(s, t, t + x)
    ensures t <= s
  {
    if Count(s, t) == 0 {
      NothingToReplace(s, t, t + x);
    } else {
      var i := ReplaceShape(s, t, t + x);
      assert s[..i] + (t + x) + s[i + |t|..] == (s[..i] + t) + (x + s[i + |t|..]);
      assert s[..i] + t == s[..i + |t|];
    }
  }

  /** a's replacement leaves b's guard as it was: b's marker cannot arise from it, and b's
      anchor is either untouched or a's own anchor, put back before an addition. */
  ghost predicate Leaves<T>(a: Rule<T>, b: Rule<T>) {
    && Clash(b.marker, a.new')
    && (|| (Clash(a.old', b.old') && Clash(a.new', b.old'))
        || (a.old' == b.old' && b.old' <= a.new' && Clash(a.new'[|b.old'|..], b.old')))
  }

  lemma GuardKept<T>(s: seq<T>, a: Rule<T>, b: Rule<T>)
    requires Proper(a) && Proper(b) && Leaves(a, b) && GuardPasses(s, b)
    ensures GuardPasses(ReplaceFirst(s, a.old', a.new'), b)
  {
    MarkerStaysAbsent(s, b.marker, a.old', a.new');
    if Clash(a.old', b.old') && Clash(a.new', b.old') {
      CountKept(s, a.old', a.new', b.old');
    } else {
      assert a.new' == b.old' + a.new'[|b.old'|..];
      AnchorKept(s, b.old', a.new'[|b.old'|..]);
    }
  }

  lemma {:induction false} GuardsKept<T>(s: seq<T>, done: seq<Rule<T>>, b: Rule<T>)
    requires Proper(b) && GuardPasses(s, b) && forall a :: a in done ==> Proper(a) && Leaves(a, b)
    ensures GuardPasses(Apply(s, done), b)
  {
    if done != [] {
      var init, last := done[..|done| - 1], done[|done| - 1];
      GuardsKept(s, init, b);
      GuardKept(Apply(s, init), last, b);
    }
  }

  ghost predicate LeavesAll<T>(first: seq<Rule<T>>, second: seq<Rule<T>>) {
    forall a, b :: a in first && b in second ==> Leaves(a, b)
  }

  ghost predicate AllProper<T>(rules: seq<Rule<T>>) {
    forall r :: r in rules ==> Proper(r)
  }

  /** The file after each of several scripts has run over it in turn. */
  function Build<T(==)>(s: seq<T>, scripts: seq<seq<Rule<T>>>): seq<T> {
    if scripts == [] then s
    else Apply(Build(s, scripts[..|scripts| - 1]), scripts[|scripts| - 1])
  }

  ghost predicate Compatible<T>(scripts: seq<seq<Rule<T>>>) {
    forall i, j :: 0 <= i < |scripts| && 0 <= j < |scripts| && i != j ==> LeavesAll(scripts[i], scripts[j])
  }

  /** One marker of script k that no old block of another script can lie across. */
  ghost predicate Lasting<T>(scripts: seq<seq<Rule<T>>>, k: int, r: Rule<T>) {
    && 0 <= k < |scripts| && r in scripts[k]
    && forall j, q :: 0 <= j < |scripts| && j != k && q in scripts[j] ==> Clash(r.marker, q.old')
  }

  ghost predicate AllScripts<T(!new)>(scripts: seq<seq<Rule<T>>>) {
    forall k :: 0 <= k < |scripts| ==> Script(scripts[k]) && Marked(scripts[k])
  }

  lemma {:induction false} GuardSurvivesBuild<T(!new)>(s: seq<T>, scripts: seq<seq<Rule<T>>>, n: nat, k: nat, b: Rule<T>)
    requires AllScripts(scripts) && Compatible(scripts) && n <= k < |scripts| && b in scripts[k] && GuardPasses(s, b)
    ensures GuardPasses(Build(s, scripts[..n]), b)
  {
    if n > 0 {
      GuardSurvivesBuild(s, scripts, n - 1, k, b);
      assert scripts[..n][..n - 1] == scripts[..n - 1];
      ScriptIsProper(scripts[n - 1]);
      ScriptIsProper(scripts[k]);
      assert LeavesAll(scripts[n - 1], scripts[k]);
      GuardsKept(Build(s, scripts[..n - 1]), scripts[n - 1], b);
    }
  }

  lemma {:induction false} MarkerSurvivesBuild<T(!new)>(s: seq<T>, scripts: seq<seq<Rule<T>>>, k: nat, r: Rule<T>, n: nat)
    requires AllScripts(scripts) && Lasting(scripts, k, r) && k < n <= |scripts|
    requires Passes(Build(s, scripts[..k]), scripts[k])
    ensures Contains(Build(s, scripts[..n]), r.marker)
  {
    assert scripts[..n][..n - 1] == scripts[..n - 1];
    if n == k + 1 {
      OutputIsMarked(Build(s, scripts[..k]), scripts[k], r);
    } else {
      MarkerSurvivesBuild(s, scripts, k, r, n - 1);
      ScriptIsProper(scripts[n - 1]);
      ScriptIsProper(scripts[k]);
      MarkerSurvives(Build(s, scripts[..n - 1]), r.marker, scripts[n - 1]);
    }
  }

  /** Any number of scripts in any order: if the guards of each pass on the original text,
      every one of them succeeds in its turn, shared anchors included, and at the end a
      rerun of any of them is refused. */
  lemma WholeBuild<T(!new)>(s: seq<T>, scripts: seq<seq<Rule<T>>>, k: nat, r: Rule<T>)
    requires AllScripts(scripts) && Compatible(scripts) && Lasting(scripts, k, r)
    requires forall i :: 0 <= i < |scripts| ==> Passes(s, scripts[i])
    ensures Passes(Build(s, scripts[..k]), scripts[k])
    ensures !Passes(Build(s, scripts), scripts[k])
  {
    forall b | b in scripts[k] ensures GuardPasses(Build(s, scripts[..k]), b) {
      GuardSurvivesBuild(s, scripts, k, k, b);
    }
    MarkerSurvivesBuild(s, scripts, k, r, |scripts|);
    assert scripts[..|scripts|] == scripts;
    ScriptIsProper(scripts[k]);
    ContainedCounts(Build(s, scripts), r.marker);
    assert !GuardPasses(Build(s, scripts), r);
  }

  lemma ScriptIsProper<T(!new)>(rules: seq<Rule<T>>)
    requires Script(rules)
    ensures AllProper(rules)
  {
    forall r | r in rules ensures Proper(r) {
      assert r in RuleSet(rules);
    }
  }

  /** On the shared anchor the later script's addition lands directly behind the anchor,
      in front of the earlier one's: the block anchor + x put in first is split, and its
      marker, if that is the whole block, need not be found any more. */
  lemma SharedAnchor<T>(s: seq<T>, t: seq<T>, x: seq<T>, y: seq<T>) returns (head: seq<T>, tail: seq<T>)
    requires t != [] && Clash(x, t) && Count(s, t) == 1
    ensures s == head + t + tail && FirstAt(s, t, |head|)
    ensures ReplaceFirst(ReplaceFirst(s, t, t + x), t, t + y) == head + t + y + x + tail
  {
    head, tail := ReplaceParts(s, t, t + x);
    var s' := ReplaceFirst(s, t, t + x);
    AnchorKept(s, t, x);
    var head', tail' := ReplaceParts(s', t, t + y);
    Stacked(head, head', t, x, y, tail, tail');
  }

  lemma Stacked<T>(head: seq<T>, head': seq<T>, t: seq<T>, x: seq<T>, y: seq<T>, tail: seq<T>, tail': seq<T>)
    requires FirstAt(head + t + tail, t, |head|) && FirstAt(head + (t + x) + tail, t, |head'|)
    requires head + (t + x) + tail == head' + t + tail'
    ensures head' + (t + y) + tail' == head + t + y + x + tail
  {
    SameFirst(head, t, x, tail, |head'|);
    assert head + (t + x) + tail == head + t + (x + tail);
    SameCut(head, head', t, x + tail, tail');
    assert head + (t + y) + (x + tail) == head + t + y + x + tail;
  }

  lemma SameCut<T>(head: seq<T>, head': seq<T>, t: seq<T>, tail: seq<T>, tail': seq<T>)
    requires |head| == |head'| && head + t + tail == head' + t + tail'
    ensures head == head' && tail == tail'
  {
    var s := head + t + tail;
    assert head == s[..|head|] == head';
    assert tail == s[|head| + |t|..] == tail';
  }

  lemma SameFirst<T>(head: seq<T>, t: seq<T>, x: seq<T>, tail: seq<T>, k: nat)
    requires FirstAt(head + t + tail, t, |head|) && FirstAt(head + (t + x) + tail, t, k)
    ensures k == |head|
  {
    var s, s' := head + t + tail, head + (t + x) + tail;
    var n := |head| + |t|;
    assert s[..n] == head + t == s'[..n];
    SamePrefix(s, s', n, t, |head|);
    if k < |head| {
      SamePrefix(s, s', n, t, k);
    }
  }

  lemma FirstOfTail<T>(s: seq<T>, b: seq<T>, i: int)
    requires i >= 1 && FirstAt(s, b, i)
    ensures s != [] && FirstAt(s[1..], b, i - 1)
  {
    OccursInTail(s, b, i);
    forall k | 0 <= k < i - 1 ensures !OccursAt(s[1..], b, k) {
      OccursInTail(s, b, k + 1);
    }
  }

  lemma StartOccurs<T>(s: seq<T>, b: seq<T>)
    ensures OccursAt(s, b, 0) <==> b <= s
  {
    if |b| <= |s| {
      assert s[0..0 + |b|] == s[..|b|];
    }
  }

  lemma {:induction false} CountFromFirst<T>(s: seq<T>, b: seq<T>, i: nat)
    requires b != [] && FirstAt(s, b, i)
    ensures Count(s, b) == 1 + Count(s[i + |b|..], b)
    decreases |s|
  {
    StartOccurs(s, b);
    if i > 0 {
      FirstOfTail(s, b, i);
      ShortCount(s, b);
      CountFromFirst(s[1..], b, i - 1);
      assert s[1..][i - 1 + |b|..] == s[i + |b|..];
    }
  }

  /** Where a text has exactly one occurrence of t, a block starting with t cannot occur
      if the one there is starts a block it clashes with. */
  lemma OnlyOneStart<T>(s: seq<T>, t: seq<T>, x: seq<T>, y: seq<T>, i: nat, j: int)
    requires t != [] && Count(s, t) == 1 && Clash(t + x, t + y)
    requires OccursAt(s, t + y, i) && FirstAt(s, t, i)
    ensures !OccursAt(s, t + x, j)
  {
    CountFromFirst(s, t, i);
    var rest := s[i + |t|..];
    UncountedIsAbsent(rest, t);
    if OccursAt(s, t + x, j) {
      StartsWith(s, t, x, j);
      ClashingOccurrences(s, t + x, j, t + y, i);
      assert i <= j;
      OccursInDropped(s, t, i + |t|, j);
    }
  }

  lemma OccursInDropped<T>(s: seq<T>, b: seq<T>, n: nat, j: int)
    requires OccursAt(s, b, j) && n <= j
    ensures OccursAt(s[n..], b, j - n)
  {
    assert s[n..][j - n..j - n + |b|] == s[j..j + |b|];
  }

  lemma StartsWith<T>(s: seq<T>, t: seq<T>, x: seq<T>, i: int)
    requires OccursAt(s, t + x, i)
    ensures OccursAt(s, t, i)
  {
    assert s[i..i + |t|] == s[i..i + |t + x|][..|t|];
  }

  lemma ReplacedHere<T>(s: seq<T>, t: seq<T>, x: seq<T>) returns (i: nat)
    requires t != [] && Count(s, t) > 0
    ensures OccursAt(ReplaceFirst(s, t, t + x), t + x, i) && FirstAt(ReplaceFirst(s, t, t + x), t, i)
  {
    i := ReplaceShape(s, t, t + x);
    var s' := ReplaceFirst(s, t, t + x);
    assert s'[i..i + |t + x|] == t + x;
    StartsWith(s', t, x, i);
    assert s'[..i + |t|] == s[..i + |t|];
    forall k | 0 <= k < i ensures !OccursAt(s', t, k) {
      SamePrefix(s, s', i + |t|, t, k);
    }
  }

  lemma SamePrefix<T>(s: seq<T>, s': seq<T>, n: nat, b: seq<T>, k: int)
    requires n <= |s| && n <= |s'| && s[..n] == s'[..n] && k + |b| <= n
    ensures OccursAt(s, b, k) <==> OccursAt(s', b, k)
  {
    if 0 <= k {
      assert s[k..k + |b|] == s[..n][k..k + |b|];
      assert s'[k..k + |b|] == s'[..n][k..k + |b|];
    }
  }

  /** Why an already-applied check must not be keyed to the whole first block when an
      anchor is shared: once the other script has run, the block is gone. */
  lemma SplitBlockIsGone<T>(s: seq<T>, t: seq<T>, x: seq<T>, y: seq<T>)
    requires t != [] && Count(s, t) == 1
    requires Clash(x, t) && Clash(y, t) && Clash(t + x, t + y)
    ensures Count(ReplaceFirst(s, t, t + x), t + x) > 0
    ensures Count(ReplaceFirst(ReplaceFirst(s, t, t + x), t, t + y), t + x) == 0
  {
    var s' := ReplaceFirst(s, t, t + x);
    var i := ReplacedHere(s, t, x);
    ContainedCounts(s', t + x);
    AnchorKept(s, t, x);
    GoneAfter(s', t, x, y);
  }

  lemma GoneAfter<T>(s: seq<T>, t: seq<T>, x: seq<T>, y: seq<T>)
    requires t != [] && Count(s, t) == 1 && Clash(y, t) && Clash(t + x, t + y)
    ensures Count(ReplaceFirst(s, t, t + y), t + x) == 0
  {
    var out := ReplaceFirst(s, t, t + y);
    var i := ReplacedHere(s, t, y);
    AnchorKept(s, t, y);
    forall j ensures !OccursAt(out, t + x, j) {
      OnlyOneStart(out, t, x, y, i, j);
    }
    AbsentIsUncounted(out, t + x);
  }
}
