/** Guarded source patching.  Every guard counts blocks in the original text; then the
    replacements are applied one after another, each to the first occurrence, with no
    further check.  Text is a sequence of arbitrary elements and the blocks are
    parameters; what is assumed of them is written out in `Apart`. */
module Patching {

  // ---------- occurrences ----------

  ghost predicate OccursAt<T>(s: seq<T>, b: seq<T>, i: int) {
    0 <= i && i + |b| <= |s| && s[i..i + |b|] == b
  }

  ghost predicate Contains<T>(s: seq<T>, b: seq<T>) {
    exists i :: OccursAt(s, b, i)
  }

  /** `s.split(b).length - 1` for a nonempty block: occurrences scanned left to right
      without overlap. */
  function Count<T(==)>(s: seq<T>, b: seq<T>): nat
    decreases |s|
  {
    if b == [] || |s| < |b| then 0
    else if b <= s then 1 + Count(s[|b|..], b)
    else Count(s[1..], b)
  }

  /** `s.replace(old, () => new)` for a nonempty block: the first occurrence, or s unchanged. */
  function ReplaceFirst<T(==)>(s: seq<T>, old': seq<T>, new': seq<T>): seq<T>
    decreases |s|
  {
    if old' == [] || |s| < |old'| then s
    else if old' <= s then new' + s[|old'|..]
    else [s[0]] + ReplaceFirst(s[1..], old', new')
  }

  /** b placed with its start d elements after the start of a agrees with a wherever the
      two lie on top of each other. */
  ghost predicate Agree<T>(a: seq<T>, b: seq<T>, d: int) {
    forall k :: 0 <= k < |b| && 0 <= d + k < |a| ==> a[d + k] == b[k]
  }

  /** No text can hold a and b overlapping: neither contains the other and no end of one
      is a beginning of the other. */
  ghost predicate Clash<T>(a: seq<T>, b: seq<T>) {
    forall d :: -|b| < d < |a| ==> !Agree(a, b, d)
  }

  lemma AgreeFlip<T>(a: seq<T>, b: seq<T>, d: int)
    ensures Agree(a, b, d) ==> Agree(b, a, -d)
  {
    if Agree(a, b, d) {
      forall k | 0 <= k < |a| && 0 <= -d + k < |b| ensures b[-d + k] == a[k] {
        var m := -d + k;
        assert a[d + m] == b[m];
      }
    }
  }

  lemma ClashSymmetric<T>(a: seq<T>, b: seq<T>)
    requires Clash(a, b)
    ensures Clash(b, a)
  {
    forall d | -|a| < d < |b| ensures !Agree(b, a, d) {
      AgreeFlip(b, a, d);
    }
  }

  lemma OccurrencesAgree<T>(s: seq<T>, a: seq<T>, i: int, b: seq<T>, j: int)
    requires OccursAt(s, a, i) && OccursAt(s, b, j)
    ensures Agree(a, b, j - i)
  {
    forall k | 0 <= k < |b| && 0 <= (j - i) + k < |a| ensures a[(j - i) + k] == b[k] {
      assert s[i..i + |a|][(j - i) + k] == s[j + k] == s[j..j + |b|][k];
    }
  }

  /** Occurrences of clashing blocks lie apart. */
  lemma ClashingOccurrences<T>(s: seq<T>, a: seq<T>, i: int, b: seq<T>, j: int)
    requires Clash(a, b) && OccursAt(s, a, i) && OccursAt(s, b, j) && a != [] && b != []
    ensures i + |a| <= j || j + |b| <= i
  {
    OccurrencesAgree(s, a, i, b, j);
  }

  lemma OccursInTail<T>(s: seq<T>, b: seq<T>, i: int)
    requires s != [] && i >= 1
    ensures OccursAt(s, b, i) <==> OccursAt(s[1..], b, i - 1)
  {
    if i + |b| <= |s| {
      assert s[1..][i - 1..i - 1 + |b|] == s[i..i + |b|];
    }
  }

  /** What is counted occurs. */
  lemma {:induction false} CountedOccurs<T>(s: seq<T>, b: seq<T>) returns (i: int)
    requires b != [] && Count(s, b) > 0
    ensures OccursAt(s, b, i)
    decreases |s|
  {
    if b <= s {
      i := 0;
    } else {
      var k := CountedOccurs(s[1..], b);
      i := k + 1;
      OccursInTail(s, b, i);
    }
  }

  /** What occurs is counted. */
  lemma {:induction false} OccurrenceCounts<T>(s: seq<T>, b: seq<T>, i: int)
    requires b != [] && OccursAt(s, b, i)
    ensures Count(s, b) > 0
    decreases |s|
  {
    if i > 0 && !(b <= s) {
      OccursInTail(s, b, i);
      OccurrenceCounts(s[1..], b, i - 1);
    }
  }

  lemma ContainedCounts<T>(s: seq<T>, b: seq<T>)
    requires b != [] && Contains(s, b)
    ensures Count(s, b) > 0
  {
    var i :| OccursAt(s, b, i);
    OccurrenceCounts(s, b, i);
  }

  lemma UncountedIsAbsent<T>(s: seq<T>, b: seq<T>)
    requires b != [] && Count(s, b) == 0
    ensures !Contains(s, b)
  {
    if Contains(s, b) {
      ContainedCounts(s, b);
    }
  }

  lemma AbsentIsUncounted<T>(s: seq<T>, b: seq<T>)
    requires b != [] && !Contains(s, b)
    ensures Count(s, b) == 0
  {
    if Count(s, b) > 0 {
      var i := CountedOccurs(s, b);
    }
  }

  ghost predicate FirstAt<T>(s: seq<T>, b: seq<T>, i: int) {
    OccursAt(s, b, i) && forall k :: 0 <= k < i ==> !OccursAt(s, b, k)
  }

  lemma FirstInTail<T>(s: seq<T>, b: seq<T>, i: int)
    requires s != [] && !(b <= s) && FirstAt(s[1..], b, i)
    ensures FirstAt(s, b, i + 1)
  {
    forall k | 1 <= k <= i + 1 ensures OccursAt(s, b, k) <==> OccursAt(s[1..], b, k - 1) {
      OccursInTail(s, b, k);
    }
  }

  /** The replaced occurrence is the first. */
  lemma {:induction false} ReplaceShape<T>(s: seq<T>, old': seq<T>, new': seq<T>) returns (i: nat)
    requires old' != [] && Count(s, old') > 0
    ensures FirstAt(s, old', i)
    ensures ReplaceFirst(s, old', new') == s[..i] + new' + s[i + |old'|..]
    decreases |s|
  {
    if old' <= s {
      i := 0;
      assert s[..0] + new' == new';
    } else {
      var k := ReplaceShape(s[1..], old', new');
      i := k + 1;
      FirstInTail(s, old', k);
      ReplaceStep(s, old', new');
      ConsAround(s, k, k + |old'|, new');
    }
  }

  lemma ReplaceParts<T>(s: seq<T>, old': seq<T>, new': seq<T>) returns (head: seq<T>, tail: seq<T>)
    requires old' != [] && Count(s, old') > 0
    ensures s == head + old' + tail && FirstAt(s, old', |head|)
    ensures ReplaceFirst(s, old', new') == head + new' + tail
  {
    var i := ReplaceShape(s, old', new');
    head, tail := s[..i], s[i + |old'|..];
    assert s == s[..i] + s[i..i + |old'|] + s[i + |old'|..];
  }

  lemma ReplaceStep<T>(s: seq<T>, old': seq<T>, new': seq<T>)
    requires old' != [] && s != [] && !(old' <= s)
    ensures ReplaceFirst(s, old', new') == [s[0]] + ReplaceFirst(s[1..], old', new')
  {
    if |s| < |old'| {
      assert ReplaceFirst(s[1..], old', new') == s[1..];
    }
  }

  lemma ConsAround<T>(s: seq<T>, k: nat, m: nat, middle: seq<T>)
    requires k <= m < |s|
    ensures [s[0]] + (s[1..][..k] + middle + s[1..][m..]) == s[..k + 1] + middle + s[m + 1..]
  {
  }

  lemma {:induction false} NothingToReplace<T>(s: seq<T>, old': seq<T>, new': seq<T>)
    requires old' != [] && Count(s, old') == 0
    ensures ReplaceFirst(s, old', new') == s
    decreases |s|
  {
    if |s| >= |old'| {
      NothingToReplace(s[1..], old', new');
    }
  }

  // ---------- one replacement and another block ----------

  /** A block that clashes with p is not met while p is passed over. */
  lemma NotAcross<T>(p: seq<T>, rest: seq<T>, b: seq<T>, k: nat)
    requires Clash(p, b) && b != [] && k < |p|
    ensures !(b <= (p + rest)[k..])
  {
    if b <= (p + rest)[k..] {
      var s := p + rest;
      assert OccursAt(s, p, 0);
      assert s[k..k + |b|] == b;
      assert OccursAt(s, b, k);
      ClashingOccurrences(s, p, 0, b, k);
    }
  }

  lemma {:induction false} CountAcross<T>(p: seq<T>, rest: seq<T>, b: seq<T>, k: nat)
    requires Clash(p, b) && b != [] && k <= |p|
    ensures Count((p + rest)[k..], b) == Count(rest, b)
    decreases |p| - k
  {
    var s := p + rest;
    if k == |p| {
      assert s[k..] == rest;
    } else {
      NotAcross(p, rest, b, k);
      assert s[k..][1..] == s[k + 1..];
      CountAcross(p, rest, b, k + 1);
      if |s[k..]| < |b| {
        assert |rest| < |b|;
      }
    }
  }

  lemma CountPast<T>(s: seq<T>, p: seq<T>, b: seq<T>)
    requires p <= s && Clash(p, b) && b != []
    ensures Count(s[|p|..], b) == Count(s, b)
  {
    var rest := s[|p|..];
    assert s == p + rest && (p + rest)[0..] == s;
    CountAcross(p, rest, b, 0);
  }

  lemma {:induction false} ReplaceAcross<T>(p: seq<T>, rest: seq<T>, old': seq<T>, new': seq<T>, k: nat)
    requires Clash(p, old') && old' != [] && k <= |p|
    ensures ReplaceFirst((p + rest)[k..], old', new') == p[k..] + ReplaceFirst(rest, old', new')
    decreases |p| - k
  {
    var s := p + rest;
    if k == |p| {
      assert s[k..] == rest;
      assert p[k..] + ReplaceFirst(rest, old', new') == ReplaceFirst(rest, old', new');
    } else {
      NotAcross(p, rest, old', k);
      TailOf(p, rest, k);
      ReplaceStep(s[k..], old', new');
      ReplaceAcross(p, rest, old', new', k + 1);
      ConsTail(p, k, ReplaceFirst(rest, old', new'));
    }
  }

  lemma TailOf<T>(p: seq<T>, rest: seq<T>, k: nat)
    requires k < |p|
    ensures (p + rest)[k..][0] == p[k] && (p + rest)[k..][1..] == (p + rest)[k + 1..]
  {
  }

  lemma ConsTail<T>(p: seq<T>, k: nat, rest: seq<T>)
    requires k < |p|
    ensures [p[k]] + (p[k + 1..] + rest) == p[k..] + rest
  {
  }

  /** A replacement away from the front does not bring a clashing block to the front. */
  lemma FrontUnchanged<T>(s: seq<T>, old': seq<T>, new': seq<T>, b: seq<T>)
    requires old' != [] && new' != [] && b != [] && Clash(new', b) && !(old' <= s)
    requires b <= ReplaceFirst(s, old', new')
    ensures b <= s
  {
    if Count(s, old') == 0 {
      NothingToReplace(s, old', new');
    } else {
      var i := ReplaceShape(s, old', new');
      var s' := ReplaceFirst(s, old', new');
      assert s'[i..i + |new'|] == new';
      assert OccursAt(s', new', i) && OccursAt(s', b, 0);
      ClashingOccurrences(s', new', i, b, 0);
      assert s'[..|b|] == s[..|b|];
    }
  }

  /** Replacing one block leaves the count of a block that clashes with it and with its
      replacement. */
  lemma {:induction false} CountKept<T>(s: seq<T>, old': seq<T>, new': seq<T>, b: seq<T>)
    requires old' != [] && new' != [] && b != [] && Clash(old', b) && Clash(new', b)
    ensures Count(ReplaceFirst(s, old', new'), b) == Count(s, b)
    decreases |s|
  {
    var s' := ReplaceFirst(s, old', new');
    if |s| < |old'| {
    } else if old' <= s {
      var rest := s[|old'|..];
      assert s == old' + rest;
      assert (old' + rest)[0..] == s && (new' + rest)[0..] == s';
      CountAcross(old', rest, b, 0);
      CountAcross(new', rest, b, 0);
    } else if b <= s {
      var rest := s[|b|..];
      assert s == b + rest && (b + rest)[0..] == s;
      ClashSymmetric(old', b);
      ReplaceAcross(b, rest, old', new', 0);
      assert b[0..] == b;
      CountKept(rest, old', new', b);
      assert s'[|b|..] == ReplaceFirst(rest, old', new');
    } else {
      if b <= s' {
        FrontUnchanged(s, old', new', b);
      }
      assert s'[1..] == ReplaceFirst(s[1..], old', new');
      CountKept(s[1..], old', new', b);
      ShortCount(s, b);
      ShortCount(s', b);
    }
  }

  lemma ShortCount<T>(s: seq<T>, b: seq<T>)
    requires b != [] && s != [] && !(b <= s)
    ensures Count(s, b) == Count(s[1..], b)
  {
  }

  // ---------- replacing everything at once ----------

  datatype Rule<T> = Rule(old': seq<T>, new': seq<T>, marker: seq<T>)

  datatype Piece<T> = Keep(t: T) | Swap(rule: Rule<T>)

  ghost predicate Matches<T>(s: seq<T>, r: Rule<T>) {
    r.old' != [] && r.old' <= s
  }

  /** The text cut, in one pass, into single kept elements and whole old blocks. */
  ghost function Parse<T>(s: seq<T>, rules: set<Rule<T>>): seq<Piece<T>>
    decreases |s|
  {
    if exists r :: r in rules && Matches(s, r) then
      var r :| r in rules && Matches(s, r);
      [Swap(r)] + Parse(s[|r.old'|..], rules)
    else if s == [] then []
    else [Keep(s[0])] + Parse(s[1..], rules)
  }

  function Before<T>(pieces: seq<Piece<T>>): seq<T> {
    if pieces == [] then []
    else (match pieces[0] case Keep(t) => [t] case Swap(r) => r.old') + Before(pieces[1..])
  }

  function After<T>(pieces: seq<Piece<T>>): seq<T> {
    if pieces == [] then []
    else (match pieces[0] case Keep(t) => [t] case Swap(r) => r.new') + After(pieces[1..])
  }

  ghost function Swaps<T>(pieces: seq<Piece<T>>, r: Rule<T>): nat {
    if pieces == [] then 0
    else (if pieces[0] == Swap(r) then 1 else 0) + Swaps(pieces[1..], r)
  }

  /** Nothing is lost or moved by the cut. */
  lemma {:induction false} ParseIsWhole<T>(s: seq<T>, rules: set<Rule<T>>)
    ensures Before(Parse(s, rules)) == s
    decreases |s|
  {
    var pieces := Parse(s, rules);
    if pieces != [] {
      match pieces[0] {
        case Keep(t) => ParseIsWhole(s[1..], rules);
        case Swap(r) => ParseIsWhole(s[|r.old'|..], rules);
      }
    }
  }

  ghost predicate Proper<T>(r: Rule<T>) {
    r.old' != [] && r.new' != [] && r.marker != []
  }

  /** Non-interference: no block of one rule, old or new, can lie across an old block of
      another, inside it or around it, seams included. */
  ghost predicate Apart<T(!new)>(rules: set<Rule<T>>) {
    && (forall r :: r in rules ==> Proper(r))
    && (forall r, q :: r in rules && q in rules && r != q ==> Clash(r.old', q.old') && Clash(r.new', q.old'))
  }

  lemma OneMatch<T(!new)>(s: seq<T>, rules: set<Rule<T>>, r: Rule<T>, q: Rule<T>)
    requires Apart(rules) && r in rules && q in rules && Matches(s, r) && Matches(s, q)
    ensures r == q
  {
    if r != q {
      assert OccursAt(s, r.old', 0) && OccursAt(s, q.old', 0);
      ClashingOccurrences(s, r.old', 0, q.old', 0);
    }
  }

  lemma ParseSwap<T(!new)>(s: seq<T>, rules: set<Rule<T>>, r: Rule<T>)
    requires Apart(rules) && r in rules && Matches(s, r)
    ensures Parse(s, rules) == [Swap(r)] + Parse(s[|r.old'|..], rules)
  {
    forall q | q in rules && Matches(s, q) ensures q == r {
      OneMatch(s, rules, r, q);
    }
  }

  /** A passage no old block can lie across is copied as it is. */
  lemma {:induction false} ParseAcross<T(!new)>(p: seq<T>, rest: seq<T>, rules: set<Rule<T>>, k: nat)
    requires k <= |p| && forall q :: q in rules ==> Clash(p, q.old')
    ensures After(Parse((p + rest)[k..], rules)) == p[k..] + After(Parse(rest, rules))
    decreases |p| - k
  {
    var s := p + rest;
    if k == |p| {
      assert s[k..] == rest;
      assert p[k..] + After(Parse(rest, rules)) == After(Parse(rest, rules));
    } else {
      forall q | q in rules ensures !Matches(s[k..], q) {
        if q.old' != [] {
          NotAcross(p, rest, q.old', k);
        }
      }
      TailOf(p, rest, k);
      ParseKeep(s[k..], rules);
      ParseAcross(p, rest, rules, k + 1);
      ConsTail(p, k, After(Parse(rest, rules)));
    }
  }

  lemma ParseKeep<T>(s: seq<T>, rules: set<Rule<T>>)
    requires s != [] && forall q :: q in rules ==> !Matches(s, q)
    ensures After(Parse(s, rules)) == [s[0]] + After(Parse(s[1..], rules))
  {
  }

  lemma MatchCounts<T>(s: seq<T>, r: Rule<T>)
    ensures Matches(s, r) ==> Count(s, r.old') > 0
  {
  }

  /** A rule whose old block does not occur does not matter. */
  lemma {:induction false} ParseWithout<T(!new)>(s: seq<T>, rules: set<Rule<T>>, r: Rule<T>)
    requires Apart({r} + rules) && r !in rules && Count(s, r.old') == 0
    ensures Parse(s, {r} + rules) == Parse(s, rules)
    decreases |s|
  {
    MatchCounts(s, r);
    if q :| q in rules && Matches(s, q) {
      ParseSwap(s, {r} + rules, q);
      ParseSwap(s, rules, q);
      assert Clash(q.old', r.old');
      CountPast(s, q.old', r.old');
      ParseWithout(s[|q.old'|..], rules, r);
    } else if s != [] {
      ShortCount(s, r.old');
      ParseWithout(s[1..], rules, r);
    }
  }

  /** One unchecked first-occurrence replacement followed by the rest at once is the same
      as all at once. */
  lemma {:induction false} OneThenRest<T(!new)>(s: seq<T>, rules: set<Rule<T>>, r: Rule<T>)
    requires Apart({r} + rules) && r !in rules && Count(s, r.old') <= 1
    ensures After(Parse(ReplaceFirst(s, r.old', r.new'), rules)) == After(Parse(s, {r} + rules))
    decreases |s|
  {
    var s' := ReplaceFirst(s, r.old', r.new');
    if Matches(s, r) {
      var rest := s[|r.old'|..];
      ParseSwap(s, {r} + rules, r);
      ParseWithout(rest, rules, r);
      assert (r.new' + rest)[0..] == s' && r.new'[0..] == r.new';
      ParseAcross(r.new', rest, rules, 0);
    } else if q :| q in rules && Matches(s, q) {
      OtherMatches(s, rules, r, q);
    } else {
      forall q | q in rules ensures !Matches(s', q) {
        if Matches(s', q) {
          FrontUnchanged(s, r.old', r.new', q.old');
        }
      }
      if s == [] {
      } else {
        ShortCount(s, r.old');
        OneThenRest(s[1..], rules, r);
        assert s'[0] == s[0] && s'[1..] == ReplaceFirst(s[1..], r.old', r.new') by {
          if |s| < |r.old'| {
            assert ReplaceFirst(s[1..], r.old', r.new') == s[1..];
          }
        }
      }
    }
  }

  lemma {:induction false} OtherMatches<T(!new)>(s: seq<T>, rules: set<Rule<T>>, r: Rule<T>, q: Rule<T>)
    requires Apart({r} + rules) && r !in rules && Count(s, r.old') <= 1
    requires q in rules && Matches(s, q) && !Matches(s, r)
    ensures After(Parse(ReplaceFirst(s, r.old', r.new'), rules)) == After(Parse(s, {r} + rules))
    decreases |s|, 0
  {
    var rest := s[|q.old'|..];
    var s' := ReplaceFirst(s, r.old', r.new');
    var rest' := ReplaceFirst(rest, r.old', r.new');
    assert s == q.old' + rest && (q.old' + rest)[0..] == s && q.old'[0..] == q.old';
    assert Clash(q.old', r.old');
    CountAcross(q.old', rest, r.old', 0);
    ReplaceAcross(q.old', rest, r.old', r.new', 0);
    assert s' == q.old' + rest' && s'[|q.old'|..] == rest';
    ParseSwap(s, {r} + rules, q);
    ParseSwap(s', rules, q);
    OneThenRest(rest, rules, r);
  }

  /** A rule is used exactly as often as its old block was counted. */
  lemma {:induction false} SwapsAreCounted<T(!new)>(s: seq<T>, rules: set<Rule<T>>, r: Rule<T>)
    requires Apart(rules) && r in rules
    ensures Swaps(Parse(s, rules), r) == Count(s, r.old')
    decreases |s|
  {
    if q :| q in rules && Matches(s, q) {
      ParseSwap(s, rules, q);
      SwapsAreCounted(s[|q.old'|..], rules, r);
      if q != r {
        CountPast(s, q.old', r.old');
      }
    } else if s != [] {
      ShortCount(s, r.old');
      SwapsAreCounted(s[1..], rules, r);
    }
  }

  // ---------- a script ----------

  predicate GuardPasses<T(==)>(s: seq<T>, r: Rule<T>) {
    Count(s, r.marker) == 0 && Count(s, r.old') == 1
  }

  predicate Passes<T(==)>(s: seq<T>, rules: seq<Rule<T>>) {
    forall r :: r in rules ==> GuardPasses(s, r)
  }

  /** The loop of replacements, with no check between them. */
  function Apply<T(==)>(s: seq<T>, rules: seq<Rule<T>>): seq<T> {
    if rules == [] then s
    else ReplaceFirst(Apply(s, rules[..|rules| - 1]), rules[|rules| - 1].old', rules[|rules| - 1].new')
  }

  function RuleSet<T(==)>(rules: seq<Rule<T>>): set<Rule<T>> {
    set r | r in rules
  }

  ghost predicate Script<T(!new)>(rules: seq<Rule<T>>) {
    Apart(RuleSet(rules)) && forall i, j :: 0 <= i < j < |rules| ==> rules[i] != rules[j]
  }

  lemma {:induction false} ApplyCons<T>(s: seq<T>, rules: seq<Rule<T>>)
    requires rules != []
    ensures Apply(s, rules) == Apply(ReplaceFirst(s, rules[0].old', rules[0].new'), rules[1..])
  {
    var init := rules[..|rules| - 1];
    if init == [] {
      assert rules[1..] == [];
    } else {
      ApplyCons(s, init);
      assert init[1..] == rules[1..][..|rules| - 2];
      assert rules[1..][|rules| - 2] == rules[|rules| - 1];
    }
  }

  /** The main result.  When every guard passes on the original text, the unchecked loop
      of first-occurrence replacements equals replacing all old blocks at once. */
  lemma {:induction false} LoopIsSimultaneous<T(!new)>(s: seq<T>, rules: seq<Rule<T>>)
    requires Script(rules) && forall r :: r in rules ==> Count(s, r.old') == 1
    ensures Apply(s, rules) == After(Parse(s, RuleSet(rules)))
    decreases |rules|
  {
    if rules == [] {
      assert RuleSet(rules) == {};
      NoSwaps(s);
    } else {
      var r, rest := rules[0], rules[1..];
      var s' := ReplaceFirst(s, r.old', r.new');
      assert r in RuleSet(rules) && r !in RuleSet(rest) && RuleSet(rules) == {r} + RuleSet(rest);
      forall q | q in rest ensures Count(s', q.old') == 1 {
        assert q in RuleSet(rules) && q != r;
        CountKept(s, r.old', r.new', q.old');
      }
      ApplyCons(s, rules);
      LoopIsSimultaneous(s', rest);
      OneThenRest(s, RuleSet(rest), r);
    }
  }

  lemma {:induction false} NoSwaps<T>(s: seq<T>)
    ensures After(Parse(s, {})) == s
    decreases |s|
  {
    if s != [] {
      NoSwaps(s[1..]);
    }
  }

  /** In any order, and each old block exactly once, with everything outside them kept. */
  lemma AnyOrder<T(!new)>(s: seq<T>, rules: seq<Rule<T>>, others: seq<Rule<T>>)
    requires Script(rules) && Script(others) && RuleSet(rules) == RuleSet(others)
    requires forall r :: r in rules ==> Count(s, r.old') == 1
    ensures Apply(s, rules) == Apply(s, others)
    ensures var pieces := Parse(s, RuleSet(rules));
            && Before(pieces) == s && After(pieces) == Apply(s, rules)
            && forall r :: r in rules ==> Swaps(pieces, r) == 1
  {
    forall r | r in others ensures Count(s, r.old') == 1 {
      assert r in RuleSet(rules);
    }
    LoopIsSimultaneous(s, rules);
    LoopIsSimultaneous(s, others);
    ParseIsWhole(s, RuleSet(rules));
    forall r | r in rules ensures Swaps(Parse(s, RuleSet(rules)), r) == 1 {
      assert r in RuleSet(rules);
      SwapsAreCounted(s, RuleSet(rules), r);
    }
  }

  /** Without non-interference the loop can go wrong although every guard passed: here the
      first replacement brings in an earlier copy of the second old block. */
  lemma InterferenceGoesUnnoticed() returns (s: seq<int>, rules: seq<Rule<int>>)
    ensures (forall r :: r in rules ==> Proper(r)) && Passes(s, rules)
    ensures Apply(s, rules) == [5, 9, 2, 3] && !Apart(RuleSet(rules))
  {
    var first, second := Rule([1], [2, 3, 9], [2, 3, 9]), Rule([2, 3], [5], [5]);
    s, rules := [1, 2, 3], [first, second];
    CountsHere();
    assert ReplaceFirst(s, [1], [2, 3, 9]) == [2, 3, 9, 2, 3] by { assert s[1..] == [2, 3]; }
    assert rules[..1] == [first] && [first][..0] == [];
    assert Apply(s, []) == s && Apply(s, [first]) == [2, 3, 9, 2, 3];
    assert [2, 3, 9, 2, 3][2..] == [9, 2, 3];
    assert Agree(first.new', second.old', 0);
    assert first in RuleSet(rules) && second in RuleSet(rules);
  }

  lemma Skipped(x: int, rest: seq<int>, b: seq<int>)
    requires b != [] && b[0] != x
    ensures Count([x] + rest, b) == Count(rest, b)
  {
    assert !(b <= [x] + rest);
    assert ([x] + rest)[1..] == rest;
  }

  lemma Found(b: seq<int>, rest: seq<int>)
    requires b != []
    ensures Count(b + rest, b) == 1 + Count(rest, b)
  {
    assert b <= b + rest && (b + rest)[|b|..] == rest;
  }

  lemma CountsHere()
    ensures Count([1, 2, 3], [1]) == 1 && Count([1, 2, 3], [2, 3]) == 1
    ensures Count([1, 2, 3], [5]) == 0 && Count([1, 2, 3], [2, 3, 9]) == 0
  {
    assert [1, 2, 3] == [1] + [2, 3] && [2, 3] == [2] + [3] && [3] == [3] + [];
    Found([1], [2, 3]);
    Skipped(2, [3], [1]);
    Skipped(3, [], [1]);
    Skipped(1, [2, 3], [2, 3]);
    assert [2, 3] == [2, 3] + [];
    Found([2, 3], []);
    Skipped(1, [2, 3], [5]);
    Skipped(2, [3], [5]);
    Skipped(3, [], [5]);
    Skipped(1, [2, 3], [2, 3, 9]);
  }

  /** The count goes on behind the first occurrence. */
  lemma {:induction false} CountFromFirst<T>(s: seq<T>, b: seq<T>, i: nat)
    requires b != [] && FirstAt(s, b, i)
    ensures Count(s, b) == 1 + Count(s[i + |b|..], b)
    decreases |s|
  {
    if i == 0 {
      assert s[0..|b|] == b;
    } else {
      assert !OccursAt(s, b, 0);
      assert !(b <= s);
      forall k | 0 <= k < i ensures OccursAt(s[1..], b, k) <==> OccursAt(s, b, k + 1) {
        OccursInTail(s, b, k + 1);
      }
      CountFromFirst(s[1..], b, i - 1);
      assert s[1..][i - 1 + |b|..] == s[i + |b|..];
    }
  }

  /** b occurs, but not again behind its first occurrence. */
  ghost predicate OccursOnce<T>(s: seq<T>, b: seq<T>) {
    exists i: nat :: OnlyFirst(s, b, i)
  }

  ghost predicate OnlyFirst<T>(s: seq<T>, b: seq<T>, i: nat) {
    FirstAt(s, b, i) && !Contains(s[i + |b|..], b)
  }

  lemma CountIsOne<T>(s: seq<T>, b: seq<T>)
    requires b != []
    ensures Count(s, b) == 1 <==> OccursOnce(s, b)
  {
    if OccursOnce(s, b) {
      var i: nat :| OnlyFirst(s, b, i);
      CountFromFirst(s, b, i);
      AbsentIsUncounted(s[i + |b|..], b);
    } else if Count(s, b) > 0 {
      var i := ReplaceShape(s, b, b);
      CountFromFirst(s, b, i);
      assert !OnlyFirst(s, b, i);
      ContainedCounts(s[i + |b|..], b);
    }
  }

  /** A guard passes if and only if the marker is nowhere in the text, and the old block
      occurs but not again behind its first occurrence. */
  lemma GuardExactly<T>(s: seq<T>, r: Rule<T>)
    requires Proper(r)
    ensures GuardPasses(s, r) <==> !Contains(s, r.marker) && OccursOnce(s, r.old')
  {
    CountIsOne(s, r.old');
    if Contains(s, r.marker) {
      ContainedCounts(s, r.marker);
    } else {
      AbsentIsUncounted(s, r.marker);
    }
  }

  // ---------- the program ----------

  /** The file the script was given. */
  class SourceFile<T(==)> {
    var content: seq<T>

    constructor (content: seq<T>)
      ensures this.content == content
    {
      this.content := content;
    }
  }

  /** The guard loop and the replace loop of the patch scripts.  A failed guard exits
      before anything is written. */
  method RunScript<T(==)>(file: SourceFile<T>, rules: seq<Rule<T>>) returns (failed: bool)
    modifies file
    ensures failed <==> !Passes(old(file.content), rules)
    ensures failed ==> file.content == old(file.content)
    ensures !failed ==> file.content == Apply(old(file.content), rules)
  {
    var content := file.content;
    failed := false;
    for i := 0 to |rules|
      invariant failed <==> exists k :: 0 <= k < i && !GuardPasses(content, rules[k])
    {
      var rule := rules[i];
      var alreadyApplied := Count(content, rule.marker);
      if alreadyApplied != 0 {
        failed := true;
        continue;
      }
      var occurrences := Count(content, rule.old');
      if occurrences != 1 {
        failed := true;
      }
    }
    if failed {
      return;
    }
    var patched := content;
    for i := 0 to |rules|
      invariant patched == Apply(content, rules[..i])
    {
      assert rules[..i + 1][..i] == rules[..i];
      patched := ReplaceFirst(patched, rules[i].old', rules[i].new');
    }
    assert rules[..|rules|] == rules;
    file.content := patched;
  }
}
