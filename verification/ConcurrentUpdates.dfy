/** Any number of updates of one variable, interleaved call by call, together with
    changes made by anybody else.  Nothing locks the variable: the check and the write
    are separate calls.  What the read-back does detect is stated here. */
module ConcurrentUpdates {
  import opened Options
  import opened Railway
  import opened Polling
  import opened LiveUpdate
  import opened LiveUpdateRuns

  /** A call of updater `who`, whether or not its write took effect (the call may report
      failure after the value was applied, or success without applying it), or a change
      of the variable by some other party. */
  datatype Move =
    | Act(who: nat, e: Event, landed: bool)
    | Foreign(value: Option<string>)

  /** What updater i saw. */
  function Local(h: seq<Move>, i: nat): seq<Event> {
    if h == [] then []
    else
      var m := h[|h| - 1];
      Local(h[..|h| - 1], i) + if m.Act? && m.who == i then [m.e] else []
  }

  /** The live value of the variable after h. */
  function Value(init: Option<string>, h: seq<Move>): Option<string> {
    if h == [] then init
    else
      match h[|h| - 1]
      case Foreign(v) => v
      case Act(_, Event(SetVariable(_, _, v), _), true) => Some(v)
      case _ => Value(init, h[..|h| - 1])
  }

  /** h is a run of updates of one variable: every updater follows the protocol, every
      successful read shows the live value, and only writes land. */
  ghost predicate IsRun(us: seq<Update>, init: Option<string>, h: seq<Move>) {
    if h == [] then SameVariable(us)
    else
    var before, m := h[..|h| - 1], h[|h| - 1];
    && IsRun(us, init, before)
    && (m.Act? ==>
          && m.who < |us|
          && !Run(us[m.who], Local(h, m.who)).Stuck?
          && (m.landed ==> m.e.call.SetVariable?)
          && (m.e.call.ListVariables? && m.e.reply.Variables? ==>
                Lookup(m.e.reply.vars, us[m.who].variable) == Value(init, before)))
  }

  ghost predicate SameVariable(us: seq<Update>) {
    forall i, j :: 0 <= i < |us| && 0 <= j < |us| ==>
      us[i].variable == us[j].variable && us[i].wait.service == us[j].wait.service
  }

  ghost predicate DistinctTargets(us: seq<Update>) {
    forall i, j :: 0 <= i < j < |us| ==> us[i].next != us[j].next
  }

  predicate WriteBy(h: seq<Move>, k: int, i: nat) {
    0 <= k < |h| && h[k].Act? && h[k].who == i && h[k].e.call.SetVariable?
  }

  /** The move sets the variable, whoever makes it. */
  predicate Lands(m: Move) {
    m.Foreign? || (m.landed && m.e.call.SetVariable?)
  }

  function Landed(m: Move): Option<string>
    requires Lands(m)
  {
    if m.Foreign? then m.value else Some(m.e.call.value)
  }

  ghost predicate Succeeded(us: seq<Update>, h: seq<Move>, i: nat) {
    i < |us| && Run(us[i], Local(h, i)) == Halted(Changed)
  }

  /** w is updater i's only write and r its read-back, which showed i's own target. */
  ghost predicate Window(us: seq<Update>, init: Option<string>, h: seq<Move>, i: nat, w: int, r: int) {
    && i < |us| && w < r < |h|
    && WriteBy(h, w, i) && h[w].e.call.value == us[i].next
    && (forall k :: WriteBy(h, k, i) ==> k == w)
    && h[r].Act? && h[r].who == i && ReadsBack(us[i], h[r].e)
    && Value(init, h[..r]) == Some(us[i].next)
  }

  /** The state an updater is in once its write has returned. */
  predicate PastWrite(pc: Pc) {
    pc.Redeploying? || pc.Awaiting? || (pc.Readying? && pc.deployed.Some?) || pc.ReadBack?
  }

  /** A move takes its own updater one step and leaves the others where they were. */
  lemma LocalStep(us: seq<Update>, h: seq<Move>, i: nat)
    requires i < |us| && h != []
    ensures var before, m := h[..|h| - 1], h[|h| - 1];
            Run(us[i], Local(h, i)) ==
            if m.Act? && m.who == i then Step(us[i], Run(us[i], Local(before, i)), m.e)
            else Run(us[i], Local(before, i))
  {
    var before, m := h[..|h| - 1], h[|h| - 1];
    if m.Act? && m.who == i {
      RunSnoc(us[i], Local(before, i), m.e);
    } else {
      assert Local(h, i) == Local(before, i);
    }
  }

  lemma StepShape(u: Update, pc: Pc, e: Event)
    requires PastWrite(Step(u, pc, e))
    ensures if e.call.SetVariable? then pc.Writing? && e.call.value == u.next else PastWrite(pc)
  {
  }

  lemma EarlyShape(u: Update, pc: Pc, e: Event)
    requires var next := Step(u, pc, e); next.ReadCurrent? || next.CaptureId? || next.Writing?
    ensures !e.call.SetVariable? && (pc.ReadCurrent? || pc.CaptureId? || pc.Writing?)
  {
  }

  lemma WritesSplit(h: seq<Move>, i: nat)
    requires h != []
    ensures forall k :: WriteBy(h, k, i) <==> WriteBy(h[..|h| - 1], k, i) || (k == |h| - 1 && WriteBy(h, |h| - 1, i))
  {
  }

  /** Until its write call, an updater has written nothing. */
  lemma {:induction false} NoWriteYet(us: seq<Update>, init: Option<string>, h: seq<Move>, i: nat)
    requires IsRun(us, init, h) && i < |us|
    requires var pc := Run(us[i], Local(h, i)); pc.ReadCurrent? || pc.CaptureId? || pc.Writing?
    ensures forall k :: !WriteBy(h, k, i)
  {
    if h != [] {
      var before, m := h[..|h| - 1], h[|h| - 1];
      LocalStep(us, h, i);
      WritesSplit(h, i);
      if m.Act? && m.who == i {
        EarlyShape(us[i], Run(us[i], Local(before, i)), m.e);
      }
      NoWriteYet(us, init, before, i);
    }
  }

  /** Once past its write, an updater has written exactly once, and its own target. */
  lemma {:induction false} OneWrite(us: seq<Update>, init: Option<string>, h: seq<Move>, i: nat) returns (w: int)
    requires IsRun(us, init, h) && i < |us| && PastWrite(Run(us[i], Local(h, i)))
    ensures WriteBy(h, w, i) && h[w].e.call.value == us[i].next
    ensures forall k :: WriteBy(h, k, i) ==> k == w
  {
    var before, m := h[..|h| - 1], h[|h| - 1];
    LocalStep(us, h, i);
    WritesSplit(h, i);
    if m.Act? && m.who == i {
      StepShape(us[i], Run(us[i], Local(before, i)), m.e);
    }
    if WriteBy(h, |h| - 1, i) {
      NoWriteYet(us, init, before, i);
      w := |h| - 1;
    } else {
      w := OneWrite(us, init, before, i);
    }
  }

  /** A successful update has a window from its write to its read-back. */
  lemma {:induction false} SuccessHasWindow(us: seq<Update>, init: Option<string>, h: seq<Move>, i: nat)
    returns (w: int, r: int)
    requires IsRun(us, init, h) && Succeeded(us, h, i)
    ensures Window(us, init, h, i, w, r)
  {
    var before, m := h[..|h| - 1], h[|h| - 1];
    LocalStep(us, h, i);
    if m.Act? && m.who == i {
      ReadBackShape(us[i], Run(us[i], Local(before, i)), m.e);
      w := OneWrite(us, init, before, i);
      r := |h| - 1;
      WritesSplit(h, i);
    } else {
      w, r := SuccessHasWindow(us, init, before, i);
      WindowKept(us, init, h, i, w, r);
    }
  }

  lemma ReadBackShape(u: Update, pc: Pc, e: Event)
    requires Step(u, pc, e) == Halted(Changed)
    ensures PastWrite(pc) && ReadsBack(u, e)
  {
  }

  lemma WindowKept(us: seq<Update>, init: Option<string>, h: seq<Move>, i: nat, w: int, r: int)
    requires h != [] && Window(us, init, h[..|h| - 1], i, w, r) && !WriteBy(h, |h| - 1, i)
    ensures Window(us, init, h, i, w, r)
  {
    WritesSplit(h, i);
    assert h[..|h| - 1][..r] == h[..r];
  }

  /** If the value is v at some moment and nothing that landed since an earlier one put v
      there, then nothing landed in between at all and the value was v throughout. */
  lemma {:induction false} Undisturbed(init: Option<string>, h: seq<Move>, a: nat, b: nat, v: Option<string>)
    requires a <= b <= |h| && Value(init, h[..b]) == v
    requires forall k :: a <= k < b && Lands(h[k]) ==> Landed(h[k]) != v
    ensures forall k :: a <= k < b ==> !Lands(h[k])
    ensures forall k :: a <= k <= b ==> Value(init, h[..k]) == v
    decreases b - a
  {
    if a < b {
      assert h[..b][..b - 1] == h[..b - 1];
      assert !Lands(h[b - 1]);
      Undisturbed(init, h, a, b - 1, v);
    }
  }

  /** Only this updater puts this updater's target into the variable. */
  ghost predicate OnlyOwnWriter(us: seq<Update>, h: seq<Move>, i: nat)
    requires i < |us|
  {
    forall k :: 0 <= k < |h| && Lands(h[k]) && Landed(h[k]) == Some(us[i].next) ==> WriteBy(h, k, i)
  }

  /** v is the live value after the first k moves. */
  ghost predicate Live(init: Option<string>, h: seq<Move>, k: int, v: string) {
    0 <= k <= |h| && Value(init, h[..k]) == Some(v)
  }

  // ---------- the main results ----------

  /** What the read-back detects.  When nobody else writes the same value, success means
      that no write by any party landed between the update's own write and its read-back,
      and the requested value was live throughout. */
  lemma SuccessIsUndisturbed(us: seq<Update>, init: Option<string>, h: seq<Move>, i: nat) returns (w: int, r: int)
    requires IsRun(us, init, h) && Succeeded(us, h, i) && OnlyOwnWriter(us, h, i)
    ensures Window(us, init, h, i, w, r)
    ensures forall k :: w < k < r ==> !Lands(h[k])
    ensures forall k :: w < k <= r ==> Live(init, h, k, us[i].next)
  {
    w, r := SuccessHasWindow(us, init, h, i);
    Undisturbed(init, h, w + 1, r, Some(us[i].next));
  }

  /** The values a run writes are the updaters' own targets. */
  lemma {:induction false} WritesOwnTarget(us: seq<Update>, init: Option<string>, h: seq<Move>, k: nat)
    requires IsRun(us, init, h) && k < |h| && h[k].Act? && h[k].e.call.SetVariable?
    ensures h[k].who < |us| && h[k].e.call.value == us[h[k].who].next
  {
    var before, m := h[..|h| - 1], h[|h| - 1];
    if k < |h| - 1 {
      WritesOwnTarget(us, init, before, k);
    } else {
      LocalStep(us, h, m.who);
      WriteShape(us[m.who], Run(us[m.who], Local(before, m.who)), m.e);
    }
  }

  lemma WriteShape(u: Update, pc: Pc, e: Event)
    requires !Step(u, pc, e).Stuck? && e.call.SetVariable?
    ensures e.call.value == u.next
  {
  }

  lemma DistinctMeansOwn(us: seq<Update>, init: Option<string>, h: seq<Move>, i: nat)
    requires IsRun(us, init, h) && DistinctTargets(us) && i < |us|
    requires forall k :: 0 <= k < |h| && h[k].Foreign? ==> h[k].value != Some(us[i].next)
    ensures OnlyOwnWriter(us, h, i)
  {
    forall k | 0 <= k < |h| && Lands(h[k]) && Landed(h[k]) == Some(us[i].next) ensures WriteBy(h, k, i) {
      WritesOwnTarget(us, init, h, k);
    }
  }

  /** Nobody but the updaters moves. */
  predicate NoOutsider(h: seq<Move>) {
    h == [] || (h[|h| - 1].Act? && NoOutsider(h[..|h| - 1]))
  }

  ghost predicate NoForeignTarget(us: seq<Update>, h: seq<Move>) {
    forall k, i :: 0 <= k < |h| && 0 <= i < |us| && h[k].Foreign? ==> h[k].value != Some(us[i].next)
  }

  /** Two updates with different targets that both report success did not overlap: one
      had read its value back before the other wrote. */
  lemma SuccessesDoNotOverlap(us: seq<Update>, init: Option<string>, h: seq<Move>, i: nat, j: nat)
    returns (wi: int, ri: int, wj: int, rj: int)
    requires IsRun(us, init, h) && DistinctTargets(us) && NoForeignTarget(us, h)
    requires i != j && Succeeded(us, h, i) && Succeeded(us, h, j)
    ensures Window(us, init, h, i, wi, ri) && Window(us, init, h, j, wj, rj)
    ensures ri < wj || rj < wi
  {
    DistinctMeansOwn(us, init, h, i);
    DistinctMeansOwn(us, init, h, j);
    wi, ri := SuccessIsUndisturbed(us, init, h, i);
    wj, rj := SuccessIsUndisturbed(us, init, h, j);
    // At the earlier of two overlapping read-backs both targets would be live.
    assert wj < ri <= rj ==> Live(init, h, ri, us[j].next);
    assert wi < rj <= ri ==> Live(init, h, rj, us[i].next);
  }

  /** A successful update's value stays unless something lands after its write. */
  lemma SuccessStays(us: seq<Update>, init: Option<string>, h: seq<Move>, i: nat)
    returns (w: int, r: int)
    requires IsRun(us, init, h) && DistinctTargets(us) && NoForeignTarget(us, h)
    requires Succeeded(us, h, i)
    ensures Window(us, init, h, i, w, r)
    ensures (forall k :: w < k < |h| ==> !Lands(h[k])) ==> Value(init, h) == Some(us[i].next)
  {
    DistinctMeansOwn(us, init, h, i);
    w, r := SuccessIsUndisturbed(us, init, h, i);
    if forall k :: w < k < |h| ==> !Lands(h[k]) {
      ValueKept(init, h, r);
    }
  }

  lemma {:induction false} ValueKept(init: Option<string>, h: seq<Move>, a: nat)
    requires a <= |h| && forall k :: a <= k < |h| ==> !Lands(h[k])
    ensures Value(init, h) == Value(init, h[..a])
  {
    if a == |h| {
      assert h[..a] == h;
    } else {
      ValueKept(init, h[..|h| - 1], a);
      assert h[..|h| - 1][..a] == h[..a];
    }
  }

  lemma {:induction false} NobodyElse(h: seq<Move>)
    requires NoOutsider(h)
    ensures forall k :: 0 <= k < |h| ==> h[k].Act?
  {
    if h != [] {
      NobodyElse(h[..|h| - 1]);
    }
  }

  lemma {:induction false} LatestWrite(h: seq<Move>, some: nat, i: nat) returns (w: nat, last: nat)
    requires WriteBy(h, some, i)
    ensures WriteBy(h, w, last) && forall k, j :: WriteBy(h, k, j) ==> k <= w
    decreases |h| - some
  {
    if k, j :| some < k && WriteBy(h, k, j) {
      w, last := LatestWrite(h, k, j);
    } else {
      w, last := some, i;
    }
  }

  /** When all updaters report success, the final value is the target of the one that
      wrote last, whatever the interleaving of their calls. */
  lemma LastWriterWins(us: seq<Update>, init: Option<string>, h: seq<Move>) returns (w: int, last: nat)
    requires IsRun(us, init, h) && DistinctTargets(us) && NoOutsider(h) && us != []
    requires forall i :: 0 <= i < |us| ==> Succeeded(us, h, i)
    ensures last < |us| && WriteBy(h, w, last) && forall k, j :: WriteBy(h, k, j) ==> k <= w
    ensures Value(init, h) == Some(us[last].next)
  {
    NobodyElse(h);
    assert Succeeded(us, h, 0);
    var w0, r0 := SuccessHasWindow(us, init, h, 0);
    w, last := LatestWrite(h, w0, 0);
    WritesOwnTarget(us, init, h, w);
    assert Succeeded(us, h, last);
    var w', r := SuccessStays(us, init, h, last);
    forall k | w < k < |h| ensures !Lands(h[k]) {
      assert !WriteBy(h, k, h[k].who);
    }
  }

  // ---------- what is not guaranteed ----------

  /** h is where updater i's first read showed the value it declared. */
  ghost predicate FirstRead(us: seq<Update>, init: Option<string>, h: seq<Move>, i: nat, c: int) {
    && i < |us| && 0 <= c < |h| && h[c].Act? && h[c].who == i && !Lands(h[c])
    && Local(h[..c], i) == [] && Decide(us[i], Value(init, h[..c])) == Proceed
  }

  predicate PastRead(pc: Pc) {
    pc.CaptureId? || pc.Writing? || PastWrite(pc) || pc == Halted(Changed)
  }

  lemma ReadShape(u: Update, pc: Pc, e: Event)
    requires PastRead(Step(u, pc, e))
    ensures if pc.ReadCurrent?
            then e.call.ListVariables? && e.reply.Variables? && Decide(u, Lookup(e.reply.vars, u.variable)) == Proceed
            else PastRead(pc)
  {
  }

  lemma {:induction false} ReadFirst(us: seq<Update>, init: Option<string>, h: seq<Move>, i: nat) returns (c: int)
    requires IsRun(us, init, h) && i < |us| && PastRead(Run(us[i], Local(h, i)))
    ensures FirstRead(us, init, h, i, c)
    ensures forall k :: WriteBy(h, k, i) ==> c < k
  {
    var before, m := h[..|h| - 1], h[|h| - 1];
    LocalStep(us, h, i);
    if m.Act? && m.who == i && Run(us[i], Local(before, i)).ReadCurrent? {
      ReadShape(us[i], ReadCurrent, m.e);
      ReadJustNow(us, init, h, i);
      c := |h| - 1;
    } else {
      if m.Act? && m.who == i {
        ReadShape(us[i], Run(us[i], Local(before, i)), m.e);
      }
      c := ReadFirst(us, init, before, i);
      WritesSplit(h, i);
      ReadEarlier(us, init, h, i, c);
    }
  }

  lemma ReadJustNow(us: seq<Update>, init: Option<string>, h: seq<Move>, i: nat)
    requires IsRun(us, init, h) && i < |us| && h != [] && h[|h| - 1].Act? && h[|h| - 1].who == i
    requires Run(us[i], Local(h[..|h| - 1], i)).ReadCurrent?
    requires var e := h[|h| - 1].e;
             e.call.ListVariables? && e.reply.Variables? && Decide(us[i], Lookup(e.reply.vars, us[i].variable)) == Proceed
    ensures FirstRead(us, init, h, i, |h| - 1)
    ensures forall k :: WriteBy(h, k, i) ==> |h| - 1 < k
  {
    NoWriteYet(us, init, h[..|h| - 1], i);
    WritesSplit(h, i);
    OnlyEmptyIsUnread(us[i], Local(h[..|h| - 1], i));
  }

  lemma ReadEarlier(us: seq<Update>, init: Option<string>, h: seq<Move>, i: nat, c: int)
    requires h != [] && FirstRead(us, init, h[..|h| - 1], i, c)
    requires forall k :: 0 <= k < |h| - 1 && WriteBy(h, k, i) ==> c < k
    ensures FirstRead(us, init, h, i, c)
    ensures forall k :: WriteBy(h, k, i) ==> c < k
  {
    WritesSplit(h, i);
    assert h[..|h| - 1][..c] == h[..c];
  }

  lemma OnlyEmptyIsUnread(u: Update, t: seq<Event>)
    requires Run(u, t).ReadCurrent?
    ensures t == []
  {
    HistoryHolds(u, t);
  }

  /** k is the last landing strictly between c and w. */
  ghost predicate LastLands(h: seq<Move>, c: int, w: int, k: int) {
    0 <= c < k < w <= |h| && Lands(h[k]) && forall j :: k < j < w ==> !Lands(h[j])
  }

  /** The live value at w is the one at c, unless something landed in between: then it is
      what landed last. */
  lemma {:induction false} LastLandingDecides(init: Option<string>, h: seq<Move>, c: nat, w: nat) returns (last: int)
    requires c < w <= |h| && !Lands(h[c])
    ensures if last < 0 then (forall k :: c < k < w ==> !Lands(h[k])) && Value(init, h[..w]) == Value(init, h[..c])
            else LastLands(h, c, w, last) && Value(init, h[..w]) == Landed(h[last])
    decreases w
  {
    assert h[..w][..w - 1] == h[..w - 1];
    if Lands(h[w - 1]) {
      last := w - 1;
    } else if w - 1 == c {
      last := -1;
    } else {
      last := LastLandingDecides(init, h, c, w - 1);
    }
  }

  /** The value a successful update replaced is the declared one if and only if what landed
      last between its first read and its write, if anything did, put the declared value
      there. */
  lemma ReplacedValue(us: seq<Update>, init: Option<string>, h: seq<Move>, i: nat) returns (c: int, w: int, r: int)
    requires IsRun(us, init, h) && Succeeded(us, h, i) && us[i].mode.CompareFirst?
    ensures Window(us, init, h, i, w, r) && FirstRead(us, init, h, i, c) && c < w
    ensures Value(init, h[..w]) == Belief(us[i].mode.expected) <==>
            forall k :: LastLands(h, c, w, k) ==> Landed(h[k]) == Belief(us[i].mode.expected)
  {
    w, r := SuccessHasWindow(us, init, h, i);
    c := ReadFirst(us, init, h, i);
    var last := LastLandingDecides(init, h, c, w);
    OneLastLanding(h, c, w, last);
  }

  lemma OneLastLanding(h: seq<Move>, c: int, w: int, last: int)
    ensures forall k :: LastLands(h, c, w, last) && LastLands(h, c, w, k) ==> k == last
  {
  }

  /** One more move of a run under construction, and where it leaves its updater. */
  lemma Extend(us: seq<Update>, init: Option<string>, h: seq<Move>, m: Move, pc: Pc) returns (h': seq<Move>)
    requires IsRun(us, init, h) && m.Act? && m.who < |us| && pc != Stuck
    requires Step(us[m.who], Run(us[m.who], Local(h, m.who)), m.e) == pc
    requires m.landed ==> m.e.call.SetVariable?
    requires m.e.call.ListVariables? && m.e.reply.Variables? ==>
               Lookup(m.e.reply.vars, us[m.who].variable) == Value(init, h)
    ensures h' == h + [m] && IsRun(us, init, h')
    ensures Run(us[m.who], Local(h', m.who)) == pc
    ensures forall j :: 0 <= j < |us| && j != m.who ==> Run(us[j], Local(h', j)) == Run(us[j], Local(h, j))
    ensures NoOutsider(h) ==> NoOutsider(h')
    ensures Value(init, h') == if m.landed then Some(m.e.call.value) else Value(init, h)
  {
    h' := h + [m];
    assert h'[..|h|] == h;
    forall j | 0 <= j < |us| ensures j != m.who ==> Run(us[j], Local(h', j)) == Run(us[j], Local(h, j)) {
      LocalStep(us, h', j);
    }
    LocalStep(us, h', m.who);
  }

  const WAIT := Wait("s", 15, 25)
  const FIRST := Update(WAIT, "V", "b", CompareFirst("a", false), "u")
  const SECOND := Update(WAIT, "V", "c", CompareFirst("a", false), "u")
  const RUNNING := Service("x", "s", Some(Deployment(Some("1"), Some(SUCCESS))))
  const DEPLOYED := Service("x", "s", Some(Deployment(Some("2"), Some(SUCCESS))))

  /** The state after a list of steps from pc. */
  function Drive(u: Update, pc: Pc, es: seq<Event>): Pc
    decreases |es|
  {
    if es == [] then pc else Drive(u, Step(u, pc, es[0]), es[1..])
  }

  lemma {:induction false} DriveStuck(u: Update, es: seq<Event>)
    ensures Drive(u, Stuck, es) == Stuck
    decreases |es|
  {
    if es != [] {
      DriveStuck(u, es[1..]);
    }
  }

  /** Steps of the first updater that write nothing. */
  function Acts(es: seq<Event>): (h: seq<Move>)
    ensures |h| == |es| && forall k :: 0 <= k < |es| ==> h[k] == Act(0, es[k], false)
  {
    seq(|es|, k requires 0 <= k < |es| => Act(0, es[k], false))
  }

  lemma ActsCons(start: seq<Move>, es: seq<Event>)
    requires es != []
    ensures start + [Act(0, es[0], false)] + Acts(es[1..]) == start + Acts(es)
  {
  }

  /** While the others are idle, an updater can take any steps of its protocol that
      write nothing and whose reads show the live value. */
  lemma {:induction false} Alone(us: seq<Update>, init: Option<string>, start: seq<Move>, es: seq<Event>)
    returns (h: seq<Move>)
    requires |us| > 0 && IsRun(us, init, start) && NoOutsider(start)
    requires Drive(us[0], Run(us[0], Local(start, 0)), es) != Stuck
    requires forall e :: e in es ==> !e.call.SetVariable?
    requires forall e :: e in es && e.call.ListVariables? && e.reply.Variables? ==>
               Lookup(e.reply.vars, us[0].variable) == Value(init, start)
    ensures h == start + Acts(es) && IsRun(us, init, h) && NoOutsider(h)
    ensures Run(us[0], Local(h, 0)) == Drive(us[0], Run(us[0], Local(start, 0)), es)
    decreases |es|
  {
    if es == [] {
      h := start;
      assert start + Acts(es) == start;
    } else {
      DriveStuck(us[0], es[1..]);
      var next := Extend(us, init, start, Act(0, es[0], false), Step(us[0], Run(us[0], Local(start, 0)), es[0]));
      h := Alone(us, init, next, es[1..]);
      ActsCons(start, es);
    }
  }

  /** A read of the variable by updater i at k showed v. */
  predicate Saw(us: seq<Update>, h: seq<Move>, i: nat, k: int, v: string) {
    && i < |us| && 0 <= k < |h| && h[k].Act? && h[k].who == i && h[k].e.call.ListVariables? && h[k].e.reply.Variables?
    && Lookup(h[k].e.reply.vars, us[i].variable) == Some(v)
  }

  /** The check and the write are not one atomic step: a run in which both updaters read the
      value they declared (at c0 and c1) before either wrote, then the second wrote (w1) and
      the first (w0), which reports success having overwritten the second's value although
      it had not declared it and none of its reads ever showed it. */
  lemma NotAnAtomicCompareAndSwap()
    returns (us: seq<Update>, init: Option<string>, h: seq<Move>, c0: nat, c1: nat, w1: nat, w0: nat)
    ensures IsRun(us, init, h) && |us| == 2 && DistinctTargets(us) && NoOutsider(h)
    ensures us[0].mode.CompareFirst? && us[1].mode.CompareFirst? && Succeeded(us, h, 0)
    ensures FirstRead(us, init, h, 0, c0) && FirstRead(us, init, h, 1, c1) && c0 < w1 && c1 < w1 < w0
    ensures WriteBy(h, w1, 1) && Lands(h[w1]) && WriteBy(h, w0, 0) && Lands(h[w0])
    ensures Value(init, h[..w0]) == Some(us[1].next) && Some(us[1].next) != Belief(us[0].mode.expected)
    ensures forall k :: !Saw(us, h, 0, k, us[1].next)
  {
    us, init := [FIRST, SECOND], Some("a");
    var head, both := BothWrite(us);
    var tail := TailFromSettled();
    tail := TailToSettled(tail);
    h := Alone(us, init, both, tail);
    c0, c1, w1, w0 := 0, 1, 4, 5;
    WritesAndReads(us, head, both, tail, h);
  }

  lemma WritesAndReads(us: seq<Update>, head: seq<Move>, both: seq<Move>, tail: seq<Event>, h: seq<Move>)
    requires us == [FIRST, SECOND] && h == both + Acts(tail) && forall e :: e in tail ==> Quiet(e)
    requires Checked(head) && |head| == 5 && head[4] == Act(1, SECOND_WRITE, true)
    requires both == head + [Act(0, FIRST_WRITE, true)]
    ensures |h| >= 6 && h[..5] == head && FirstRead(us, Some("a"), h, 0, 0) && FirstRead(us, Some("a"), h, 1, 1)
    ensures WriteBy(h, 4, 1) && Lands(h[4]) && WriteBy(h, 5, 0) && Lands(h[5])
    ensures forall k :: !Saw(us, h, 0, k, "c")
  {
    assert h[..5] == head;
    FirstReads(us, h);
    forall k ensures !Saw(us, h, 0, k, "c") {
      if 6 <= k < |h| {
        assert h[k] == Act(0, tail[k - 6], false) && Quiet(tail[k - 6]);
      } else if 0 <= k < 6 {
        assert h[k] == both[k];
      }
    }
  }

  const READ := Event(ListVariables("s"), Variables(map["V" := "a"]))
  const LIST := Event(ListServices, Services([RUNNING]))
  const SECOND_WRITE := Event(SetVariable("s", "V", "c"), Done)
  const FIRST_WRITE := Event(SetVariable("s", "V", "b"), Done)

  /** Both updaters read, then both list. */
  predicate Checked(h: seq<Move>) {
    && |h| >= 4 && h[0] == Act(0, READ, false) && h[1] == Act(1, READ, false)
    && h[2] == Act(0, LIST, false) && h[3] == Act(1, LIST, false)
  }

  lemma FirstReads(us: seq<Update>, h: seq<Move>)
    requires us == [FIRST, SECOND] && |h| >= 2 && h[0] == Act(0, READ, false) && h[1] == Act(1, READ, false)
    ensures FirstRead(us, Some("a"), h, 0, 0) && FirstRead(us, Some("a"), h, 1, 1)
  {
    assert h[..0] == [] && h[..1] == [h[0]] && h[..1][..0] == [];
    assert Local([], 1) == [];
  }

  /** Both checked, then the second wrote (head), then the first. */
  lemma BothWrite(us: seq<Update>) returns (head: seq<Move>, h: seq<Move>)
    requires us == [FIRST, SECOND]
    ensures Checked(head) && |head| == 5 && head[4] == Act(1, SECOND_WRITE, true)
    ensures h == head + [Act(0, FIRST_WRITE, true)]
    ensures Value(Some("a"), head) == Some("c") && Value(Some("a"), h) == Some("b")
    ensures IsRun(us, Some("a"), h) && NoOutsider(h) && Run(us[0], Local(h, 0)) == Redeploying("1")
  {
    var checked := BothCheck(us);
    head := Extend(us, Some("a"), checked, Act(1, SECOND_WRITE, true), Redeploying("1"));
    h := Extend(us, Some("a"), head, Act(0, FIRST_WRITE, true), Redeploying("1"));
  }

  const READ_BACK := Event(ListVariables("s"), Variables(map["V" := "b", "SETUP_PASSWORD" := "p"]))

  predicate Quiet(e: Event) {
    !e.call.SetVariable? &&
    (e.call.ListVariables? && e.reply.Variables? ==> Lookup(e.reply.vars, "V") == Some("b"))
  }

  /** es takes the first updater from pc to success without writing. */
  ghost predicate Finishes(pc: Pc, es: seq<Event>) {
    Drive(FIRST, pc, es) == Halted(Changed) && forall e :: e in es ==> Quiet(e)
  }

  lemma Prepend(pc: Pc, e: Event, next: Pc, es: seq<Event>) returns (es': seq<Event>)
    requires Step(FIRST, pc, e) == next && Quiet(e) && Finishes(next, es)
    ensures Finishes(pc, es')
  {
    es' := [e] + es;
    assert es'[1..] == es;
  }

  /** What the first updater sees once its write has returned: a redeploy and the wait. */
  lemma TailToSettled(rest: seq<Event>) returns (es: seq<Event>)
    requires Finishes(Readying(Some("1"), ReadPassword), rest)
    ensures Finishes(Redeploying("1"), es)
  {
    assert FindService([DEPLOYED], "s") == Some(DEPLOYED);
    es := Prepend(Awaiting("1", PollList(1500000)), Event(ListServices, Services([DEPLOYED])),
                  Readying(Some("1"), ReadPassword), rest);
    es := TailToListing(es);
  }

  lemma TailToListing(rest: seq<Event>) returns (es: seq<Event>)
    requires Finishes(Awaiting("1", PollList(1500000)), rest)
    ensures Finishes(Redeploying("1"), es)
  {
    es := Prepend(Awaiting("1", PollSleep(1500000)), Event(Sleep(15000), Done), Awaiting("1", PollList(1500000)), rest);
    es := Prepend(Awaiting("1", PollStart), Event(ReadClock, Time(0)), Awaiting("1", PollSleep(1500000)), es);
    es := Prepend(Redeploying("1"), Event(Redeploy("s"), Done), Awaiting("1", PollStart), es);
  }

  /** Then the authenticated answer and the read-back. */
  lemma TailFromSettled() returns (es: seq<Event>)
    ensures Finishes(Readying(Some("1"), ReadPassword), es)
  {
    var at := Some("1");
    assert PickDomain([Domain("d", "service", None)]) == Some(Domain("d", "service", None));
    es := TailFromDomain();
    es := Prepend(Readying(at, ReadDomains("p")), Event(ListDomains("s"), Domains([Domain("d", "service", None)])),
                  Readying(at, ReadyStart("p", "d")), es);
    es := Prepend(Readying(at, ReadPassword), READ_BACK, Readying(at, ReadDomains("p")), es);
  }

  lemma TailFromDomain() returns (es: seq<Event>)
    ensures Finishes(Readying(Some("1"), ReadyStart("p", "d")), es)
  {
    var checking := Readying(Some("1"), ReadyCheck("p", "d", 1500000));
    es := Prepend(ReadBack("1"), READ_BACK, Halted(Changed), []);
    es := Prepend(checking, Event(CheckSetup("d", "u", "p"), HttpStatus(200)), ReadBack("1"), es);
    es := Prepend(Readying(Some("1"), ReadyStart("p", "d")), Event(ReadClock, Time(0)), checking, es);
  }

  lemma BothCheck(us: seq<Update>) returns (h: seq<Move>)
    requires us == [FIRST, SECOND]
    ensures Checked(h) && |h| == 4 && IsRun(us, Some("a"), h) && Value(Some("a"), h) == Some("a") && NoOutsider(h)
    ensures Run(us[0], Local(h, 0)) == Run(us[1], Local(h, 1)) == Writing("1")
  {
    var read := BothRead(us);
    h := ListBy(us, read, 0);
    h := ListBy(us, h, 1);
  }

  lemma ListProceeds(u: Update)
    requires u == FIRST || u == SECOND
    ensures Step(u, CaptureId, LIST) == Writing("1")
  {
    assert PriorId([RUNNING], "s") == Some("1");
  }

  lemma ListBy(us: seq<Update>, h: seq<Move>, i: nat) returns (h': seq<Move>)
    requires us == [FIRST, SECOND] && i < 2 && IsRun(us, Some("a"), h) && Value(Some("a"), h) == Some("a") && NoOutsider(h)
    requires Run(us[i], Local(h, i)) == CaptureId
    ensures h' == h + [Act(i, LIST, false)] && IsRun(us, Some("a"), h') && Value(Some("a"), h') == Some("a") && NoOutsider(h')
    ensures Run(us[i], Local(h', i)) == Writing("1") && Run(us[1 - i], Local(h', 1 - i)) == Run(us[1 - i], Local(h, 1 - i))
  {
    ListProceeds(us[i]);
    h' := Extend(us, Some("a"), h, Act(i, LIST, false), Writing("1"));
  }

  lemma BothRead(us: seq<Update>) returns (h: seq<Move>)
    requires us == [FIRST, SECOND]
    ensures |h| == 2 && h[0] == Act(0, READ, false) && h[1] == Act(1, READ, false)
    ensures IsRun(us, Some("a"), h) && Value(Some("a"), h) == Some("a") && NoOutsider(h)
    ensures Run(us[0], Local(h, 0)) == Run(us[1], Local(h, 1)) == CaptureId
  {
    h := ReadBy(us, [], 0);
    h := ReadBy(us, h, 1);
  }

  lemma ReadProceeds(u: Update)
    requires u == FIRST || u == SECOND
    ensures Step(u, ReadCurrent, READ) == CaptureId && Lookup(READ.reply.vars, u.variable) == Some("a")
  {
  }

  lemma ReadBy(us: seq<Update>, h: seq<Move>, i: nat) returns (h': seq<Move>)
    requires us == [FIRST, SECOND] && i < 2 && IsRun(us, Some("a"), h) && Value(Some("a"), h) == Some("a") && NoOutsider(h)
    requires Run(us[i], Local(h, i)) == ReadCurrent
    ensures h' == h + [Act(i, READ, false)] && IsRun(us, Some("a"), h') && Value(Some("a"), h') == Some("a") && NoOutsider(h')
    ensures Run(us[i], Local(h', i)) == CaptureId && Run(us[1 - i], Local(h', 1 - i)) == Run(us[1 - i], Local(h, 1 - i))
  {
    ReadProceeds(us[i]);
    h' := Extend(us, Some("a"), h, Act(i, READ, false), CaptureId);
  }
}
