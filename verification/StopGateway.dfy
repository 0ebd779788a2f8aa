/** The injected stopGatewayAndWait() and its callers, as a state machine.  A step is one
    turn of the event loop: an exit event with the continuations it releases, a timer
    with the continuation it releases, time passing, or a request of some caller.  Exits
    and timers interleave in any order; one stop is in flight at a time. */
module StopGateway {
  import opened Options

  const GRACE_MS := 5000
  const LEGACY_MS := 750

  datatype Signal = Term(proc: nat, at: nat) | Kill(proc: nat, at: nat)

  datatype Stop =
    | Idle
    | AwaitTerm(proc: nat, timer: nat)
    | AwaitKill(proc: nat, timer: nat)
    | Returned(stopped: Option<nat>)
    | Threw(stuck: nat)

  /** `slot` is gatewayProc; `live` holds the gateways whose exit event has not happened;
      `began` is when the stop now or last in flight was called. */
  datatype State = State(
    slot: Option<nat>, live: set<nat>, next: nat, now: nat, stop: Stop, began: nat, signals: seq<Signal>)

  datatype Move =
    | CallStop            // a caller enters stopGatewayAndWait()
    | Exit(proc: nat)     // a gateway's exit event
    | Timer               // the armed 5 s timer fires
    | Tick(ms: nat)       // time passes, up to an armed timer
    | EnsureRunning       // a caller of ensureGatewayRunning()

  predicate InFlight(stop: Stop) {
    stop.AwaitTerm? || stop.AwaitKill?
  }

  function Begin(s: State): State {
    if s.slot.None? then s.(stop := Returned(None), began := s.now)
    else
      var proc := s.slot.value;
      var signalled := s.(began := s.now, signals := s.signals + [Term(proc, s.now)]);
      if proc !in s.live then signalled.(slot := None, stop := Returned(Some(proc)))
      else signalled.(stop := AwaitTerm(proc, s.now + GRACE_MS))
  }

  /** The wrapper's own exit handler empties the slot; the waiting stop, if it waits for
      this process, then returns. */
  function Exited(s: State, proc: nat): State {
    var gone := s.(live := s.live - {proc}, slot := None);
    if InFlight(s.stop) && s.stop.proc == proc then gone.(stop := Returned(Some(proc))) else gone
  }

  function Fired(s: State): State
    requires InFlight(s.stop)
  {
    match s.stop
    case AwaitTerm(proc, _) =>
      s.(stop := AwaitKill(proc, s.now + GRACE_MS), signals := s.signals + [Kill(proc, s.now)])
    case AwaitKill(proc, _) => s.(stop := Threw(proc))
  }

  /** Spawning is one abstract step, taken only when the slot is empty. */
  function Ensured(s: State): State {
    if s.slot.Some? then s
    else s.(slot := Some(s.next), live := s.live + {s.next}, next := s.next + 1)
  }

  /** None when the move is not possible in s. */
  function Step(s: State, m: Move): Option<State> {
    match m
    case CallStop => if InFlight(s.stop) then None else Some(Begin(s))
    case Exit(proc) => if proc in s.live then Some(Exited(s, proc)) else None
    case Timer => if InFlight(s.stop) && s.now >= s.stop.timer then Some(Fired(s)) else None
    case Tick(ms) => if InFlight(s.stop) && s.now + ms > s.stop.timer then None else Some(s.(now := s.now + ms))
    case EnsureRunning => Some(Ensured(s))
  }

  function Run(s: State, moves: seq<Move>): Option<State> {
    if moves == [] then Some(s)
    else
      var before := Run(s, moves[..|moves| - 1]);
      if before.None? then None else Step(before.value, moves[|moves| - 1])
  }

  /** A gateway or none in the slot, none outside it, no stop in flight. */
  predicate Initial(s: State) {
    && s.stop.Idle? && s.signals == []
    && (s.slot.Some? ==> s.slot.value < s.next)
    && (forall q :: q in s.live ==> s.slot == Some(q))
  }

  /** Every SIGKILL comes right after a SIGTERM to the same process and a whole timed-out
      grace period. */
  ghost predicate KillsFollowTerms(signals: seq<Signal>) {
    forall k :: 0 <= k < |signals| && signals[k].Kill? ==>
      k > 0 && signals[k - 1].Term? && signals[k - 1].proc == signals[k].proc
      && signals[k].at >= signals[k - 1].at + GRACE_MS
  }

  /** The last two signals are the SIGTERM of this stop and, a grace period later, its SIGKILL. */
  predicate KilledLast(s: State, proc: nat) {
    && |s.signals| >= 2 && s.signals[|s.signals| - 2] == Term(proc, s.began)
    && s.signals[|s.signals| - 1] == Kill(proc, s.began + GRACE_MS)
  }

  ghost predicate Invariant(s: State) {
    && (forall q :: q in s.live ==> s.slot == Some(q))
    && (s.slot.Some? ==> s.slot.value < s.next)
    && KillsFollowTerms(s.signals)
    && s.began <= s.now
    && (match s.stop
        case AwaitTerm(proc, timer) =>
          proc in s.live && timer == s.began + GRACE_MS && s.now <= timer
          && s.signals != [] && s.signals[|s.signals| - 1] == Term(proc, s.began)
        case AwaitKill(proc, timer) =>
          proc in s.live && timer == s.began + 2 * GRACE_MS && s.began + GRACE_MS <= s.now <= timer
          && KilledLast(s, proc)
        case Threw(proc) => KilledLast(s, proc)
        case _ => true)
  }

  lemma InvariantKept(s: State, m: Move)
    requires Invariant(s) && Step(s, m).Some?
    ensures Invariant(Step(s, m).value)
  {
    match m {
      case CallStop => BeginKept(s);
      case Timer => FiredKept(s);
      case _ =>
    }
  }

  lemma BeginKept(s: State)
    requires Invariant(s) && !InFlight(s.stop)
    ensures Invariant(Begin(s))
  {
    if s.slot.Some? {
      SignalSnoc(s.signals, Term(s.slot.value, s.now));
    }
  }

  lemma FiredKept(s: State)
    requires Invariant(s) && InFlight(s.stop) && s.now >= s.stop.timer
    ensures Invariant(Fired(s))
  {
    if s.stop.AwaitTerm? {
      SignalSnoc(s.signals, Kill(s.stop.proc, s.now));
    }
  }

  lemma SignalSnoc(signals: seq<Signal>, last: Signal)
    requires KillsFollowTerms(signals)
    requires last.Kill? ==> signals != [] && signals[|signals| - 1].Term? && signals[|signals| - 1].proc == last.proc
                            && last.at >= signals[|signals| - 1].at + GRACE_MS
    ensures KillsFollowTerms(signals + [last])
  {
  }

  lemma {:induction false} InvariantHolds(s: State, moves: seq<Move>)
    requires Initial(s) && s.began <= s.now && Run(s, moves).Some?
    ensures Invariant(Run(s, moves).value)
  {
    if moves != [] {
      InvariantHolds(s, moves[..|moves| - 1]);
      InvariantKept(Run(s, moves[..|moves| - 1]).value, moves[|moves| - 1]);
    }
  }

  // ---------- the main results ----------

  /** Over all interleavings there is never more than one live gateway, and it is the one
      in the slot: nothing is ever spawned beside a live process. */
  lemma NeverTwoGateways(s: State, moves: seq<Move>)
    requires Initial(s) && s.began <= s.now && Run(s, moves).Some?
    ensures var end := Run(s, moves).value;
            |end.live| <= 1 && forall q :: q in end.live ==> end.slot == Some(q)
  {
    InvariantHolds(s, moves);
    var end := Run(s, moves).value;
    if q :| q in end.live {
      assert end.live == {q};
    }
  }

  /** The process a stop waits for: the one in flight, or the one a new call finds. */
  function Captured(s: State, m: Move): Option<nat> {
    if m.CallStop? then s.slot else if InFlight(s.stop) then Some(s.stop.proc) else None
  }

  /** The turn in which a stop ends, be it the turn it is called in.  A normal return means
      that the captured process, if there was one, has exited, the slot is empty and no
      gateway is live; a throw means the captured process is still live and still in the
      slot, after SIGTERM, SIGKILL and both grace periods.  Either way the stop took at
      most two grace periods, and none if nothing was running. */
  lemma HowAStopEnds(s: State, moves: seq<Move>, m: Move)
    requires Initial(s) && s.began <= s.now && Run(s, moves).Some?
    requires InFlight(Run(s, moves).value.stop) || m.CallStop?
    requires Step(Run(s, moves).value, m).Some? && !InFlight(Step(Run(s, moves).value, m).value.stop)
    ensures var before, after := Run(s, moves).value, Step(Run(s, moves).value, m).value;
            var proc := Captured(before, m);
            && after.now - after.began <= 10000
            && (|| (after.stop == Returned(proc) && after.slot == None && after.live == {})
                || (proc.Some? && after.stop == Threw(proc.value) && after.slot == proc && after.live == {proc.value}
                    && after.now - after.began == 10000))
            && (after.stop.Threw? <==> before.stop.AwaitKill? && m.Timer?)
            && (m.CallStop? ==> after.now == after.began && before.live == {})
  {
    InvariantHolds(s, moves);
    InvariantKept(Run(s, moves).value, m);
    var before := Run(s, moves).value;
    if m.CallStop? {
      assert before.live == {};
    } else {
      assert before.live == {before.stop.proc};
    }
  }

  /** SIGKILL is only ever sent after SIGTERM and a whole timed-out wait. */
  lemma KillOnlyAfterGrace(s: State, moves: seq<Move>, k: nat)
    requires Initial(s) && s.began <= s.now && Run(s, moves).Some?
    requires k < |Run(s, moves).value.signals| && Run(s, moves).value.signals[k].Kill?
    ensures var signals := Run(s, moves).value.signals;
            k > 0 && signals[k - 1].Term? && signals[k - 1].proc == signals[k].proc
            && signals[k].at >= signals[k - 1].at + 5000
  {
    InvariantHolds(s, moves);
  }

  /** A stop that waits for a second grace period, or has given up, has sent both signals:
      SIGTERM when it was called and SIGKILL one period later, and nothing since. */
  lemma KilledBeforeGivingUp(s: State, moves: seq<Move>)
    requires Initial(s) && s.began <= s.now && Run(s, moves).Some?
    ensures var end := Run(s, moves).value;
            && (end.stop.AwaitKill? ==> KilledLast(end, end.stop.proc))
            && (end.stop.Threw? ==> KilledLast(end, end.stop.stuck))
            && (end.stop.AwaitTerm? ==> end.signals != [] && end.signals[|end.signals| - 1] == Term(end.stop.proc, end.began))
  {
    InvariantHolds(s, moves);
  }

  /** After a stop that returned and nothing since, the gateway can be started again: one
      that is new is then live and in the slot, and it is the only one. */
  lemma RestartsAfterStop(s: State, moves: seq<Move>, m: Move)
    requires Initial(s) && s.began <= s.now && Run(s, moves).Some?
    requires InFlight(Run(s, moves).value.stop) || m.CallStop?
    requires Step(Run(s, moves).value, m).Some? && Step(Run(s, moves).value, m).value.stop.Returned?
    ensures var before, stopped := Run(s, moves).value, Step(Run(s, moves).value, m).value;
            && Step(stopped, EnsureRunning).Some?
            && var again := Step(stopped, EnsureRunning).value;
               again.slot.Some? && again.live == {again.slot.value} && again.slot != before.slot
  {
    HowAStopEnds(s, moves, m);
    InvariantHolds(s, moves);
  }

  /** A stop never gets stuck: some move other than a new request is possible, and once
      the clock stands at the timer, the timer is. */
  lemma {:induction false} StopMakesProgress(s: State, moves: seq<Move>)
    requires Initial(s) && s.began <= s.now && Run(s, moves).Some?
    requires InFlight(Run(s, moves).value.stop)
    ensures Run(s, moves).value.now <= Run(s, moves).value.stop.timer
    ensures var at := Run(s, moves).value;
            Step(at, Tick(at.stop.timer - at.now)).Some? && Step(Step(at, Tick(at.stop.timer - at.now)).value, Timer).Some?
  {
    InvariantHolds(s, moves);
  }

  // ---------- what was replaced ----------

  /** The replaced block: SIGTERM, a flat 750 ms sleep, an emptied slot. */
  function LegacyStep(s: State, m: Move): Option<State> {
    match m
    case CallStop =>
      if InFlight(s.stop) then None
      else if s.slot.None? then Some(s.(stop := Returned(None), began := s.now))
      else Some(s.(stop := AwaitTerm(s.slot.value, s.now + LEGACY_MS), began := s.now,
                   signals := s.signals + [Term(s.slot.value, s.now)]))
    case Exit(proc) => if proc in s.live then Some(s.(live := s.live - {proc}, slot := None)) else None
    case Timer =>
      if InFlight(s.stop) && s.now >= s.stop.timer
      then Some(s.(slot := None, stop := Returned(Some(s.stop.proc)))) else None
    case _ => Step(s, m)
  }

  /** At the end of the flat sleep a restart leaves two gateways live exactly when the old
      one had not exited by then. */
  lemma LegacyRestart(s: State)
    requires s.stop.AwaitTerm? && s.now >= s.stop.timer && s.next !in s.live && s.live <= {s.stop.proc}
    ensures var returned := LegacyStep(s, Timer).value;
            |LegacyStep(returned, EnsureRunning).value.live| == 2 <==> s.stop.proc in s.live
  {
    var returned := LegacyStep(s, Timer).value;
    assert LegacyStep(returned, EnsureRunning).value.live == s.live + {s.next};
    if s.stop.proc in s.live {
      assert s.live == {s.stop.proc};
    } else {
      assert s.live == {};
    }
  }

  function LegacyRun(s: State, moves: seq<Move>): Option<State>
    decreases |moves|
  {
    if moves == [] then Some(s)
    else
      var next := LegacyStep(s, moves[0]);
      if next.None? then None else LegacyRun(next.value, moves[1..])
  }

  /** The race the patch removes: a run of the replaced block with two live gateways. */
  lemma LegacyReachesTwoGateways() returns (s: State, moves: seq<Move>)
    ensures Initial(s) && LegacyRun(s, moves).Some? && |LegacyRun(s, moves).value.live| == 2
  {
    s := State(Some(0), {0}, 1, 0, Idle, 0, []);
    moves := [CallStop, Tick(750), Timer, EnsureRunning];
    var s1 := LegacyStep(s, CallStop).value;
    var s2 := LegacyStep(s1, Tick(750)).value;
    var s3 := LegacyStep(s2, Timer).value;
    var s4 := LegacyStep(s3, EnsureRunning).value;
    LegacyRestart(s2);
    assert moves[1..] == [Tick(750), Timer, EnsureRunning] && moves[1..][1..] == [Timer, EnsureRunning];
    assert [Timer, EnsureRunning][1..] == [EnsureRunning] && [EnsureRunning][1..] == [];
    assert LegacyRun(s4, []) == Some(s4);
    assert LegacyRun(s3, [EnsureRunning]) == Some(s4);
    assert LegacyRun(s2, [Timer, EnsureRunning]) == Some(s4);
  }
}
