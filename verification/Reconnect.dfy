/**
 The reconnect scheduler of main/src/ble_reconnect.c: fast attempts, backoff, an attempt timer and
 a visibility timer. Times are milliseconds of uptime; a timer runs at its due time or later.
 */
module Reconnect {
  import opened Basics

  const FAST_ATTEMPT_COUNT: nat := 4
  const SETTLE_MS: int := 750
  const VISIBILITY_MS: int := 2000
  const BACKOFF_MS: int := 5000
  const BACKOFF_CAP_MS: int := 10000
  const FAST_DELAY_MS: seq<int> := [0, 500, 1000, 2000]

  datatype Mode = Idle | Fast | Backoff

  /** `outstanding` is not in the code: an attempt was started and has neither failed nor connected. */
  datatype State = State(
    mode: Mode, visible: bool, armed: bool, fastIndex: nat, backoffDelay: int,
    attemptDue: Option<int>, visibilityDue: Option<int>,
    now: int, outstanding: bool)

  function Init(): State {
    State(Idle, false, false, 0, BACKOFF_MS, None, None, 0, false)
  }

  /** schedule_attempt_in */
  function Schedule(s: State, delay: int): State {
    if delay <= 0 then s.(attemptDue := None, armed := true)
    else s.(armed := false, attemptDue := Some(s.now + delay))
  }

  function EnterFast(s: State): State {
    if s.mode.Fast? then s else Schedule(s.(mode := Fast, fastIndex := 0, backoffDelay := BACKOFF_MS), 0)
  }

  function EnterBackoff(s: State): State {
    var delay := if s.backoffDelay <= 0 then BACKOFF_MS else s.backoffDelay;
    Schedule(s.(mode := Backoff, backoffDelay := delay), delay)
  }

  function ResetFast(s: State): State {
    Schedule(s.(mode := Fast, fastIndex := 0, backoffDelay := BACKOFF_MS, visible := false), 0)
  }

  function Seen(s: State): State {
    var s' := s.(visible := true, visibilityDue := Some(s.now + VISIBILITY_MS));
    if s.visible then s'
    else Schedule(s'.(mode := Fast, fastIndex := 0, backoffDelay := BACKOFF_MS), SETTLE_MS)
  }

  function AttemptStarted(s: State): State {
    s.(armed := false, attemptDue := None, outstanding := true)
  }

  function Failure(s: State): State {
    var t := s.(outstanding := false, mode := if s.mode.Idle? then Fast else s.mode);
    if t.mode.Fast? then
      if t.fastIndex + 1 < FAST_ATTEMPT_COUNT then
        Schedule(t.(fastIndex := t.fastIndex + 1), FAST_DELAY_MS[t.fastIndex + 1])
      else
        Schedule(t.(mode := Backoff, backoffDelay := BACKOFF_MS), BACKOFF_MS)
    else
      var delay := if t.backoffDelay <= 0 then BACKOFF_MS
                   else if t.backoffDelay < BACKOFF_CAP_MS then BACKOFF_CAP_MS else t.backoffDelay;
      Schedule(t.(backoffDelay := delay), delay)
  }

  function Connected(s: State): State {
    s.(mode := Idle, visible := true, armed := false, fastIndex := 0, backoffDelay := BACKOFF_MS,
       attemptDue := None, visibilityDue := None, outstanding := false)
  }

  /** The attempt timer's handler, up to its call into the scanner. */
  function AttemptTimer(s: State): State {
    s.(armed := true, attemptDue := None)
  }

  function VisibilityTimer(s: State): State {
    s.(visible := false, armed := false, attemptDue := None, visibilityDue := None)
  }

  predicate ShouldAttempt(s: State) {
    s.visible && (s.mode.Idle? || s.armed)
  }

  datatype Op =
    | EnterFastOp | EnterBackoffOp | ResetFastOp | SeenOp | StartOp | FailureOp | ConnectedOp
    | AttemptTimerOp | VisibilityTimerOp | Elapse(ms: nat)

  predicate Due(timer: Option<int>, now: int) {
    timer.Some? && timer.value <= now
  }

  /** Timers run only when due. */
  predicate Enabled(s: State, op: Op) {
    && (op.AttemptTimerOp? ==> Due(s.attemptDue, s.now))
    && (op.VisibilityTimerOp? ==> Due(s.visibilityDue, s.now))
  }

  function Step(s: State, op: Op): State {
    match op
    case EnterFastOp => EnterFast(s)
    case EnterBackoffOp => EnterBackoff(s)
    case ResetFastOp => ResetFast(s)
    case SeenOp => Seen(s)
    case StartOp => AttemptStarted(s)
    case FailureOp => Failure(s)
    case ConnectedOp => Connected(s)
    case AttemptTimerOp => AttemptTimer(s)
    case VisibilityTimerOp => VisibilityTimer(s)
    case Elapse(ms) => s.(now := s.now + ms)
  }

  function Run(s: State, ops: seq<Op>): State {
    if ops == [] then s else Step(Run(s, ops[..|ops| - 1]), ops[|ops| - 1])
  }

  ghost predicate EnabledRun(s: State, ops: seq<Op>) {
    ops == [] || (EnabledRun(s, ops[..|ops| - 1]) && Enabled(Run(s, ops[..|ops| - 1]), ops[|ops| - 1]))
  }

  lemma RunExtends(s: State, ops: seq<Op>, op: Op)
    ensures Run(s, ops + [op]) == Step(Run(s, ops), op)
    ensures EnabledRun(s, ops + [op]) <==> EnabledRun(s, ops) && Enabled(Run(s, ops), op)
  {
    assert (ops + [op])[..|ops|] == ops;
  }

  // ---------- One failure counter behind the three modes ----------

  /** What every operation keeps. */
  ghost predicate Valid(s: State) {
    && s.fastIndex < FAST_ATTEMPT_COUNT
    && (s.backoffDelay == BACKOFF_MS || s.backoffDelay == BACKOFF_CAP_MS)
    && (!s.mode.Backoff? ==> s.backoffDelay == BACKOFF_MS)
    && (s.mode.Idle? ==> s.fastIndex == 0)
  }

  function Failures(s: State): nat {
    match s.mode
    case Idle => 0
    case Fast => s.fastIndex
    case Backoff => if s.backoffDelay < BACKOFF_CAP_MS then 4 else 5
  }

  /** The wait after the n-th consecutive failure. */
  function DelayAfter(n: nat): int {
    if n == 0 then 0 else if n == 1 then 500 else if n == 2 then 1000 else if n == 3 then 2000
    else if n == 4 then 5000 else 10000
  }

  /** A failure counts up to 5 and schedules the wait that belongs to the new count. */
  lemma FailureCounts(s: State)
    requires Valid(s)
    ensures var s' := Failure(s);
            && Valid(s')
            && Failures(s') == (if Failures(s) < 5 then Failures(s) + 1 else 5)
            && !s'.armed && s'.attemptDue == Some(s.now + DelayAfter(Failures(s')))
  {
  }

  /** Operations that may set the counter back to 0. */
  ghost predicate Resets(s: State, op: Op) {
    || (op.SeenOp? && !s.visible)
    || op.ResetFastOp? || op.ConnectedOp?
    || (op.EnterFastOp? && s.mode.Backoff?)
  }

  /** The counter moves only by failures and resets, or when backoff is entered from outside it. */
  lemma CounterChanges(s: State, op: Op)
    requires Valid(s)
    ensures var s' := Step(s, op);
            && Valid(s')
            && Failures(s') ==
                 if Resets(s, op) then 0
                 else if op.FailureOp? then (if Failures(s) < 5 then Failures(s) + 1 else 5)
                 else if op.EnterBackoffOp? && !s.mode.Backoff? then 4
                 else Failures(s)
  {
  }

  /** transition_to_reconnect_state: what the state machine does on a failure of a bonded peer. */
  function ReenterReconnect(s: State): State {
    if s.mode.Backoff? then EnterBackoff(s) else EnterFast(s)
  }

  lemma ReenterKeepsCounter(s: State)
    requires Valid(s)
    ensures Valid(ReenterReconnect(s)) && Failures(ReenterReconnect(s)) == Failures(s)
    ensures !ReenterReconnect(s).mode.Idle?
  {
  }

  // ---------- How long the peer stays in sight ----------

  /**
   What a run makes of the peer's sight, told from the operations alone: nothing yet, out of sight,
   seen `ms` ago, or held in sight by a connection.
   */
  datatype Sight = Untold | Lost | SeenAgo(ms: nat) | Held

  function SightAfter(ops: seq<Op>): Sight {
    if ops == [] then Untold
    else
      var before := SightAfter(ops[..|ops| - 1]);
      match ops[|ops| - 1]
      case SeenOp => SeenAgo(0)
      case ConnectedOp => Held
      case ResetFastOp => Lost
      case VisibilityTimerOp => Lost
      case Elapse(ms) => if before.SeenAgo? then SeenAgo(before.ms + ms) else before
      case _ => before
  }

  /** The timer that takes the peer out of sight runs 2000 ms after the last sighting at the earliest. */
  ghost predicate Sighted(s: State, sight: Sight) {
    match sight
    case Untold => true
    case Lost => !s.visible
    case SeenAgo(ms) => s.visible && (Enabled(s, VisibilityTimerOp) <==> ms >= 2000)
                        && s.visibilityDue == Some(s.now - ms + 2000)
    case Held => s.visible && s.visibilityDue.None? && !Enabled(s, VisibilityTimerOp)
  }

  lemma SightStep(s: State, ops: seq<Op>, op: Op)
    requires Sighted(s, SightAfter(ops))
    ensures Sighted(Step(s, op), SightAfter(ops + [op]))
  {
    assert (ops + [op])[..|ops|] == ops;
  }

  /**
   Over every run, from any state: the peer is in sight from a sighting on, and the timer that takes it
   out of sight can run exactly from 2000 ms after the last one, whatever comes in between, unless the
   scheduler is reset or told of a connection.
   */
  lemma {:induction false} InSightAfterSighting(s: State, ops: seq<Op>)
    ensures Sighted(Run(s, ops), SightAfter(ops))
  {
    if ops != [] {
      InSightAfterSighting(s, ops[..|ops| - 1]);
      SightStep(Run(s, ops[..|ops| - 1]), ops[..|ops| - 1], ops[|ops| - 1]);
      assert ops[..|ops| - 1] + [ops[|ops| - 1]] == ops;
    }
  }

  /** When it has run, the peer is out of sight and nothing is allowed or scheduled any more. */
  lemma LostSightStopsAttempts(s: State)
    ensures var t := Step(s, VisibilityTimerOp);
            && !t.visible && !ShouldAttempt(t) && !t.armed && t.attemptDue.None? && t.visibilityDue.None?
            && t.mode == s.mode && Failures(t) == Failures(s)
  {
  }

  /** The next sighting then starts over: no failures counted, an attempt after 750 ms and none before. */
  lemma FreshSighting(s: State)
    ensures var t := Step(s, SeenOp);
            if s.visible then t == s.(visibilityDue := Some(s.now + 2000))
            else && Failures(t) == 0 && t.mode.Fast? && t.visible && !ShouldAttempt(t)
                 && t.attemptDue == Some(s.now + 750) && t.visibilityDue == Some(s.now + 2000)
  {
  }

  // ---------- No lost wake-up ----------

  /** Whoever waits for an attempt is either allowed one now or has a timer that will allow it. */
  ghost predicate WillWake(s: State) {
    !s.mode.Idle? && s.visible && !s.outstanding ==> s.armed || s.attemptDue.Some?
  }

  lemma StepKeepsWake(s: State, op: Op)
    requires Valid(s) && WillWake(s)
    ensures WillWake(Step(s, op))
  {
  }

  lemma {:induction false} NoLostWakeUp(ops: seq<Op>)
    ensures Valid(Run(Init(), ops)) && WillWake(Run(Init(), ops))
  {
    if ops != [] {
      NoLostWakeUp(ops[..|ops| - 1]);
      CounterChanges(Run(Init(), ops[..|ops| - 1]), ops[|ops| - 1]);
      StepKeepsWake(Run(Init(), ops[..|ops| - 1]), ops[|ops| - 1]);
    }
  }

  /** A state that waits for nothing: visible, not idle, neither armed nor timed. */
  ghost predicate Stalled(s: State) {
    Valid(s) && !s.mode.Idle? && s.visible && !s.armed && s.attemptDue.None?
  }

  /**
   maybe_start_connect for a known peer, when bt_conn_le_create fails at once or succeeds. A failure
   gets as far as noting the start only if CONNECT_FAILURE could be posted, so that is assumed here.
   */
  function KnownConnect(s: State, createFails: bool): State {
    AttemptStarted(if createFails then Failure(s) else s)
  }

  /**
   A create that fails at once is reported before the attempt is noted as started, and noting it
   cancels the retry the failure had just scheduled. Handling the posted CONNECT_FAILURE repairs
   this only in backoff: with fewer than 3 earlier failures nothing is armed or timed afterwards.
   A failure that arrives after the attempt was noted never stalls.
   */
  lemma CreateFailureStallsExactly(s: State)
    requires Valid(s) && s.visible
    ensures Stalled(ReenterReconnect(KnownConnect(s, true))) <==> Failures(s) < 3
    ensures !Stalled(ReenterReconnect(Failure(KnownConnect(s, false))))
    ensures Failures(KnownConnect(s, false)) == Failures(s)
    ensures Failures(KnownConnect(s, true)) == if Failures(s) < 5 then Failures(s) + 1 else 5
  {
  }

  /** An attempt uses its permission up: once its start is noted nothing is allowed or scheduled. */
  lemma StartUsesPermission(s: State)
    requires Valid(s) && !s.mode.Idle? && s.visible
    ensures Stalled(Step(s, StartOp)) && !ShouldAttempt(Step(s, StartOp))
  {
  }

  /** An idle scheduler, as it is at power-up, has nothing scheduled: the sight of the peer is enough to connect. */
  ghost predicate NothingIdle(s: State) {
    s.mode.Idle? ==> !s.armed && s.attemptDue.None?
  }

  lemma {:induction false} IdleSchedulesNothing(ops: seq<Op>)
    requires EnabledRun(Init(), ops)
    ensures NothingIdle(Run(Init(), ops)) && Run(Init(), []).mode.Idle?
  {
    if ops != [] {
      IdleSchedulesNothing(ops[..|ops| - 1]);
      NothingIdleStep(Run(Init(), ops[..|ops| - 1]), ops[|ops| - 1]);
    }
  }

  lemma NothingIdleStep(s: State, op: Op)
    requires NothingIdle(s) && Enabled(s, op)
    ensures NothingIdle(Step(s, op))
  {
  }

  /** The stall is reached from power-up: a first advertisement, its settle time, and a create that fails. */
  lemma CreateFailureStallsFromStart()
    ensures var ops := [SeenOp, Elapse(750), AttemptTimerOp];
            var s := Run(Init(), ops);
            && EnabledRun(Init(), ops) && ShouldAttempt(s) && Failures(s) == 0
            && Stalled(ReenterReconnect(KnownConnect(s, true)))
  {
    RunExtends(Init(), [], SeenOp);
    RunExtends(Init(), [] + [SeenOp], Elapse(750));
    RunExtends(Init(), [] + [SeenOp] + [Elapse(750)], AttemptTimerOp);
    assert [] + [SeenOp] + [Elapse(750)] + [AttemptTimerOp] == [SeenOp, Elapse(750), AttemptTimerOp];
  }

  /** From a stall no advertisement, lapse of time or attempt timer brings an attempt back. */
  lemma {:induction false} StallPersists(s: State, ops: seq<Op>)
    requires Stalled(s)
    requires forall i :: 0 <= i < |ops| ==> ops[i].SeenOp? || ops[i].Elapse? || ops[i].AttemptTimerOp?
    requires EnabledRun(s, ops)
    ensures Stalled(Run(s, ops)) && !ShouldAttempt(Run(s, ops))
  {
    if ops != [] {
      StallPersists(s, ops[..|ops| - 1]);
    }
  }

  // ---------- Timed spacing ----------

  /** The earliest time, after the first failed attempt, of the attempt after the n-th one. */
  function Floor(n: nat): int {
    if n == 0 then 0 else Floor(n - 1) + DelayAfter(n)
  }

  lemma {:induction false} FloorClosedForm(n: nat)
    requires n >= 4
    ensures Floor(n) == 8500 + 10000 * (n - 4)
  {
    if n > 4 {
      FloorClosedForm(n - 1);
    }
  }

  /** The counter is not reset and the peer stays in sight; attempts and failures may be noted at any time. */
  ghost predicate Disciplined(s: State, op: Op) {
    Enabled(s, op) && !Resets(s, op) && !op.VisibilityTimerOp?
  }

  /**
   The scheduler with what an observer makes of a run. `attempting` is whether an attempt is under way:
   one that was allowed when its start was noted and has not ended. A start noted after the create has
   failed is none.
   */
  datatype Watch = Watch(at: State, attempting: bool, notes: nat, failed: nat, first: int)

  function Watched(s: State): Watch {
    Watch(s, false, 0, 0, 0)
  }

  /** A failure that ends an attempt: one under way, or one that is allowed and cannot even be created. */
  predicate EndsAttempt(w: Watch, op: Op) {
    op.FailureOp? && (w.attempting || ShouldAttempt(w.at))
  }

  function Observe(w: Watch, op: Op): Watch {
    var ends := EndsAttempt(w, op);
    Watch(Step(w.at, op),
          if op.StartOp? then w.attempting || ShouldAttempt(w.at)
          else if op.FailureOp? || op.ConnectedOp? then false else w.attempting,
          w.notes + (if op.FailureOp? then 1 else 0),
          w.failed + (if ends then 1 else 0),
          if ends && w.failed == 0 then w.at.now else w.first)
  }

  function WatchRun(w: Watch, ops: seq<Op>): Watch {
    if ops == [] then w else Observe(WatchRun(w, ops[..|ops| - 1]), ops[|ops| - 1])
  }

  ghost predicate DisciplinedRun(w: Watch, ops: seq<Op>) {
    ops == []
    || (DisciplinedRun(w, ops[..|ops| - 1]) && Disciplined(WatchRun(w, ops[..|ops| - 1]).at, ops[|ops| - 1]))
  }

  /** A create that fails at once is one failed attempt, and the start noted after it is none. */
  lemma CreateFailureWatched(w: Watch)
    requires Valid(w.at) && ShouldAttempt(w.at) && !w.at.mode.Idle?
    ensures Disciplined(w.at, FailureOp) && Disciplined(Failure(w.at), StartOp)
    ensures var t := Observe(Observe(w, FailureOp), StartOp);
            t.at == KnownConnect(w.at, true) && t.failed == w.failed + 1 && t.notes == w.notes + 1 && !t.attempting
  {
    FailureCounts(w.at);
  }

  lemma {:induction false} WatchesTheRun(w: Watch, ops: seq<Op>)
    ensures WatchRun(w, ops).at == Run(w.at, ops)
  {
    if ops != [] {
      WatchesTheRun(w, ops[..|ops| - 1]);
    }
  }

  /** With `n` failed attempts since time `first`, no attempt can come before `first + Floor(n)`. */
  ghost predicate Spaced(w: Watch, n: nat, first: int) {
    && Valid(w.at)
    && Failures(w.at) >= (if n < 5 then n else 5)
    && (n > 0 ==>
          && !w.at.mode.Idle?
          && w.at.now + DelayAfter(Failures(w.at)) >= first + Floor(n)
          && (w.attempting || w.at.armed ==> w.at.now >= first + Floor(n))
          && (w.at.attemptDue.Some? ==> w.at.attemptDue.value >= first + Floor(n)))
  }

  /** The wait grows with the counter, and stays what it is from 5 failures on. */
  lemma DelayGrows(n: nat, m: nat)
    requires m >= (if n < 5 then n else 5)
    ensures DelayAfter(n) <= DelayAfter(m)
  {
  }

  lemma SpacedStep(w: Watch, op: Op, n: nat, first: int)
    requires Spaced(w, n, first) && Disciplined(w.at, op)
    ensures var n' := if EndsAttempt(w, op) then n + 1 else n;
            var first' := if EndsAttempt(w, op) && n == 0 then w.at.now else first;
            Spaced(Observe(w, op), n', first')
  {
    CounterChanges(w.at, op);
    DelayGrows(Failures(w.at), Failures(Step(w.at, op)));
    if op.FailureOp? {
      FailureCounts(w.at);
      DelayGrows(n + 1, Failures(Step(w.at, op)));
    }
  }

  lemma {:induction false} RunIsSpaced(s: State, ops: seq<Op>)
    requires Valid(s) && DisciplinedRun(Watched(s), ops)
    ensures var w := WatchRun(Watched(s), ops); Spaced(w, w.failed, w.first)
  {
    if ops != [] {
      var front := ops[..|ops| - 1];
      var w := WatchRun(Watched(s), front);
      RunIsSpaced(s, front);
      SpacedStep(w, ops[|ops| - 1], w.failed, w.first);
    }
  }

  /**
   While the peer stays in sight, whatever advertisements, timers, entries into backoff, surplus
   failures and surplus starts come in between, the attempt after the n-th failed one is not allowed
   before 8.5 s + 10 s * (n - 4) after the first of them failed.
   */
  lemma AttemptsAreSpaced(s: State, ops: seq<Op>)
    requires Valid(s) && DisciplinedRun(Watched(s), ops)
    requires WatchRun(Watched(s), ops).failed >= 4 && ShouldAttempt(WatchRun(Watched(s), ops).at)
    ensures var w := WatchRun(Watched(s), ops);
            w.at == Run(s, ops) && w.at.now - w.first >= 8500 + 10000 * (w.failed - 4)
  {
    RunIsSpaced(s, ops);
    WatchesTheRun(Watched(s), ops);
    FloorClosedForm(WatchRun(Watched(s), ops).failed);
  }

  /** After every operation so far the last sighting was less than 2000 ms ago. */
  ghost predicate SeenOften(ops: seq<Op>) {
    ops != [] && SightAfter(ops).SeenAgo? && SightAfter(ops).ms < 2000 && (|ops| > 1 ==> SeenOften(ops[..|ops| - 1]))
  }

  /** No operation of the run resets the counter. */
  ghost predicate NeverResets(s: State, ops: seq<Op>) {
    ops == []
    || (NeverResets(s, ops[..|ops| - 1]) && !Resets(Run(s, ops[..|ops| - 1]), ops[|ops| - 1]))
  }

  /** A peer that advertises at least every 2 s stays in sight: no timer takes it out. */
  lemma {:induction false} SeenOftenStaysInSight(s: State, first: Op, ops: seq<Op>)
    requires first.SeenOp? && EnabledRun(s, [first] + ops) && SeenOften([first] + ops)
    requires NeverResets(Step(s, first), ops)
    ensures DisciplinedRun(Watched(Step(s, first)), ops)
    ensures Run(Step(s, first), ops) == Run(s, [first] + ops)
  {
    var all := [first] + ops;
    if ops == [] {
      assert all[..0] == [] && all[0] == first;
    } else {
      var front, last := ops[..|ops| - 1], ops[|ops| - 1];
      assert all[..|all| - 1] == [first] + front && all[|all| - 1] == last;
      SeenOftenStaysInSight(s, first, front);
      WatchesTheRun(Watched(Step(s, first)), front);
      InSightAfterSighting(s, [first] + front);
    }
  }

  /**
   The bound in terms of what the peer does: from a first sighting on, a peer that is seen again within
   2000 ms each time, and a counter that is not reset.
   */
  lemma AdvertisedAttemptsAreSpaced(s: State, ops: seq<Op>)
    requires Valid(s) && EnabledRun(s, [SeenOp] + ops) && SeenOften([SeenOp] + ops)
    requires NeverResets(Step(s, SeenOp), ops)
    requires var w := WatchRun(Watched(Step(s, SeenOp)), ops); w.failed >= 4 && ShouldAttempt(w.at)
    ensures var w := WatchRun(Watched(Step(s, SeenOp)), ops);
            w.at == Run(s, [SeenOp] + ops) && w.at.now - w.first >= 8500 + 10000 * (w.failed - 4)
  {
    SeenOftenStaysInSight(s, SeenOp, ops);
    CounterChanges(s, SeenOp);
    AttemptsAreSpaced(Step(s, SeenOp), ops);
  }

  // ---------- The same bound, counting notes of failure ----------

  /** From `w` to `t` there was one note of failure per failed attempt, as the documentation counts them. */
  predicate OneNoteEach(w: Watch, t: Watch) {
    t.failed - w.failed == t.notes - w.notes
  }

  lemma {:induction false} NotesCoverAttempts(w: Watch, ops: seq<Op>)
    ensures var t := WatchRun(w, ops); t.failed - w.failed <= t.notes - w.notes && t.notes >= w.notes
    ensures ops != [] && OneNoteEach(w, WatchRun(w, ops)) ==>
              var t := WatchRun(w, ops[..|ops| - 1]);
              OneNoteEach(w, t) && (ops[|ops| - 1].FailureOp? ==> EndsAttempt(t, FailureOp))
  {
    if ops != [] {
      NotesCoverAttempts(w, ops[..|ops| - 1]);
    }
  }

  /** `t` does not allow the attempt after `n` notes, and those since `w`, before its bound. */
  predicate OnTime(w: Watch, t: Watch, n: nat, first: int)
    requires w.notes <= t.notes
  {
    ShouldAttempt(t.at) ==> t.at.now >= first + Floor(n + (t.notes - w.notes))
  }

  /** After `n` notes, and one per attempt from here on, no continuation allows an attempt too early. */
  ghost predicate NeverEarly(w: Watch, n: nat, first: int) {
    forall ops :: DisciplinedRun(w, ops) && OneNoteEach(w, WatchRun(w, ops)) && w.notes <= WatchRun(w, ops).notes ==>
      OnTime(w, WatchRun(w, ops), n, first)
  }

  lemma {:induction false} StaysSpaced(w: Watch, ops: seq<Op>, n: nat, first: int)
    requires Spaced(w, n, first) && n > 0 && DisciplinedRun(w, ops) && OneNoteEach(w, WatchRun(w, ops))
    ensures var t := WatchRun(w, ops); t.notes >= w.notes && Spaced(t, n + (t.notes - w.notes), first)
  {
    if ops != [] {
      var front := ops[..|ops| - 1];
      var t := WatchRun(w, front);
      NotesCoverAttempts(w, ops);
      StaysSpaced(w, front, n, first);
      SpacedStep(t, ops[|ops| - 1], n + (t.notes - w.notes), first);
    }
  }

  /** A peer in sight whose attempt is due after `wait`. */
  predicate Awaits(t: State, wait: nat) {
    t.visible && !t.mode.Idle? && !t.armed && t.attemptDue == Some(t.now + wait)
  }

  /** The timer has run out, `wait` later. */
  function Allowed(t: State, wait: nat): State {
    AttemptTimer(t.(now := t.now + wait))
  }

  /** A disciplined run and what has been observed along it. */
  ghost predicate Reaches(w: Watch, ops: seq<Op>, t: Watch) {
    DisciplinedRun(w, ops) && WatchRun(w, ops) == t
  }

  lemma ReachesStart(w: Watch) returns (ops: seq<Op>)
    ensures Reaches(w, ops, w)
  {
    ops := [];
  }

  lemma ReachesNext(w: Watch, ops: seq<Op>, t: Watch, op: Op)
    requires Reaches(w, ops, t) && Disciplined(t.at, op)
    ensures Reaches(w, ops + [op], Observe(t, op))
  {
    assert (ops + [op])[..|ops|] == ops;
  }

  /** The wait that a failure has scheduled allows the next attempt when it is over. */
  lemma WaitOut(w: Watch, ops: seq<Op>, t: Watch, wait: nat) returns (more: seq<Op>)
    requires Reaches(w, ops, t) && Awaits(t.at, wait)
    ensures Reaches(w, more, t.(at := Allowed(t.at, wait)))
  {
    ReachesNext(w, ops, t, Elapse(wait));
    more := ops + [Elapse(wait)];
    ReachesNext(w, more, Observe(t, Elapse(wait)), AttemptTimerOp);
    more := more + [AttemptTimerOp];
  }

  lemma SpacedIsNeverEarly(w: Watch, n: nat, first: int)
    requires Spaced(w, n, first) && n > 0
    ensures NeverEarly(w, n, first)
  {
    forall ops | DisciplinedRun(w, ops) && OneNoteEach(w, WatchRun(w, ops)) && w.notes <= WatchRun(w, ops).notes
      ensures OnTime(w, WatchRun(w, ops), n, first)
    {
      StaysSpaced(w, ops, n, first);
    }
  }

  lemma ShortWaitIsEarly(w: Watch, n: nat, first: int)
    requires Awaits(w.at, DelayAfter(Failures(w.at)))
    requires w.at.now + DelayAfter(Failures(w.at)) < first + Floor(n)
    ensures !NeverEarly(w, n, first)
  {
    var wait := DelayAfter(Failures(w.at));
    var none := ReachesStart(w);
    var ops := WaitOut(w, none, w, wait);
    var t := WatchRun(w, ops);
    assert t.notes == w.notes && n + (t.notes - w.notes) == n;
    assert !OnTime(w, t, n, first);
  }

  function FirstNoted(w: Watch, n: nat, first: int): int {
    if n == 0 then w.at.now else first
  }

  /** Noting a failure now, as number `n + 1`, cannot lead to an attempt before its bound. */
  ghost predicate NoteIsSafe(w: Watch, n: nat, first: int) {
    NeverEarly(Observe(w, FailureOp), n + 1, FirstNoted(w, n, first))
  }

  /** The wait that the note schedules reaches the bound. */
  predicate WaitReaches(w: Watch, n: nat, first: int) {
    w.at.now + DelayAfter(Failures(Failure(w.at))) >= FirstNoted(w, n, first) + Floor(n + 1)
  }

  /**
   Counting notes of failure instead of failed attempts, the bound survives a further note exactly if
   the wait it schedules reaches the bound; a note that ends an attempt always does, and with the
   counter in step any other exactly if the wait before it is over.
   */
  lemma NoteKeepsSpacingExactly(w: Watch, n: nat, first: int)
    requires Spaced(w, n, first) && w.at.visible
    ensures NoteIsSafe(w, n, first) <==> WaitReaches(w, n, first)
    ensures EndsAttempt(w, FailureOp) ==> NoteIsSafe(w, n, first)
    ensures Failures(w.at) == n < 5 ==>
              (NoteIsSafe(w, n, first) <==> w.at.now >= FirstNoted(w, n, first) + Floor(n))
  {
    NoteWaits(w, n, first);
    if WaitReaches(w, n, first) {
      LongNoteIsSafe(w, n, first);
    } else {
      ShortNoteIsNot(w, n, first);
    }
  }

  lemma LongNoteIsSafe(w: Watch, n: nat, first: int)
    requires Spaced(w, n, first) && WaitReaches(w, n, first)
    ensures NoteIsSafe(w, n, first)
  {
    NoteWaits(w, n, first);
    SpacedIsNeverEarly(Observe(w, FailureOp), n + 1, FirstNoted(w, n, first));
  }

  lemma ShortNoteIsNot(w: Watch, n: nat, first: int)
    requires Spaced(w, n, first) && w.at.visible && !WaitReaches(w, n, first)
    ensures !NoteIsSafe(w, n, first)
  {
    NoteWaits(w, n, first);
    ShortWaitIsEarly(Observe(w, FailureOp), n + 1, FirstNoted(w, n, first));
  }

  lemma NoteSchedules(s: State)
    requires Valid(s)
    ensures var t := Failure(s);
            && Valid(t) && !t.mode.Idle? && !t.armed && t.now == s.now && t.visible == s.visible
            && t.attemptDue == Some(t.now + DelayAfter(Failures(t)))
            && Failures(t) == (if Failures(s) < 5 then Failures(s) + 1 else 5)
  {
    FailureCounts(s);
  }

  lemma NoteWaits(w: Watch, n: nat, first: int)
    requires Spaced(w, n, first)
    ensures var t := Observe(w, FailureOp);
            && t.at.now == w.at.now && (w.at.visible ==> Awaits(t.at, DelayAfter(Failures(t.at))))
            && (WaitReaches(w, n, first) ==> Spaced(t, n + 1, FirstNoted(w, n, first)))
    ensures EndsAttempt(w, FailureOp) ==> WaitReaches(w, n, first)
    ensures Failures(w.at) == n < 5 ==> (WaitReaches(w, n, first) <==> w.at.now >= FirstNoted(w, n, first) + Floor(n))
  {
    NoteSchedules(w.at);
    DelayGrows(n + 1, Failures(Failure(w.at)));
  }

  /** The same for any run in which so far every note has ended an attempt. */
  lemma NextNoteExactly(s: State, ops: seq<Op>)
    requires Valid(s) && DisciplinedRun(Watched(s), ops)
    requires var w := WatchRun(Watched(s), ops); w.failed == w.notes && w.at.visible
    ensures var w := WatchRun(Watched(s), ops); NoteIsSafe(w, w.notes, w.first) <==> WaitReaches(w, w.notes, w.first)
  {
    RunIsSpaced(s, ops);
    var w := WatchRun(Watched(s), ops);
    NoteKeepsSpacingExactly(w, w.notes, w.first);
  }

  /** An attempt that is allowed is made, and its failure noted twice. */
  function AfterTwoNotes(t: Watch): Watch {
    Observe(Observe(Observe(t, StartOp), FailureOp), FailureOp)
  }

  lemma NotedTwice(w: Watch, ops: seq<Op>, t: Watch) returns (more: seq<Op>)
    requires Reaches(w, ops, t)
    ensures Reaches(w, more, AfterTwoNotes(t))
  {
    ReachesNext(w, ops, t, StartOp);
    more := ops + [StartOp];
    ReachesNext(w, more, Observe(t, StartOp), FailureOp);
    more := more + [FailureOp];
    ReachesNext(w, more, Observe(Observe(t, StartOp), FailureOp), FailureOp);
    more := more + [FailureOp];
  }

  lemma FourNotes(w: Watch, t: Watch, u: Watch, a: nat, b: nat, c: nat) returns (ops: seq<Op>)
    requires Awaits(w.at, a) && t == AfterTwoNotes(w.(at := Allowed(w.at, a)))
    requires Awaits(t.at, b) && u == AfterTwoNotes(t.(at := Allowed(t.at, b))) && Awaits(u.at, c)
    ensures Reaches(w, ops, u.(at := Allowed(u.at, c)))
  {
    ops := ReachesStart(w);
    ops := WaitOut(w, ops, w, a);
    ops := NotedTwice(w, ops, w.(at := Allowed(w.at, a)));
    ops := WaitOut(w, ops, t, b);
    ops := NotedTwice(w, ops, t.(at := Allowed(t.at, b)));
    ops := WaitOut(w, ops, u, c);
  }

  /** What the two notes make of the scheduler, and of the counts. */
  lemma TwoNotesSeen(t: Watch)
    requires ShouldAttempt(t.at) && !t.at.mode.Idle?
    ensures AfterTwoNotes(t) ==
            Watch(Failure(Failure(AttemptStarted(t.at))), false, t.notes + 2, t.failed + 1,
                  if t.failed == 0 then t.at.now else t.first)
  {
    NoteSchedulesNothingNow(AttemptStarted(t.at));
  }

  lemma NoteSchedulesNothingNow(s: State)
    requires !s.mode.Idle?
    ensures !ShouldAttempt(Failure(s))
  {
  }

  /** The scheduler after the first attempt, and after the second. */
  const AFTER_ONE: State := State(Fast, true, false, 2, BACKOFF_MS, Some(1750), Some(2000), 750, false)
  const AFTER_TWO: State := State(Backoff, true, false, 3, BACKOFF_MS, Some(6750), Some(2000), 1750, false)

  lemma ExampleStates()
    ensures Awaits(Seen(Init()), 750) && Awaits(AFTER_ONE, 1000) && Awaits(AFTER_TWO, 5000)
    ensures Failure(Failure(AttemptStarted(Allowed(Seen(Init()), 750)))) == AFTER_ONE
    ensures Failure(Failure(AttemptStarted(Allowed(AFTER_ONE, 1000)))) == AFTER_TWO
  {
  }

  /**
   From the first sight of the peer, two attempts whose failures are each noted twice: the attempt
   after the fourth note is allowed 6000 ms after the first failure, where four failed attempts would
   keep it to 8500.
   */
  lemma DoubleNotesComeEarly(w: Watch) returns (ops: seq<Op>)
    requires w == Watched(Seen(Init()))
    ensures DisciplinedRun(w, ops)
    ensures var t := WatchRun(w, ops);
            t.notes == 4 && t.failed == 2 && ShouldAttempt(t.at) && t.at.now - t.first == 6000 < Floor(4)
  {
    FloorClosedForm(4);
    ExampleStates();
    TwoNotesSeen(w.(at := Allowed(w.at, 750)));
    var t := AfterTwoNotes(w.(at := Allowed(w.at, 750)));
    TwoNotesSeen(t.(at := Allowed(t.at, 1000)));
    var u := AfterTwoNotes(t.(at := Allowed(t.at, 1000)));
    ops := FourNotes(w, t, u, 750, 1000, 5000);
  }

  // ---------- The code ----------

  /** The scheduler's variables; the two delayable work items are their due times. */
  class Scheduler {
    var mode: Mode
    var peerVisible: bool
    var attemptArmed: bool
    var fastAttemptIndex: nat
    var backoffDelayMs: int
    var attemptWork: Option<int>
    var visibilityWork: Option<int>
    var uptime: int
    ghost var outstanding: bool

    ghost function View(): State
      reads this
    {
      State(mode, peerVisible, attemptArmed, fastAttemptIndex, backoffDelayMs, attemptWork, visibilityWork,
            uptime, outstanding)
    }

    constructor ()
      ensures View() == Init()
    {
      mode, peerVisible, attemptArmed, fastAttemptIndex, backoffDelayMs := Idle, false, false, 0, BACKOFF_MS;
      attemptWork, visibilityWork, uptime := None, None, 0;
      outstanding := false;
    }

    method ScheduleAttemptIn(delay: int)
      modifies this
      ensures View() == Schedule(old(View()), delay)
    {
      if delay <= 0 {
        attemptWork := None;
        attemptArmed := true;
        return;
      }
      attemptArmed := false;
      attemptWork := Some(uptime + delay);
    }

    method EnterFastMode()
      modifies this
      ensures View() == EnterFast(old(View()))
    {
      if mode.Fast? {
        return;
      }
      mode := Fast;
      fastAttemptIndex := 0;
      backoffDelayMs := BACKOFF_MS;
      ScheduleAttemptIn(0);
    }

    method EnterBackoffMode()
      modifies this
      ensures View() == EnterBackoff(old(View()))
    {
      mode := Backoff;
      if backoffDelayMs <= 0 {
        backoffDelayMs := BACKOFF_MS;
      }
      ScheduleAttemptIn(backoffDelayMs);
    }

    method ResetFastReconnect()
      modifies this
      ensures View() == ResetFast(old(View()))
    {
      mode := Fast;
      fastAttemptIndex := 0;
      backoffDelayMs := BACKOFF_MS;
      peerVisible := false;
      ScheduleAttemptIn(0);
    }

    method NoteKnownPeerSeen()
      modifies this
      ensures View() == Seen(old(View()))
    {
      var wasVisible := peerVisible;
      peerVisible := true;
      visibilityWork := Some(uptime + VISIBILITY_MS);
      if !wasVisible {
        mode := Fast;
        fastAttemptIndex := 0;
        backoffDelayMs := BACKOFF_MS;
        ScheduleAttemptIn(SETTLE_MS);
      }
    }

    method NoteAttemptStarted()
      modifies this
      ensures View() == AttemptStarted(old(View()))
    {
      attemptArmed := false;
      attemptWork := None;
      outstanding := true;
    }

    method NoteFailure()
      modifies this
      ensures View() == Failure(old(View()))
    {
      outstanding := false;
      if mode.Idle? {
        mode := Fast;
      }
      if mode.Fast? {
        if fastAttemptIndex + 1 < FAST_ATTEMPT_COUNT {
          fastAttemptIndex := fastAttemptIndex + 1;
          ScheduleAttemptIn(FAST_DELAY_MS[fastAttemptIndex]);
          return;
        }
        mode := Backoff;
        backoffDelayMs := BACKOFF_MS;
        ScheduleAttemptIn(backoffDelayMs);
        return;
      }
      if backoffDelayMs <= 0 {
        backoffDelayMs := BACKOFF_MS;
      } else if backoffDelayMs < BACKOFF_CAP_MS {
        backoffDelayMs := BACKOFF_CAP_MS;
      }
      ScheduleAttemptIn(backoffDelayMs);
    }

    method NoteConnected()
      modifies this
      ensures View() == Connected(old(View()))
    {
      mode := Idle;
      peerVisible := true;
      attemptArmed := false;
      fastAttemptIndex := 0;
      backoffDelayMs := BACKOFF_MS;
      attemptWork := None;
      visibilityWork := None;
      outstanding := false;
    }

    /** Answers whether the handler goes on to trigger an attempt in the scanner. */
    method AttemptTimerFired() returns (trigger: bool)
      modifies this
      ensures View() == AttemptTimer(old(View())) && (trigger <==> old(peerVisible))
    {
      attemptWork := None;
      attemptArmed := true;
      trigger := peerVisible;
    }

    method VisibilityTimerFired()
      modifies this
      ensures View() == VisibilityTimer(old(View()))
    {
      visibilityWork := None;
      peerVisible := false;
      attemptArmed := false;
      attemptWork := None;
    }

    method ShouldAttemptNow() returns (now: bool)
      ensures now <==> ShouldAttempt(View())
    {
      if !peerVisible {
        return false;
      }
      if mode.Idle? {
        return true;
      }
      return attemptArmed;
    }

    method IsInBackoffMode() returns (backoff: bool)
      ensures backoff <==> View().mode.Backoff?
    {
      backoff := mode.Backoff?;
    }
  }
}
