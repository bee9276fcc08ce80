/**
 The connection lifecycle of main/src/ble_connection.c, with the part of main/src/hog_client.c that
 holds a reference to the same connection: who owns which reference, and when a run of security
 failures counts as a lost bond.
 */
module Connection {
  import opened Basics
  import opened EventQueue
  import Reconnect

  const CONFIRMATION_COUNT: nat := 2
  const UINT8_MAX: nat := 255

  /** A connection object of the Bluetooth stack, named by its index. */
  type Conn = nat

  datatype SecurityErr =
    | AuthFail | PinOrKeyMissing | OobNotAvailable | AuthRequirement | PairNotSupported
    | PairNotAllowed | InvalidParam | KeyRejected | Unspecified | OtherErr

  /** security_failure_looks_like_bond_mismatch */
  predicate LooksLikeMismatch(hasBond: bool, err: SecurityErr) {
    hasBond && (err.AuthFail? || err.PinOrKeyMissing? || err.Unspecified?)
  }

  /** Where the stack itself stands with the one connection there can be. */
  datatype Link = NoLink | Creating(conn: Conn) | Linked(conn: Conn)

  /** A security outcome as it was reported, with what the runtime said of bonds at the time. */
  datatype Outcome = Secured | Failed(hasBond: bool, err: SecurityErr)

  /** What a security outcome led to. */
  datatype Verdict = Verdict(mismatchPosted: bool, failureNoted: bool)

  datatype Hog = Hog(conn: Option<Conn>, handle: int, discovering: bool)

  /** bt_conn_ref (or the reference bt_conn_le_create hands over) and bt_conn_unref. */
  datatype RefOp = Take(conn: Conn) | Give(conn: Conn)

  /** Who points to a connection; `link` and the log of reference counting are not stored by the code. */
  datatype Refs = Refs(active: Option<Conn>, hog: Hog, link: Link, log: seq<RefOp>)

  /** The security flag and the streak, with the history they stand for. */
  datatype Security = Security(ready: bool, streak: nat, history: seq<Outcome>, verdicts: seq<Verdict>)

  /** What the module has told others: events posted, failures noted with the scheduler, disconnects asked for. */
  datatype Out = Out(posted: seq<Event>, notes: nat, disconnects: nat)

  datatype State = State(refs: Refs, security: Security, activeHandle: int, attemptPending: bool, out: Out)

  const NO_HOG: Hog := Hog(None, 0, false)

  function Init(): State {
    State(Refs(None, NO_HOG, NoLink, []), Security(false, 0, [], []), 0, false, Out([], 0, 0))
  }

  function HandleOf(conn: Conn): int {
    (conn + 1) % 0x10000
  }

  // ---------- References ----------

  function Ref(r: Refs, conn: Conn): Refs {
    r.(log := r.log + [Take(conn)])
  }

  function Unref(r: Refs, conn: Conn): Refs {
    r.(log := r.log + [Give(conn)])
  }

  /** hog_client_reset */
  function HogReset(r: Refs): Refs {
    (if r.hog.conn.Some? then Unref(r, r.hog.conn.value) else r).(hog := NO_HOG)
  }

  /** hog_client_start_discovery, up to the first discovery request. */
  function HogStart(r: Refs, conn: Option<Conn>, handle: int): Refs {
    if conn.None? then r
    else if r.hog.discovering && r.hog.handle == handle then r
    else Ref(HogReset(r), conn.value).(hog := Hog(conn, handle, true))
  }

  function DropActive(r: Refs): Refs {
    if r.active.Some? then Unref(r, r.active.value).(active := None) else r
  }

  // ---------- Security outcomes ----------

  function Record(s: Security, outcome: Outcome, verdict: Verdict): Security {
    s.(history := s.history + [outcome], verdicts := s.verdicts + [verdict])
  }

  function NoteSecured(s: Security): Security {
    Record(s, Secured, Verdict(false, false))
  }

  /** The streak and the verdict of on_security_failure. */
  function NoteFailure(s: Security, hasBond: bool, err: SecurityErr): Security {
    var mismatch := LooksLikeMismatch(hasBond, err);
    var streak := if !mismatch then 0 else if s.streak < UINT8_MAX then s.streak + 1 else s.streak;
    var confirmed := mismatch && streak >= CONFIRMATION_COUNT;
    Record(s.(ready := false, streak := streak), Failed(hasBond, err), Verdict(confirmed, !confirmed))
  }

  // ---------- Callbacks ----------

  /** How the surroundings answer: the event queue (twice, if need be), the bond store, and the stack. */
  datatype Io = Io(
    post: Status, nextPost: Status, hasBond: bool, peerBonded: bool, alreadySecure: bool,
    setSecurityErr: Option<SecurityErr>)

  function Posting(s: State, e: Event): State {
    s.(out := s.out.(posted := s.out.posted + [e]))
  }

  /** on_connect_failure */
  function AttemptFailed(s: State): State {
    Posting(s.(attemptPending := false, out := s.out.(notes := s.out.notes + 1)), ConnectFailure)
  }

  /** on_security_failure */
  function SecurityFailed(s: State, hasBond: bool, err: SecurityErr): State {
    var t := s.(security := NoteFailure(s.security, hasBond, err));
    var verdict := t.security.verdicts[|s.security.verdicts|];
    Posting(t.(out := Out(s.out.posted, s.out.notes + (if verdict.failureNoted then 1 else 0),
                          s.out.disconnects + (if s.refs.active.Some? then 1 else 0))),
            if verdict.mismatchPosted then BondMismatch else ConnectFailure)
  }

  function OnSecurityReady(s: State, handle: int, io: Io): State {
    var quiet := s.(security := NoteSecured(s.security));
    if s.activeHandle == handle && s.security.ready then quiet
    else
      var t := Posting(quiet, SecurityReady);
      t.(security := t.security.(ready := true, streak := 0),
         refs := if io.post != OK then s.refs else HogStart(s.refs, s.refs.active, handle))
  }

  /** request_link_security, reached only with a live connection of this handle. */
  function RequestSecurity(s: State, handle: int, io: Io): State {
    if s.security.ready then s
    else if io.alreadySecure then OnSecurityReady(s, handle, io)
    else if io.setSecurityErr.Some? then SecurityFailed(s, io.hasBond, io.setSecurityErr.value)
    else s
  }

  function OnConnectSuccess(s: State, handle: int, io: Io): State {
    var t := Posting(s.(attemptPending := false, activeHandle := handle, security := s.security.(ready := false)),
                     EventQueue.ConnectSuccess);
    if io.post != OK || t.refs.active.None? then t
    else if io.peerBonded then t.(refs := HogStart(t.refs, t.refs.active, handle))
    else RequestSecurity(t, handle, io.(post := io.nextPost))
  }

  function OnConnected(s: State, conn: Conn, failed: bool, io: Io): State {
    if failed then AttemptFailed(s.(refs := DropActive(s.refs.(link := NoLink))))
    else OnConnectSuccess(s.(refs := s.refs.(link := Linked(conn))), HandleOf(conn), io)
  }

  function OnDisconnected(s: State, conn: Conn): State {
    Posting(State.State(DropActive(HogReset(s.refs)).(link := NoLink), s.security.(ready := false),
                        if s.activeHandle == HandleOf(conn) then 0 else s.activeHandle, false, s.out),
            EventQueue.Disconnected)
  }

  /** connect_timeout_work_handler */
  function OnWatchdog(s: State): State {
    if !s.attemptPending || s.refs.active.None? then s
    else s.(attemptPending := false, out := s.out.(disconnects := s.out.disconnects + 1))
  }

  /** connect_peer; `created` is the connection bt_conn_le_create returns, None when it fails. */
  function ConnectPeer(s: State, created: Option<Conn>): State {
    if s.refs.active.Some? then s
    else if created.None? then AttemptFailed(s)
    else s.(attemptPending := true,
            refs := Ref(s.refs, created.value).(active := created, link := Creating(created.value)))
  }

  datatype Op =
    | ConnectOp(created: Option<Conn>)
    | ConnectedOp(conn: Conn, failed: bool, io: Io)
    | SecuredOp(conn: Conn, io: Io)
    | SecurityFailedOp(conn: Conn, err: SecurityErr, io: Io)
    | DisconnectedOp(conn: Conn)
    | WatchdogOp
    | DiscoveryEndedOp

  /** The order in which the stack makes its callbacks. */
  predicate Legal(s: State, op: Op) {
    match op
    case ConnectedOp(conn, _, _) => s.refs.link == Creating(conn)
    case SecuredOp(conn, _) => s.refs.link == Linked(conn)
    case SecurityFailedOp(conn, _, _) => s.refs.link == Linked(conn)
    case DisconnectedOp(conn) => s.refs.link == Linked(conn)
    case _ => true
  }

  function Step(s: State, op: Op): State {
    match op
    case ConnectOp(created) => ConnectPeer(s, created)
    case ConnectedOp(conn, failed, io) => OnConnected(s, conn, failed, io)
    case SecuredOp(conn, io) => OnSecurityReady(s, HandleOf(conn), io)
    case SecurityFailedOp(conn, err, io) => SecurityFailed(s, io.hasBond, err)
    case DisconnectedOp(conn) => OnDisconnected(s, conn)
    case WatchdogOp => OnWatchdog(s)
    case DiscoveryEndedOp => s.(refs := s.refs.(hog := s.refs.hog.(discovering := false)))
  }

  function Run(ops: seq<Op>): State {
    if ops == [] then Init() else Step(Run(ops[..|ops| - 1]), ops[|ops| - 1])
  }

  ghost predicate LegalRun(ops: seq<Op>) {
    ops == [] || (LegalRun(ops[..|ops| - 1]) && Legal(Run(ops[..|ops| - 1]), ops[|ops| - 1]))
  }

  // ---------- References are conserved ----------

  /** References taken minus references given back. */
  function Balance(log: seq<RefOp>, conn: Conn): int {
    if log == [] then 0
    else
      var last := log[|log| - 1];
      Balance(log[..|log| - 1], conn)
      + (if last.conn != conn then 0 else if last.Take? then 1 else -1)
  }

  /** No reference is given back that is not held. */
  ghost predicate NeverOverReleased(log: seq<RefOp>) {
    log == []
    || (NeverOverReleased(log[..|log| - 1])
        && (log[|log| - 1].Give? ==> Balance(log[..|log| - 1], log[|log| - 1].conn) >= 1))
  }

  function Points(p: Option<Conn>, conn: Conn): int {
    if p == Some(conn) then 1 else 0
  }

  ghost predicate Balanced(log: seq<RefOp>, active: Option<Conn>, hog: Option<Conn>) {
    NeverOverReleased(log) && forall conn :: Balance(log, conn) == Points(active, conn) + Points(hog, conn)
  }

  /** Exactly one reference per non-NULL pointer, both to the connection the stack has. */
  ghost predicate Conserved(r: Refs) {
    && Balanced(r.log, r.active, r.hog.conn)
    && (r.hog.conn.Some? ==> r.hog.conn == r.active && r.link.Linked?)
    && (r.active.None? <==> r.link.NoLink?)
    && (r.active.Some? ==> r.link.conn == r.active.value)
  }

  lemma BalanceAppends(log: seq<RefOp>, op: RefOp, conn: Conn)
    ensures Balance(log + [op], conn) ==
            Balance(log, conn) + (if op.conn != conn then 0 else if op.Take? then 1 else -1)
  {
    assert (log + [op])[..|log|] == log;
  }

  lemma TakeKeepsBalance(log: seq<RefOp>, active: Option<Conn>, hog: Option<Conn>, conn: Conn)
    requires Balanced(log, active, hog)
    ensures active.None? ==> Balanced(log + [Take(conn)], Some(conn), hog)
    ensures hog.None? ==> Balanced(log + [Take(conn)], active, Some(conn))
  {
    assert (log + [Take(conn)])[..|log|] == log;
    forall c ensures Balance(log + [Take(conn)], c) == Balance(log, c) + Points(Some(conn), c) {
      BalanceAppends(log, Take(conn), c);
    }
  }

  lemma GiveKeepsBalance(log: seq<RefOp>, active: Option<Conn>, hog: Option<Conn>, conn: Conn)
    requires Balanced(log, active, hog)
    ensures active == Some(conn) ==> Balanced(log + [Give(conn)], None, hog)
    ensures hog == Some(conn) ==> Balanced(log + [Give(conn)], active, None)
  {
    assert (log + [Give(conn)])[..|log|] == log;
    forall c ensures Balance(log + [Give(conn)], c) == Balance(log, c) - Points(Some(conn), c) {
      BalanceAppends(log, Give(conn), c);
    }
    assert Balance(log, conn) == Points(active, conn) + Points(hog, conn);
  }

  lemma HogResetConserves(r: Refs)
    requires Conserved(r)
    ensures Conserved(HogReset(r))
  {
    if r.hog.conn.Some? {
      GiveKeepsBalance(r.log, r.active, r.hog.conn, r.hog.conn.value);
    }
  }

  lemma HogStartConserves(r: Refs, handle: int)
    requires Conserved(r) && r.link.Linked?
    ensures Conserved(HogStart(r, r.active, handle))
  {
    HogResetConserves(r);
    TakeKeepsBalance(HogReset(r).log, r.active, None, r.active.value);
  }

  lemma DropActiveConserves(r: Refs)
    requires Conserved(r) && r.hog.conn.None?
    ensures Conserved(DropActive(r).(link := NoLink)) && DropActive(r).active.None?
  {
    if r.active.Some? {
      GiveKeepsBalance(r.log, r.active, None, r.active.value);
    }
  }

  /** A disconnect gives back everything. */
  lemma DisconnectReleasesAll(r: Refs)
    requires Conserved(r)
    ensures var t := DropActive(HogReset(r)).(link := NoLink);
            Conserved(t) && t.active.None? && t.hog.conn.None? && forall conn :: Balance(t.log, conn) == 0
  {
    HogResetConserves(r);
    DropActiveConserves(HogReset(r));
  }

  lemma ConnectedConserves(s: State, conn: Conn, failed: bool, io: Io)
    requires Conserved(s.refs) && s.refs.link == Creating(conn)
    ensures Conserved(OnConnected(s, conn, failed, io).refs)
  {
    if failed {
      DropActiveConserves(s.refs);
    } else {
      HogStartConserves(s.refs.(link := Linked(conn)), HandleOf(conn));
    }
  }

  lemma StepConserves(s: State, op: Op)
    requires Conserved(s.refs) && Legal(s, op)
    ensures Conserved(Step(s, op).refs)
  {
    match op
    case ConnectedOp(conn, failed, io) => ConnectedConserves(s, conn, failed, io);
    case SecuredOp(conn, io) => HogStartConserves(s.refs, HandleOf(conn));
    case DisconnectedOp(conn) => DisconnectReleasesAll(s.refs);
    case ConnectOp(created) =>
      if s.refs.active.None? && created.Some? {
        TakeKeepsBalance(s.refs.log, None, s.refs.hog.conn, created.value);
      }
    case _ =>
  }

  /** The stack has dropped the connection, or could not make it. */
  predicate LosesLink(op: Op) {
    op.DisconnectedOp? || (op.ConnectedOp? && op.failed)
  }

  /**
   Over every stack-legal order of callbacks the references held are exactly the non-NULL pointers,
   none is given back twice, the HOG client only ever points to the active connection, and none is held
   after a disconnect or a failed connect.
   */
  lemma {:induction false} ReferencesConserved(ops: seq<Op>)
    requires LegalRun(ops)
    ensures Conserved(Run(ops).refs)
    ensures ops != [] && LosesLink(ops[|ops| - 1]) ==>
              var r := Run(ops).refs; r.active.None? && r.hog.conn.None? && forall conn :: Balance(r.log, conn) == 0
  {
    if ops != [] {
      var s := Run(ops[..|ops| - 1]);
      ReferencesConserved(ops[..|ops| - 1]);
      StepConserves(s, ops[|ops| - 1]);
      if ops[|ops| - 1].DisconnectedOp? {
        DisconnectReleasesAll(s.refs);
      } else if LosesLink(ops[|ops| - 1]) {
        DropActiveConserves(s.refs);
      }
    }
  }

  // ---------- The mismatch streak ----------

  /** A failure with a bond at hand whose error is one of the three that a lost bond causes. */
  predicate BondSuspect(o: Outcome) {
    o.Failed? && o.hasBond && o.err in {AuthFail, PinOrKeyMissing, Unspecified}
  }

  function Trailing(history: seq<Outcome>): nat {
    if history == [] || !BondSuspect(history[|history| - 1]) then 0
    else 1 + Trailing(history[..|history| - 1])
  }

  ghost predicate TwoInARow(history: seq<Outcome>, i: int) {
    1 <= i < |history| && BondSuspect(history[i]) && BondSuspect(history[i - 1])
  }

  ghost predicate StreakInv(s: Security) {
    && s.streak == (if Trailing(s.history) < 255 then Trailing(s.history) else 255)
    && (s.ready ==> s.streak == 0)
    && |s.verdicts| == |s.history|
    && forall i :: 0 <= i < |s.history| ==>
         && (s.verdicts[i].mismatchPosted <==> TwoInARow(s.history, i))
         && (s.verdicts[i].failureNoted <==> !s.history[i].Secured? && !TwoInARow(s.history, i))
  }

  lemma TrailingAppend(history: seq<Outcome>, outcome: Outcome)
    ensures Trailing(history + [outcome]) == if BondSuspect(outcome) then 1 + Trailing(history) else 0
    ensures Trailing(history) >= 1 <==> history != [] && BondSuspect(history[|history| - 1])
  {
    assert (history + [outcome])[..|history|] == history;
  }

  lemma RecordKeepsStreak(s: Security, outcome: Outcome, verdict: Verdict, streak: nat, ready: bool)
    requires StreakInv(s)
    requires streak == if BondSuspect(outcome) then (if s.streak < UINT8_MAX then s.streak + 1 else s.streak) else 0
    requires ready ==> streak == 0
    requires verdict.mismatchPosted <==> BondSuspect(outcome) && streak >= CONFIRMATION_COUNT
    requires verdict.failureNoted <==> !outcome.Secured? && !verdict.mismatchPosted
    ensures StreakInv(Record(s, outcome, verdict).(streak := streak, ready := ready))
  {
    TrailingAppend(s.history, outcome);
    var n := |s.history|;
    var history := s.history + [outcome];
    assert history[n] == outcome;
    assert forall i :: 0 <= i < n ==> history[i] == s.history[i];
    assert TwoInARow(history, n) <==> BondSuspect(outcome) && Trailing(s.history) >= 1;
    assert forall i :: 0 <= i < n ==> (TwoInARow(history, i) <==> TwoInARow(s.history, i));
  }

  lemma ReadyKeepsStreak(s: Security)
    requires StreakInv(s)
    ensures StreakInv(NoteSecured(s).(ready := true, streak := 0))
    ensures s.ready ==> StreakInv(NoteSecured(s))
  {
    RecordKeepsStreak(s, Secured, Verdict(false, false), 0, true);
    assert s.ready ==> NoteSecured(s) == NoteSecured(s).(ready := true, streak := 0);
  }

  lemma FailureKeepsStreak(s: Security, hasBond: bool, err: SecurityErr)
    requires StreakInv(s)
    ensures StreakInv(NoteFailure(s, hasBond, err))
  {
    var t := NoteFailure(s, hasBond, err);
    var n := |s.history|;
    RecordKeepsStreak(s, t.history[n], t.verdicts[n], t.streak, false);
  }

  lemma ConnectSuccessKeepsStreak(s: State, handle: int, io: Io)
    requires StreakInv(s.security)
    ensures StreakInv(OnConnectSuccess(s, handle, io).security)
  {
    var t := s.security.(ready := false);
    ReadyKeepsStreak(t);
    if io.setSecurityErr.Some? {
      FailureKeepsStreak(t, io.hasBond, io.setSecurityErr.value);
    }
  }

  lemma StepKeepsStreak(s: State, op: Op)
    requires StreakInv(s.security)
    ensures StreakInv(Step(s, op).security)
  {
    match op
    case ConnectedOp(conn, failed, io) =>
      if !failed {
        ConnectSuccessKeepsStreak(s.(refs := s.refs.(link := Linked(conn))), HandleOf(conn), io);
      }
    case SecuredOp(conn, io) => ReadyKeepsStreak(s.security);
    case SecurityFailedOp(conn, err, io) => FailureKeepsStreak(s.security, io.hasBond, err);
    case _ =>
  }

  /**
   The streak counts the trailing mismatches of the security history up to 255, a secured link has
   none, and BOND_MISMATCH is posted for exactly those outcomes that make two mismatches in a row;
   every other failure is reported to the reconnect scheduler instead.
   */
  lemma {:induction false} MismatchNeedsTwoInARow(ops: seq<Op>)
    ensures StreakInv(Run(ops).security)
  {
    if ops != [] {
      MismatchNeedsTwoInARow(ops[..|ops| - 1]);
      StepKeepsStreak(Run(ops[..|ops| - 1]), ops[|ops| - 1]);
    }
  }

  /** The security outcome a callback brings, if any: the stack's own, or that of the request made at once. */
  function OutcomeOf(s: State, op: Op): Option<Outcome> {
    match op
    case SecuredOp(_, _) => Some(Secured)
    case SecurityFailedOp(_, err, io) => Some(Failed(io.hasBond, err))
    case ConnectedOp(_, failed, io) =>
      if failed || io.post != OK || s.refs.active.None? || io.peerBonded then None
      else if io.alreadySecure then Some(Secured)
      else if io.setSecurityErr.Some? then Some(Failed(io.hasBond, io.setSecurityErr.value))
      else None
    case _ => None
  }

  predicate Posts(before: State, after: State, e: Event) {
    |after.out.posted| > |before.out.posted| && after.out.posted[|after.out.posted| - 1] == e
  }

  /** The history is what the callbacks brought, and nothing else posts BOND_MISMATCH. */
  lemma StepRecords(s: State, op: Op)
    ensures var t := Step(s, op);
            && t.security.history == s.security.history + (match OutcomeOf(s, op) case Some(o) => [o] case None => [])
            && (Posts(s, t, BondMismatch) ==> OutcomeOf(s, op).Some?)
            && (OutcomeOf(s, op).Some? ==>
                  |t.security.verdicts| == |s.security.verdicts| + 1
                  && (Posts(s, t, BondMismatch) <==> t.security.verdicts[|s.security.verdicts|].mismatchPosted))
  {
    assert s.security.history + [] == s.security.history;
  }

  /**
   After any run, a callback posts BOND_MISMATCH exactly if it brings a security failure with a bond at
   hand and one of three errors - authentication failed, PIN or key missing, unspecified - and the
   security outcome before it was such a failure too.
   */
  lemma BondMismatchExactly(ops: seq<Op>, op: Op)
    ensures var s := Run(ops);
            var o, history := OutcomeOf(s, op), s.security.history;
            Posts(s, Step(s, op), BondMismatch) <==>
              && o.Some? && o.value.Failed? && o.value.hasBond
              && (o.value.err.AuthFail? || o.value.err.PinOrKeyMissing? || o.value.err.Unspecified?)
              && history != []
              && var p := history[|history| - 1];
                 p.Failed? && p.hasBond && (p.err.AuthFail? || p.err.PinOrKeyMissing? || p.err.Unspecified?)
  {
    var s := Run(ops);
    MismatchNeedsTwoInARow(ops);
    StepKeepsStreak(s, op);
    StepRecords(s, op);
    if OutcomeOf(s, op).Some? {
      var n := |s.security.history|;
      var t := Step(s, op);
      assert t.security.history[n] == OutcomeOf(s, op).value;
      assert TwoInARow(t.security.history, n) <==>
             n > 0 && BondSuspect(t.security.history[n]) && BondSuspect(s.security.history[n - 1]);
    }
  }

  /** What a security outcome posts: the link is ready, or why it failed. */
  function PostedFor(before: seq<Outcome>, o: Outcome): Event {
    if o.Secured? then SecurityReady
    else if BondSuspect(o) && before != [] && BondSuspect(before[|before| - 1]) then BondMismatch
    else ConnectFailure
  }

  /** What a callback posts, by its kind and outcome alone; a link that is secure already stays silent. */
  function PostedBy(s: State, op: Op): seq<Event> {
    var o, history := OutcomeOf(s, op), s.security.history;
    match op
    case ConnectOp(created) => if s.refs.link.NoLink? && created.None? then [ConnectFailure] else []
    case ConnectedOp(_, failed, _) =>
      if failed then [ConnectFailure]
      else [EventQueue.ConnectSuccess] + (if o.Some? then [PostedFor(history, o.value)] else [])
    case SecuredOp(_, _) => if s.security.ready then [] else [SecurityReady]
    case SecurityFailedOp(_, _, _) => [PostedFor(history, o.value)]
    case DisconnectedOp(_) => [EventQueue.Disconnected]
    case WatchdogOp => []
    case DiscoveryEndedOp => []
  }

  /** After any stack-legal run a callback posts just that, in that order. */
  lemma PostsExactly(ops: seq<Op>, op: Op)
    requires LegalRun(ops) && Legal(Run(ops), op)
    ensures Step(Run(ops), op).out.posted == Run(ops).out.posted + PostedBy(Run(ops), op)
  {
    HandlesStayMatched(ops);
    MismatchNeedsTwoInARow(ops);
    StepPosts(Run(ops), op);
  }

  lemma ConfirmedExactly(s: Security, hasBond: bool, err: SecurityErr)
    requires StreakInv(s)
    ensures NoteFailure(s, hasBond, err).verdicts[|s.verdicts|].mismatchPosted <==>
              PostedFor(s.history, Failed(hasBond, err)).BondMismatch?
  {
  }

  lemma SecurityFailedPosts(s: State, hasBond: bool, err: SecurityErr)
    requires StreakInv(s.security)
    ensures SecurityFailed(s, hasBond, err).out.posted ==
            s.out.posted + [PostedFor(s.security.history, Failed(hasBond, err))]
  {
    ConfirmedExactly(s.security, hasBond, err);
  }

  lemma ConnectSuccessPosts(s: State, conn: Conn, io: Io)
    requires StreakInv(s.security) && s.refs.link == Linked(conn) && s.refs.active.Some?
    ensures var o := OutcomeOf(s, ConnectedOp(conn, false, io));
            OnConnectSuccess(s, HandleOf(conn), io).out.posted ==
              s.out.posted + [EventQueue.ConnectSuccess]
              + (if o.Some? then [PostedFor(s.security.history, o.value)] else [])
  {
    var quiet := s.(attemptPending := false, activeHandle := HandleOf(conn), security := s.security.(ready := false));
    var t := Posting(quiet, EventQueue.ConnectSuccess);
    assert t.out.posted + [] == t.out.posted;
    if io.setSecurityErr.Some? {
      SecurityFailedPosts(t, io.hasBond, io.setSecurityErr.value);
    }
  }

  lemma StepPosts(s: State, op: Op)
    requires Conserved(s.refs) && HandlesMatch(s) && StreakInv(s.security) && Legal(s, op)
    ensures Step(s, op).out.posted == s.out.posted + PostedBy(s, op)
  {
    assert s.out.posted + [] == s.out.posted;
    match op
    case ConnectedOp(conn, failed, io) =>
      if !failed {
        ConnectSuccessPosts(s.(refs := s.refs.(link := Linked(conn))), conn, io);
        ConcatAssociates(s.out.posted, [EventQueue.ConnectSuccess],
          if OutcomeOf(s, op).Some? then [PostedFor(s.security.history, OutcomeOf(s, op).value)] else []);
      }
    case SecurityFailedOp(_, err, io) => SecurityFailedPosts(s, io.hasBond, err);
    case _ =>
  }

  lemma ConcatAssociates(a: seq<Event>, b: seq<Event>, c: seq<Event>)
    ensures a + (b + c) == a + b + c
  {
  }

  // ---------- Attempts, and disconnects asked for ----------

  /** An attempt is under way: a create succeeded, and no answer, disconnect or watchdog has come since. */
  predicate UnderWay(ops: seq<Op>) {
    if ops == [] then false
    else
      var front := ops[..|ops| - 1];
      match ops[|ops| - 1]
      case ConnectOp(created) => if Run(front).refs.link.NoLink? then created.Some? else UnderWay(front)
      case ConnectedOp(_, _, _) => false
      case DisconnectedOp(_) => false
      case WatchdogOp => false
      case _ => UnderWay(front)
  }

  /** The link is secure: the last word on its security was a success. */
  predicate SecureNow(ops: seq<Op>) {
    if ops == [] then false
    else
      var front, last := ops[..|ops| - 1], ops[|ops| - 1];
      match OutcomeOf(Run(front), last)
      case Some(o) => o.Secured?
      case None => SecureNow(front) && !last.ConnectedOp? && !last.DisconnectedOp?
  }

  /** Only an attempt is watched, only a live link can be secure, and without one no handle is remembered. */
  ghost predicate LinkTells(s: State) {
    && (s.attemptPending ==> s.refs.link.Creating?)
    && (s.security.ready ==> s.refs.link.Linked?)
    && (!s.refs.link.Linked? ==> s.activeHandle == 0)
  }

  lemma StepTells(s: State, op: Op)
    requires LinkTells(s) && Conserved(s.refs) && HandlesMatch(s) && Legal(s, op)
    ensures LinkTells(Step(s, op))
  {
  }

  /** Over every stack-legal run the flags say what the run has come to. */
  lemma {:induction false} FlagsTell(ops: seq<Op>)
    requires LegalRun(ops)
    ensures LinkTells(Run(ops))
    ensures (Run(ops).attemptPending <==> UnderWay(ops)) && (Run(ops).security.ready <==> SecureNow(ops))
  {
    if ops != [] {
      var front, last := ops[..|ops| - 1], ops[|ops| - 1];
      FlagsTell(front);
      HandlesStayMatched(front);
      StepTells(Run(front), last);
      StepWatches(Run(front), last);
      StepSecures(Run(front), last);
    }
  }

  lemma StepWatches(s: State, op: Op)
    requires Conserved(s.refs) && LinkTells(s) && Legal(s, op)
    ensures Step(s, op).attemptPending <==>
              match op
              case ConnectOp(created) => if s.refs.link.NoLink? then created.Some? else s.attemptPending
              case ConnectedOp(_, _, _) => false
              case DisconnectedOp(_) => false
              case WatchdogOp => false
              case _ => s.attemptPending
  {
  }

  lemma StepSecures(s: State, op: Op)
    requires LinkTells(s) && Legal(s, op)
    ensures Step(s, op).security.ready <==>
              match OutcomeOf(s, op)
              case Some(o) => o.Secured?
              case None => s.security.ready && !op.ConnectedOp? && !op.DisconnectedOp?
  {
  }

  /** A disconnect is asked for exactly by a security failure, or by the watchdog of an attempt under way. */
  lemma DisconnectsExactly(ops: seq<Op>, op: Op)
    requires LegalRun(ops) && Legal(Run(ops), op)
    ensures var s := Run(ops);
            var o := OutcomeOf(s, op);
            Step(s, op).out.disconnects ==
              s.out.disconnects + (if (o.Some? && o.value.Failed?) || (op.WatchdogOp? && UnderWay(ops)) then 1 else 0)
  {
    FlagsTell(ops);
    ReferencesConserved(ops);
    StepDisconnects(Run(ops), op);
  }

  lemma StepDisconnects(s: State, op: Op)
    requires Conserved(s.refs) && LinkTells(s) && Legal(s, op)
    ensures var o := OutcomeOf(s, op);
            Step(s, op).out.disconnects ==
              s.out.disconnects
              + (if (o.Some? && o.value.Failed?) || (op.WatchdogOp? && s.attemptPending) then 1 else 0)
  {
  }

  /**
   A new connection starts discovery at once exactly if the event could be posted and the peer is bonded, or
   the link turns out to be secure already and that could be posted too.
   */
  lemma ConnectedStartsExactly(ops: seq<Op>, conn: Conn, io: Io)
    requires LegalRun(ops) && Run(ops).refs.link == Creating(conn)
    ensures var t := Step(Run(ops), ConnectedOp(conn, false, io));
            && t.refs.link == Linked(conn)
            && (t.refs.hog == Hog(Some(conn), HandleOf(conn), true) <==>
                  io.post == OK && (io.peerBonded || (io.alreadySecure && io.nextPost == OK)))
            && (t.refs.hog.discovering ==> t.refs.hog == Hog(Some(conn), HandleOf(conn), true))
  {
    HandlesStayMatched(ops);
  }

  // ---------- Discovery on a live connection ----------

  /** The handles both modules remember are the linked connection's, and discovery runs only for it. */
  ghost predicate HandlesMatch(s: State) {
    && (s.refs.link.Linked? ==> s.activeHandle == HandleOf(s.refs.link.conn))
    && (s.refs.hog.discovering ==> s.refs.hog.conn.Some?)
    && (s.refs.hog.conn.Some? && s.refs.link.Linked? ==> s.refs.hog.handle == HandleOf(s.refs.link.conn))
  }

  lemma StepMatches(s: State, op: Op)
    requires HandlesMatch(s) && Conserved(s.refs) && Legal(s, op)
    ensures HandlesMatch(Step(s, op))
  {
  }

  lemma {:induction false} HandlesStayMatched(ops: seq<Op>)
    requires LegalRun(ops)
    ensures HandlesMatch(Run(ops)) && Conserved(Run(ops).refs)
  {
    ReferencesConserved(ops);
    if ops != [] {
      HandlesStayMatched(ops[..|ops| - 1]);
      StepMatches(Run(ops[..|ops| - 1]), ops[|ops| - 1]);
    }
  }

  /**
   A security success on a live connection starts discovery, over again if need be, exactly if the link
   was not secure yet, the event could be posted and no discovery is running.
   */
  lemma SecuredStartsExactly(ops: seq<Op>, conn: Conn, io: Io)
    requires LegalRun(ops) && Run(ops).refs.link == Linked(conn)
    ensures var s := Run(ops);
            var t := Step(s, SecuredOp(conn, io));
            && (t.refs.log != s.refs.log <==> !s.security.ready && io.post == OK && !s.refs.hog.discovering)
            && (t.refs.log != s.refs.log ==> t.refs.hog == Hog(Some(conn), HandleOf(conn), true))
  {
    HandlesStayMatched(ops);
    var s := Run(ops);
    assert HogReset(s.refs).log + [Take(conn)] != s.refs.log;
  }

  /** A bonded peer's first discovery has ended when the link becomes secure: it is started again. */
  lemma BondedRestarts(io: Io)
    requires io.post == OK && io.peerBonded
    ensures var ops := [ConnectOp(Some(1)), ConnectedOp(1, false, io), DiscoveryEndedOp, SecuredOp(1, io)];
            LegalRun(ops) && Run(ops).refs.log == [Take(1), Take(1), Give(1), Take(1)]
  {
    RunExtends([], ConnectOp(Some(1)));
    RunExtends([] + [ConnectOp(Some(1))], ConnectedOp(1, false, io));
    RunExtends([] + [ConnectOp(Some(1))] + [ConnectedOp(1, false, io)], DiscoveryEndedOp);
    RunExtends([] + [ConnectOp(Some(1))] + [ConnectedOp(1, false, io)] + [DiscoveryEndedOp], SecuredOp(1, io));
    assert [] + [ConnectOp(Some(1))] + [ConnectedOp(1, false, io)] + [DiscoveryEndedOp] + [SecuredOp(1, io)]
        == [ConnectOp(Some(1)), ConnectedOp(1, false, io), DiscoveryEndedOp, SecuredOp(1, io)];
  }

  lemma RunExtends(ops: seq<Op>, op: Op)
    ensures Run(ops + [op]) == Step(Run(ops), op)
    ensures LegalRun(ops + [op]) <==> LegalRun(ops) && Legal(Run(ops), op)
  {
    assert (ops + [op])[..|ops|] == ops;
  }

  /** A security failure is noted with the scheduler unless it is the second mismatch in a row. */
  lemma SecurityFailureNotesExactly(s: State, hasBond: bool, err: SecurityErr)
    requires StreakInv(s.security)
    ensures var t := SecurityFailed(s, hasBond, err);
            t.out.notes == s.out.notes + (if BondSuspect(Failed(hasBond, err)) && s.security.streak >= 1 then 0 else 1)
  {
  }

  // ---------- What is told to others ----------

  function Count(posted: seq<Event>, e: Event): nat {
    if posted == [] then 0
    else Count(posted[..|posted| - 1], e) + (if posted[|posted| - 1] == e then 1 else 0)
  }

  function Mismatches(verdicts: seq<Verdict>): nat {
    if verdicts == [] then 0
    else Mismatches(verdicts[..|verdicts| - 1]) + (if verdicts[|verdicts| - 1].mismatchPosted then 1 else 0)
  }

  lemma CountAppends(posted: seq<Event>, e: Event, x: Event)
    ensures Count(posted + [x], e) == Count(posted, e) + (if x == e then 1 else 0)
  {
    assert (posted + [x])[..|posted|] == posted;
  }

  /** One note per CONNECT_FAILURE, and one BOND_MISMATCH per verdict that says so. */
  ghost predicate Told(s: State) {
    && s.out.notes == Count(s.out.posted, ConnectFailure)
    && Mismatches(s.security.verdicts) == Count(s.out.posted, BondMismatch)
  }

  lemma PostingTold(s: State, e: Event)
    requires Told(s) && !e.ConnectFailure? && !e.BondMismatch?
    ensures Told(Posting(s, e))
  {
    CountAppends(s.out.posted, ConnectFailure, e);
    CountAppends(s.out.posted, BondMismatch, e);
  }

  lemma AttemptFailedTold(s: State)
    requires Told(s)
    ensures Told(AttemptFailed(s))
  {
    CountAppends(s.out.posted, ConnectFailure, ConnectFailure);
    CountAppends(s.out.posted, BondMismatch, ConnectFailure);
  }

  lemma SecurityFailedTold(s: State, hasBond: bool, err: SecurityErr)
    requires Told(s)
    ensures Told(SecurityFailed(s, hasBond, err))
  {
    var t := SecurityFailed(s, hasBond, err);
    assert t.security.verdicts[..|t.security.verdicts| - 1] == s.security.verdicts;
    var e := t.out.posted[|s.out.posted|];
    CountAppends(s.out.posted, ConnectFailure, e);
    CountAppends(s.out.posted, BondMismatch, e);
  }

  lemma SecurityReadyTold(s: State, handle: int, io: Io)
    requires Told(s)
    ensures Told(OnSecurityReady(s, handle, io))
  {
    var quiet := s.(security := NoteSecured(s.security));
    assert quiet.security.verdicts[..|quiet.security.verdicts| - 1] == s.security.verdicts;
    PostingTold(quiet, SecurityReady);
  }

  lemma ConnectSuccessTold(s: State, handle: int, io: Io)
    requires Told(s)
    ensures Told(OnConnectSuccess(s, handle, io))
  {
    var t := s.(attemptPending := false, activeHandle := handle, security := s.security.(ready := false));
    PostingTold(t, EventQueue.ConnectSuccess);
    t := Posting(t, EventQueue.ConnectSuccess);
    SecurityReadyTold(t, handle, io.(post := io.nextPost));
    if io.setSecurityErr.Some? {
      SecurityFailedTold(t, io.hasBond, io.setSecurityErr.value);
    }
  }

  lemma StepTold(s: State, op: Op)
    requires Told(s)
    ensures Told(Step(s, op))
  {
    match op
    case ConnectOp(created) => AttemptFailedTold(s);
    case ConnectedOp(conn, failed, io) =>
      if failed {
        AttemptFailedTold(s.(refs := DropActive(s.refs.(link := NoLink))));
      } else {
        ConnectSuccessTold(s.(refs := s.refs.(link := Linked(conn))), HandleOf(conn), io);
      }
    case SecuredOp(conn, io) => SecurityReadyTold(s, HandleOf(conn), io);
    case SecurityFailedOp(conn, err, io) => SecurityFailedTold(s, io.hasBond, err);
    case DisconnectedOp(conn) => DisconnectedTold(s, conn);
    case WatchdogOp =>
    case DiscoveryEndedOp =>
  }

  lemma DisconnectedTold(s: State, conn: Conn)
    requires Told(s)
    ensures Told(OnDisconnected(s, conn))
  {
    PostingTold(s, EventQueue.Disconnected);
  }

  /**
   Over every run the scheduler is told of exactly one failure per CONNECT_FAILURE the module posts,
   and BOND_MISMATCH is posted exactly once per confirmed mismatch.
   */
  lemma {:induction false} OneNotePerConnectFailure(ops: seq<Op>)
    ensures Told(Run(ops))
  {
    if ops != [] {
      OneNotePerConnectFailure(ops[..|ops| - 1]);
      StepTold(Run(ops[..|ops| - 1]), ops[|ops| - 1]);
    }
  }

  // ---------- The code ----------

  class Connections {
    var activeConnHandle: int
    var activeConn: Option<Conn>
    var securityReady: bool
    var bondMismatchStreak: nat
    var connectAttemptPending: bool
    var hogConn: Option<Conn>
    var hogConnHandle: int
    var hogDiscoveryActive: bool
    const scheduler: Reconnect.Scheduler
    ghost var link: Link
    ghost var log: seq<RefOp>
    ghost var history: seq<Outcome>
    ghost var verdicts: seq<Verdict>
    ghost var out: Out

    ghost function RefsView(): Refs
      reads this
    {
      Refs(activeConn, Hog(hogConn, hogConnHandle, hogDiscoveryActive), link, log)
    }

    ghost function SecurityView(): Security
      reads this
    {
      Security(securityReady, bondMismatchStreak, history, verdicts)
    }

    ghost function View(): State
      reads this
    {
      State.State(RefsView(), SecurityView(), activeConnHandle, connectAttemptPending, out)
    }

    constructor (scheduler: Reconnect.Scheduler)
      ensures View() == Init() && this.scheduler == scheduler
    {
      this.scheduler := scheduler;
      activeConnHandle, activeConn, connectAttemptPending := 0, None, false;
      securityReady, bondMismatchStreak := false, 0;
      hogConn, hogConnHandle, hogDiscoveryActive := None, 0, false;
      link, log, history, verdicts, out := NoLink, [], [], [], Out([], 0, 0);
    }

    ghost method LogOutcome(outcome: Outcome, verdict: Verdict)
      modifies `history, `verdicts
      ensures SecurityView() == Record(old(SecurityView()), outcome, verdict)
    {
      history, verdicts := history + [outcome], verdicts + [verdict];
    }

    ghost method LogPost(e: Event)
      modifies `out
      ensures View() == Posting(old(View()), e)
    {
      out := out.(posted := out.posted + [e]);
    }

    /** The scheduler was told of `after - before` failures, of which there is at most one. */
    ghost predicate Charged(r: Reconnect.State, before: nat)
      reads this, scheduler
    {
      if out.notes == before then scheduler.View() == r
      else out.notes == before + 1 && scheduler.View() == Reconnect.Failure(r)
    }

    /** on_connect_failure */
    method ConnectFailed(post: Status) returns (status: Status)
      modifies this, scheduler
      ensures View() == AttemptFailed(old(View())) && status == post
      ensures scheduler.View() == Reconnect.Failure(old(scheduler.View()))
    {
      connectAttemptPending := false;
      scheduler.NoteFailure();
      out := out.(notes := out.notes + 1);
      LogPost(ConnectFailure);
      status := post;
    }

    method DropActiveConn()
      modifies `activeConn, `log
      ensures RefsView() == DropActive(old(RefsView()))
    {
      if activeConn.Some? {
        log := log + [Give(activeConn.value)];
        activeConn := None;
      }
    }

    method ResetHog()
      modifies `hogConn, `hogConnHandle, `hogDiscoveryActive, `log
      ensures RefsView() == HogReset(old(RefsView()))
    {
      if hogConn.Some? {
        log := log + [Give(hogConn.value)];
      }
      hogConn, hogConnHandle, hogDiscoveryActive := None, 0, false;
    }

    method StartDiscovery(conn: Option<Conn>, handle: int) returns (status: Status)
      modifies `hogConn, `hogConnHandle, `hogDiscoveryActive, `log
      ensures RefsView() == HogStart(old(RefsView()), conn, handle)
      ensures status == if conn.None? then INVALID_ARGUMENT else OK
    {
      if conn.None? {
        return INVALID_ARGUMENT;
      }
      if hogDiscoveryActive && hogConnHandle == handle {
        return OK;
      }
      ResetHog();
      log := log + [Take(conn.value)];
      hogConn, hogConnHandle, hogDiscoveryActive := conn, handle, true;
      return OK;
    }

    method SecurityReady(handle: int, io: Io)
      modifies this
      ensures View() == OnSecurityReady(old(View()), handle, io)
    {
      LogOutcome(Secured, Verdict(false, false));
      if activeConnHandle == handle && securityReady {
        return;
      }
      securityReady := true;
      bondMismatchStreak := 0;
      LogPost(EventQueue.SecurityReady);
      if io.post != OK {
        return;
      }
      var _ := StartDiscovery(activeConn, handle);
    }

    /** The streak of on_security_failure. */
    method JudgeFailure(err: SecurityErr, hasBond: bool) returns (confirmed: bool, noteFailure: bool)
      modifies `securityReady, `bondMismatchStreak, `history, `verdicts
      ensures SecurityView() == NoteFailure(old(SecurityView()), hasBond, err)
      ensures verdicts[|old(verdicts)|] == Verdict(confirmed, noteFailure)
    {
      var mismatch := LooksLikeMismatch(hasBond, err);
      confirmed := false;
      securityReady := false;
      if mismatch {
        if bondMismatchStreak < UINT8_MAX {
          bondMismatchStreak := bondMismatchStreak + 1;
        }
        confirmed := bondMismatchStreak >= CONFIRMATION_COUNT;
      } else {
        bondMismatchStreak := 0;
      }
      noteFailure := !mismatch || !confirmed;
      LogOutcome(Failed(hasBond, err), Verdict(confirmed, noteFailure));
    }

    /** on_security_failure; answers the status of its post. */
    method SecurityFailure(err: SecurityErr, hasBond: bool, post: Status) returns (status: Status)
      modifies this, scheduler
      ensures View() == SecurityFailed(old(View()), hasBond, err) && status == post
      ensures Charged(old(scheduler.View()), old(out.notes))
    {
      var confirmed, noteFailure := JudgeFailure(err, hasBond);
      ghost var judged := NoteFailure(old(SecurityView()), hasBond, err);
      assert judged.verdicts[|old(SecurityView()).verdicts|] == Verdict(confirmed, noteFailure);
      if noteFailure {
        scheduler.NoteFailure();
      }
      assert SecurityView() == judged && RefsView() == old(RefsView());
      out := Out(out.posted + [if confirmed then BondMismatch else ConnectFailure],
                 out.notes + (if noteFailure then 1 else 0), out.disconnects + (if activeConn.Some? then 1 else 0));
      status := post;
    }

    method ConnectSuccess(handle: int, io: Io)
      modifies this, scheduler
      ensures View() == OnConnectSuccess(old(View()), handle, io)
      ensures Charged(old(scheduler.View()), old(out.notes))
    {
      connectAttemptPending := false;
      activeConnHandle := handle;
      securityReady := false;
      LogPost(EventQueue.ConnectSuccess);
      if io.post != OK {
        return;
      }
      if activeConn.None? {
        return;
      }
      if io.peerBonded {
        var _ := StartDiscovery(activeConn, handle);
        return;
      }
      if securityReady {
        return;
      }
      if io.alreadySecure {
        SecurityReady(handle, io.(post := io.nextPost));
      } else if io.setSecurityErr.Some? {
        var _ := SecurityFailure(io.setSecurityErr.value, io.hasBond, io.nextPost);
      }
    }

    method Connected(conn: Conn, failed: bool, io: Io)
      modifies this, scheduler
      ensures View() == OnConnected(old(View()), conn, failed, io)
      ensures Charged(old(scheduler.View()), old(out.notes))
    {
      connectAttemptPending := false;
      link := if failed then NoLink else Linked(conn);
      if failed {
        DropActiveConn();
        var _ := ConnectFailed(io.post);
        return;
      }
      ConnectSuccess(HandleOf(conn), io);
    }

    /** The reference part of on_disconnected. */
    method ReleaseReferences()
      modifies `hogConn, `hogConnHandle, `hogDiscoveryActive, `activeConn, `log
      ensures RefsView() == DropActive(HogReset(old(RefsView())))
    {
      ResetHog();
      DropActiveConn();
    }

    method Disconnected(conn: Conn)
      modifies this
      ensures View() == OnDisconnected(old(View()), conn)
    {
      connectAttemptPending := false;
      securityReady := false;
      ReleaseReferences();
      if activeConnHandle == HandleOf(conn) {
        activeConnHandle := 0;
      }
      link := NoLink;
      assert RefsView() == DropActive(HogReset(old(RefsView()))).(link := NoLink);
      assert SecurityView() == old(SecurityView()).(ready := false);
      LogPost(EventQueue.Disconnected);
    }

    /** connect_peer; a create that fails answers with the status of its post. */
    method Connect(created: Option<Conn>, post: Status) returns (status: Status)
      modifies this, scheduler
      ensures View() == ConnectPeer(old(View()), created)
      ensures status == if old(activeConn).Some? then INVALID_STATE else if created.None? then post else OK
      ensures scheduler.View() ==
              if old(activeConn).None? && created.None? then Reconnect.Failure(old(scheduler.View()))
              else old(scheduler.View())
    {
      if activeConn.Some? {
        return INVALID_STATE;
      }
      if created.None? {
        status := ConnectFailed(post);
        return;
      }
      status := OK;
      log := log + [Take(created.value)];
      activeConn := created;
      connectAttemptPending := true;
      link := Creating(created.value);
    }

    /** connect_timeout_work_handler; answers whether it asks the stack to disconnect. */
    method WatchdogExpired() returns (disconnect: bool)
      modifies this
      ensures View() == Step(old(View()), WatchdogOp)
      ensures disconnect <==> old(connectAttemptPending) && old(activeConn).Some?
    {
      if !connectAttemptPending || activeConn.None? {
        return false;
      }
      connectAttemptPending := false;
      out := out.(disconnects := out.disconnects + 1);
      return true;
    }
  }
}
