/**
 One connection attempt across main/src/ble_connection.c and main/src/hog_client.c: the connection and
 the discovery sessions on it, both of which note failures with the one reconnect scheduler.
 */
module Attempt {
  import opened Basics
  import C = Connection
  import D = HogDiscovery
  import F = HogFailure
  import H = HogReadiness
  import Reconnect

  /** `session` is what the present or last session has been through; `past` counts the failures before it. */
  datatype State = State(link: C.State, start: D.Io, session: seq<D.Op>, past: nat, scheduler: Reconnect.State)

  datatype Op = LinkOp(op: C.Op, start: D.Io) | SessionOp(answer: D.Op)

  function Session(s: State): D.State {
    D.Run(s.start, s.session)
  }

  /** The client holds the connection, so its callbacks count. */
  predicate Alive(s: State) {
    s.link.refs.hog.conn.Some?
  }

  function FailuresIn(posts: seq<D.Post>): nat {
    if posts == [] then 0
    else FailuresIn(posts[..|posts| - 1]) + (if posts[|posts| - 1].HidFailure? then 1 else 0)
  }

  /** Failures noted by discovery, and by both modules. */
  function SessionNotes(s: State): nat {
    s.past + FailuresIn(Session(s).env.posts)
  }

  function Notes(s: State): nat {
    s.link.out.notes + SessionNotes(s)
  }

  /** The connection module has started a session. */
  predicate Starts(before: C.State, after: C.State) {
    after.refs.hog.discovering && after.refs.log != before.refs.log
  }

  function LinkStep(s: State, op: C.Op, start: D.Io): State {
    var link := C.Step(s.link, op);
    var scheduler := if link.out.notes > s.link.out.notes then Reconnect.Failure(s.scheduler) else s.scheduler;
    if Starts(s.link, link) then State.State(link, start, [], SessionNotes(s), scheduler)
    else State.State(link, s.start, s.session, s.past, scheduler)
  }

  function WithDiscovering(link: C.State, discovering: bool): C.State {
    link.(refs := link.refs.(hog := link.refs.hog.(discovering := discovering)))
  }

  function SessionStep(s: State, op: D.Op): State {
    var before := Session(s);
    var after := D.Step(before, op);
    State.State(WithDiscovering(s.link, after.flags.active), s.start, s.session + [op], s.past,
                D.Noted(s.scheduler, after.env.posts, |before.env.posts|))
  }

  function Step(s: State, op: Op): State {
    match op
    case LinkOp(o, start) => LinkStep(s, o, start)
    case SessionOp(o) => SessionStep(s, o)
  }

  /** Each module's own discipline; how a session ends is up to the session. */
  predicate Legal(s: State, op: Op) {
    match op
    case LinkOp(o, _) => C.Legal(s.link, o) && !o.DiscoveryEndedOp?
    case SessionOp(o) => Alive(s) && D.Legal(Session(s), o)
  }

  function Init(r: Reconnect.State): State {
    State.State(C.Init(), H.GOOD, [], 0, r)
  }

  function Run(r: Reconnect.State, ops: seq<Op>): State {
    if ops == [] then Init(r) else Step(Run(r, ops[..|ops| - 1]), ops[|ops| - 1])
  }

  ghost predicate LegalRun(r: Reconnect.State, ops: seq<Op>) {
    ops == [] || (LegalRun(r, ops[..|ops| - 1]) && Legal(Run(r, ops[..|ops| - 1]), ops[|ops| - 1]))
  }

  lemma RunExtends(r: Reconnect.State, ops: seq<Op>, op: Op)
    ensures LegalRun(r, ops + [op]) <==> LegalRun(r, ops) && Legal(Run(r, ops), op)
    ensures Run(r, ops + [op]) == Step(Run(r, ops), op)
  {
    assert (ops + [op])[..|ops|] == ops;
  }

  // ---------- The modules stay in step ----------

  ghost predicate Inv(s: State) {
    && C.Conserved(s.link.refs) && C.HandlesMatch(s.link)
    && D.LegalRun(s.start, s.session)
    && (Alive(s) ==> s.link.refs.hog.discovering == Session(s).flags.active)
  }

  lemma LinkFrame(s: C.State, op: C.Op)
    requires C.Conserved(s.refs) && C.HandlesMatch(s) && C.Legal(s, op) && !op.DiscoveryEndedOp?
    ensures var t := C.Step(s, op);
            && (Starts(s, t) || t.refs.hog == s.refs.hog || op.DisconnectedOp?)
            && (op.DisconnectedOp? ==> t.refs.hog.conn.None?)
  {
  }

  lemma LinkKeepsInv(s: State, op: C.Op, start: D.Io)
    requires Inv(s) && Legal(s, LinkOp(op, start))
    ensures Inv(LinkStep(s, op, start))
  {
    C.StepConserves(s.link, op);
    C.StepMatches(s.link, op);
    LinkFrame(s.link, op);
    assert D.LegalRun(start, []) && D.Run(start, []).flags.active;
  }

  lemma SessionKeepsInv(s: State, op: D.Op)
    requires Inv(s) && Legal(s, SessionOp(op))
    ensures Inv(SessionStep(s, op))
    ensures Session(SessionStep(s, op)) == D.Step(Session(s), op)
  {
    H.RunExtends(s.start, s.session, op);
  }

  lemma {:induction false} InvHolds(r: Reconnect.State, ops: seq<Op>)
    requires LegalRun(r, ops)
    ensures Inv(Run(r, ops))
  {
    if ops != [] {
      var s := Run(r, ops[..|ops| - 1]);
      InvHolds(r, ops[..|ops| - 1]);
      match ops[|ops| - 1]
      case LinkOp(o, start) => LinkKeepsInv(s, o, start);
      case SessionOp(o) => SessionKeepsInv(s, o);
    }
  }

  // ---------- A further note for the same attempt ----------

  /** The attempt is not over and no other is made. */
  predicate Within(op: Op) {
    op.LinkOp? ==> !op.op.DisconnectedOp? && !op.op.ConnectOp?
  }

  ghost predicate AllWithin(ops: seq<Op>) {
    forall i :: 0 <= i < |ops| ==> Within(ops[i])
  }

  const FAILING: C.Io := C.Io.Io(OK, OK, false, true, false, None)

  /** The operation that makes the connection module note a failure. */
  function NoteNow(link: C.Link): C.Op
    requires !link.NoLink?
  {
    match link
    case Creating(conn) => C.ConnectedOp(conn, true, FAILING)
    case Linked(conn) => C.SecurityFailedOp(conn, C.PairNotAllowed, FAILING)
  }

  lemma NoteNowNotes(s: State)
    requires Inv(s) && !s.link.refs.link.NoLink?
    ensures var op := LinkOp(NoteNow(s.link.refs.link), H.GOOD);
            Legal(s, op) && Within(op) && Notes(Step(s, op)) == Notes(s) + 1
  {
  }

  /** Without a link neither module has anything left to note. */
  lemma OverStep(s: State, op: Op)
    requires Inv(s) && s.link.refs.link.NoLink? && Legal(s, op) && Within(op)
    ensures var t := Step(s, op); t.link.refs.link.NoLink? && Notes(t) == Notes(s)
  {
  }

  lemma {:induction false} Over(r: Reconnect.State, ops: seq<Op>, more: seq<Op>)
    requires LegalRun(r, ops) && LegalRun(r, ops + more) && AllWithin(more)
    requires Run(r, ops).link.refs.link.NoLink?
    ensures var t := Run(r, ops + more); t.link.refs.link.NoLink? && Notes(t) == Notes(Run(r, ops))
    decreases |more|
  {
    if more == [] {
      assert ops + more == ops;
    } else {
      var front, last := more[..|more| - 1], more[|more| - 1];
      LastSplits(ops, more);
      RunExtends(r, ops + front, last);
      Over(r, ops, front);
      InvHolds(r, ops + front);
      OverStep(Run(r, ops + front), last);
    }
  }

  lemma LastSplits(ops: seq<Op>, more: seq<Op>)
    requires more != []
    ensures ops + more == ops + more[..|more| - 1] + [more[|more| - 1]]
  {
  }

  /**
   While the stack still has the connection, and only then, a further failure can be noted for the same
   attempt, whatever has been noted before: a security failure that is no confirmed mismatch is one.
   */
  lemma FurtherNoteExactly(r: Reconnect.State, ops: seq<Op>)
    requires LegalRun(r, ops)
    ensures (exists more :: LegalRun(r, ops + more) && AllWithin(more)
                            && Notes(Run(r, ops + more)) > Notes(Run(r, ops)))
            <==> !Run(r, ops).link.refs.link.NoLink?
  {
    InvHolds(r, ops);
    var s := Run(r, ops);
    if s.link.refs.link.NoLink? {
      forall more | LegalRun(r, ops + more) && AllWithin(more)
        ensures Notes(Run(r, ops + more)) == Notes(s)
      {
        Over(r, ops, more);
      }
    } else {
      var op := LinkOp(NoteNow(s.link.refs.link), H.GOOD);
      NoteNowNotes(s);
      RunExtends(r, ops, op);
      assert AllWithin([op]);
    }
  }

  // ---------- A further note from discovery ----------

  /**
   Discovery can still note a failure: its session may fail, or none is running and one can be started,
   over again if need be.
   */
  ghost predicate DiscoveryMayNote(s: State) {
    match s.link.refs.link
    case NoLink => false
    case Creating(_) => true
    case Linked(_) => !s.link.refs.hog.discovering || F.MayFail(Session(s))
  }

  lemma SettledKeeps(s: State, op: Op)
    requires Inv(s) && !DiscoveryMayNote(s) && Legal(s, op) && Within(op)
    ensures !DiscoveryMayNote(Step(s, op)) && SessionNotes(Step(s, op)) == SessionNotes(s)
  {
    match op
    case LinkOp(o, start) => SettledLink(s, o, start);
    case SessionOp(o) =>
      H.SessionHolds(s.start, s.session);
      SessionKeepsInv(s, o);
      F.SettledStep(Session(s), o);
  }

  lemma SettledLink(s: State, op: C.Op, start: D.Io)
    requires Inv(s) && !DiscoveryMayNote(s) && Legal(s, LinkOp(op, start)) && Within(LinkOp(op, start))
    ensures var t := LinkStep(s, op, start);
            t.link.refs == s.link.refs && t.session == s.session && t.start == s.start && t.past == s.past
  {
  }

  lemma {:induction false} SettledRun(r: Reconnect.State, ops: seq<Op>, more: seq<Op>)
    requires LegalRun(r, ops) && LegalRun(r, ops + more) && AllWithin(more) && !DiscoveryMayNote(Run(r, ops))
    ensures !DiscoveryMayNote(Run(r, ops + more)) && SessionNotes(Run(r, ops + more)) == SessionNotes(Run(r, ops))
    decreases |more|
  {
    if more == [] {
      assert ops + more == ops;
    } else {
      var front, last := more[..|more| - 1], more[|more| - 1];
      LastSplits(ops, more);
      RunExtends(r, ops + front, last);
      SettledRun(r, ops, front);
      InvHolds(r, ops + front);
      SettledKeeps(Run(r, ops + front), last);
    }
  }

  /** Every post of a session but a last HID_READY is a failure. */
  lemma {:induction false} AllButReady(posts: seq<D.Post>)
    requires forall k :: 0 <= k < |posts| ==> posts[k].HidFailure? || (posts[k].HidReady? && k == |posts| - 1)
    ensures FailuresIn(posts) <= |posts|
    ensures posts == [] || posts[|posts| - 1].HidFailure? ==> FailuresIn(posts) == |posts|
  {
    if posts != [] {
      AllButReady(posts[..|posts| - 1]);
    }
  }

  lemma SessionCount(s: D.State)
    requires H.Session(s)
    ensures FailuresIn(s.env.posts) <= |s.env.posts|
    ensures !H.ReadyPosted(s) ==> FailuresIn(s.env.posts) == |s.env.posts|
  {
    AllButReady(s.env.posts);
  }

  lemma MoreFailures(s: D.State, t: D.State)
    requires H.Session(s) && H.Session(t) && F.FailedSince(t, |s.env.posts|)
    ensures FailuresIn(t.env.posts) > FailuresIn(s.env.posts)
  {
    SessionCount(s);
    SessionCount(t);
  }

  /** A continuation of the session is one of the attempt. */
  lemma {:induction false} Lift(r: Reconnect.State, ops: seq<Op>, more: seq<D.Op>) returns (lifted: seq<Op>)
    requires LegalRun(r, ops) && Alive(Run(r, ops)) && D.LegalRun(Run(r, ops).start, Run(r, ops).session + more)
    ensures LegalRun(r, ops + lifted) && AllWithin(lifted)
    ensures var s, t := Run(r, ops), Run(r, ops + lifted);
            t.start == s.start && t.session == s.session + more && t.past == s.past && Alive(t)
    decreases |more|
  {
    InvHolds(r, ops);
    var s := Run(r, ops);
    if more == [] {
      lifted := [];
      assert ops + lifted == ops && s.session + more == s.session;
    } else {
      var front, last := more[..|more| - 1], more[|more| - 1];
      H.LastSplits(s.session, more);
      H.RunExtends(s.start, s.session + front, last);
      var rest := Lift(r, ops, front);
      RunExtends(r, ops + rest, SessionOp(last));
      lifted := rest + [SessionOp(last)];
      ConcatAssociates(ops, rest, [SessionOp(last)]);
    }
  }

  lemma ConcatAssociates(a: seq<Op>, b: seq<Op>, c: seq<Op>)
    ensures a + (b + c) == a + b + c
  {
  }

  /** A live session that may fail does, after some answers. */
  lemma LiveCanNote(r: Reconnect.State, ops: seq<Op>) returns (more: seq<Op>)
    requires LegalRun(r, ops) && Alive(Run(r, ops)) && F.MayFail(Session(Run(r, ops)))
    ensures LegalRun(r, ops + more) && AllWithin(more) && SessionNotes(Run(r, ops + more)) > SessionNotes(Run(r, ops))
  {
    InvHolds(r, ops);
    var s := Run(r, ops);
    var answers := F.CanFail(s.start, s.session);
    H.SessionHolds(s.start, s.session);
    H.SessionHolds(s.start, s.session + answers);
    MoreFailures(D.Run(s.start, s.session), D.Run(s.start, s.session + answers));
    more := Lift(r, ops, answers);
  }

  /** A session has just been started. */
  ghost predicate JustStarted(s: State) {
    Alive(s) && s.start == H.GOOD && s.session == []
  }

  lemma FreshMayFail(s: State)
    requires JustStarted(s)
    ensures F.MayFail(Session(s)) && FailuresIn(Session(s).env.posts) == 0
  {
  }

  /** The operation that starts a session, if none is running and the link is not secure. */
  function StartNow(link: C.Link): C.Op
    requires !link.NoLink?
  {
    match link
    case Creating(conn) => C.ConnectedOp(conn, false, FAILING)
    case Linked(conn) => C.SecuredOp(conn, FAILING)
  }

  lemma StartNowStarts(s: State)
    requires Inv(s) && !s.link.refs.link.NoLink? && !s.link.refs.hog.discovering
    requires s.link.refs.link.Linked? ==> !s.link.security.ready
    ensures var op := LinkOp(StartNow(s.link.refs.link), H.GOOD);
            && Legal(s, op) && Within(op) && JustStarted(Step(s, op))
            && SessionNotes(Step(s, op)) == SessionNotes(s)
  {
    var op := LinkOp(StartNow(s.link.refs.link), H.GOOD);
    var t := C.Step(s.link, op.op);
    var log := C.HogReset(s.link.refs).log + [C.Take(s.link.refs.active.value)];
    assert t.refs.log == log;
    assert |log| > |s.link.refs.log|;
    assert Starts(s.link, t);
    FreshMayFail(Step(s, op));
  }

  lemma StartAndNote(r: Reconnect.State, ops: seq<Op>) returns (more: seq<Op>)
    requires LegalRun(r, ops) && !Run(r, ops).link.refs.link.NoLink? && !Run(r, ops).link.refs.hog.discovering
    requires Run(r, ops).link.refs.link.Linked? ==> !Run(r, ops).link.security.ready
    ensures LegalRun(r, ops + more) && AllWithin(more) && SessionNotes(Run(r, ops + more)) > SessionNotes(Run(r, ops))
  {
    InvHolds(r, ops);
    var s := Run(r, ops);
    var op := LinkOp(StartNow(s.link.refs.link), H.GOOD);
    StartNowStarts(s);
    RunExtends(r, ops, op);
    FreshMayFail(Step(s, op));
    var rest := LiveCanNote(r, ops + [op]);
    more := [op] + rest;
    ConcatAssociates(ops, [op], rest);
  }

  /** A security failure takes the link's security back and leaves discovery alone. */
  lemma Unsecure(s: State, conn: C.Conn)
    requires Inv(s) && s.link.refs.link == C.Linked(conn)
    ensures var op := LinkOp(C.SecurityFailedOp(conn, C.PairNotAllowed, FAILING), H.GOOD);
            var t := Step(s, op);
            && Legal(s, op) && Within(op) && !t.link.security.ready && t.link.refs == s.link.refs
            && SessionNotes(t) == SessionNotes(s)
  {
  }

  lemma RestartAndNote(r: Reconnect.State, ops: seq<Op>) returns (more: seq<Op>)
    requires LegalRun(r, ops) && Run(r, ops).link.refs.link.Linked? && !Run(r, ops).link.refs.hog.discovering
    ensures LegalRun(r, ops + more) && AllWithin(more) && SessionNotes(Run(r, ops + more)) > SessionNotes(Run(r, ops))
  {
    InvHolds(r, ops);
    var s := Run(r, ops);
    var op := LinkOp(C.SecurityFailedOp(s.link.refs.link.conn, C.PairNotAllowed, FAILING), H.GOOD);
    Unsecure(s, s.link.refs.link.conn);
    RunExtends(r, ops, op);
    var rest := StartAndNote(r, ops + [op]);
    more := [op] + rest;
    ConcatAssociates(ops, [op], rest);
  }

  /**
   For the same attempt discovery can note a further failure exactly if the connection is being made,
   or it stands and no session is running, or the running one has an open request or answers to its
   subscriptions that are still to decide it.
   */
  lemma FurtherSessionNoteExactly(r: Reconnect.State, ops: seq<Op>)
    requires LegalRun(r, ops)
    ensures (exists more :: LegalRun(r, ops + more) && AllWithin(more)
                            && SessionNotes(Run(r, ops + more)) > SessionNotes(Run(r, ops)))
            <==> DiscoveryMayNote(Run(r, ops))
  {
    InvHolds(r, ops);
    var s := Run(r, ops);
    if !DiscoveryMayNote(s) {
      forall more | LegalRun(r, ops + more) && AllWithin(more)
        ensures SessionNotes(Run(r, ops + more)) == SessionNotes(s)
      {
        SettledRun(r, ops, more);
      }
    } else if s.link.refs.link.Creating? {
      var more := StartAndNote(r, ops);
    } else if s.link.refs.hog.discovering {
      var more := LiveCanNote(r, ops);
    } else {
      var more := RestartAndNote(r, ops);
    }
  }

  // ---------- One attempt, two failures ----------

  /** A bonded peer has been connected, and discovery has begun. */
  ghost predicate JustConnected(s: State, r: Reconnect.State) {
    && JustStarted(s) && s.link.refs.link == C.Linked(1) && s.past == 0
    && s.link.out.notes == 0 && s.scheduler == r
  }

  lemma ConnectBonded(r: Reconnect.State) returns (ops: seq<Op>)
    ensures LegalRun(r, ops) && JustConnected(Run(r, ops), r)
  {
    var connect := LinkOp(C.ConnectOp(Some(1)), H.GOOD);
    var connected := LinkOp(C.ConnectedOp(1, false, FAILING), H.GOOD);
    RunExtends(r, [], connect);
    RunExtends(r, [] + [connect], connected);
    ops := [] + [connect] + [connected];
    ConnectedStarts(Init(r), r);
  }

  lemma ConnectedStarts(s: State, r: Reconnect.State)
    requires s == Init(r)
    ensures var connect := LinkOp(C.ConnectOp(Some(1)), H.GOOD);
            var connected := LinkOp(C.ConnectedOp(1, false, FAILING), H.GOOD);
            && Legal(s, connect) && Legal(Step(s, connect), connected)
            && JustConnected(Step(Step(s, connect), connected), r)
  {
  }

  const INSECURE: Op := LinkOp(C.SecurityFailedOp(1, C.PairNotAllowed, FAILING), H.GOOD)

  lemma InsecureNotes(s: State, r: Reconnect.State)
    requires Inv(s) && JustConnected(s, r)
    ensures var t := Step(s, INSECURE);
            && Legal(s, INSECURE) && Within(INSECURE) && Inv(t) && JustStarted(t) && t.past == 0
            && t.link.out.notes == 1 && t.scheduler == Reconnect.Failure(r)
  {
    LinkKeepsInv(s, INSECURE.op, H.GOOD);
  }

  lemma MissingServiceNotes(s: State)
    requires Inv(s) && JustStarted(s)
    ensures var t := SessionStep(s, D.NoService);
            && Legal(s, SessionOp(D.NoService)) && t.scheduler == Reconnect.Failure(s.scheduler)
            && SessionNotes(t) == s.past + 1 && t.link.out == s.link.out
  {
    SessionKeepsInv(s, D.NoService);
    D.NotedNext(s.scheduler, [], 0, D.HidFailure(D.ServiceMissing));
    var posts := Session(SessionStep(s, D.NoService)).env.posts;
    assert posts == [D.HidFailure(D.ServiceMissing)];
    OneFailure(posts);
  }

  lemma OneFailure(posts: seq<D.Post>)
    requires |posts| == 1 && posts[0].HidFailure?
    ensures FailuresIn(posts) == 1
  {
    assert FailuresIn(posts[..0]) == 0;
  }

  /**
   After a bonded peer has been connected, security fails, and before the disconnect the service turns
   out to be missing: both modules note a failure, and the scheduler counts the one attempt twice.
   */
  lemma SecurityAndDiscoveryBothNote(r: Reconnect.State) returns (ops: seq<Op>, more: seq<Op>)
    requires Reconnect.Valid(r) && Reconnect.Failures(r) == 0
    ensures LegalRun(r, ops) && JustConnected(Run(r, ops), r)
    ensures LegalRun(r, ops + more) && AllWithin(more)
    ensures var s := Run(r, ops + more);
            s.link.out.notes == 1 && SessionNotes(s) == 1 && Reconnect.Failures(s.scheduler) == 2
  {
    ops := ConnectBonded(r);
    InvHolds(r, ops);
    BothNote(Run(r, ops), r);
    more := [INSECURE] + [SessionOp(D.NoService)];
    BothWithin(INSECURE, SessionOp(D.NoService));
    RunExtendsTwice(r, ops, INSECURE, SessionOp(D.NoService));
  }

  lemma BothWithin(a: Op, b: Op)
    requires Within(a) && Within(b)
    ensures AllWithin([a] + [b])
  {
  }

  lemma RunExtendsTwice(r: Reconnect.State, ops: seq<Op>, a: Op, b: Op)
    requires LegalRun(r, ops) && Legal(Run(r, ops), a) && Legal(Step(Run(r, ops), a), b)
    ensures LegalRun(r, ops + ([a] + [b])) && Run(r, ops + ([a] + [b])) == Step(Step(Run(r, ops), a), b)
  {
    RunExtends(r, ops, a);
    RunExtends(r, ops + [a], b);
    ConcatAssociates(ops, [a], [b]);
  }

  lemma BothNote(s: State, r: Reconnect.State)
    requires Inv(s) && JustConnected(s, r) && Reconnect.Valid(r) && Reconnect.Failures(r) == 0
    ensures Legal(s, INSECURE) && Legal(Step(s, INSECURE), SessionOp(D.NoService))
    ensures Within(INSECURE) && Within(SessionOp(D.NoService))
    ensures var t := Step(Step(s, INSECURE), SessionOp(D.NoService));
            t.link.out.notes == 1 && SessionNotes(t) == 1 && Reconnect.Failures(t.scheduler) == 2
  {
    InsecureNotes(s, r);
    MissingServiceNotes(Step(s, INSECURE));
    Reconnect.FailureCounts(r);
    Reconnect.FailureCounts(Reconnect.Failure(r));
  }

  // ---------- What the client tells the bridge ----------

  /** The client's last word to the bridge was to open the input. */
  predicate InputOpen(s: State) {
    Alive(s) && Session(s).inputOpen
  }

  lemma OpenIsOver(s: State)
    requires Inv(s) && InputOpen(s)
    ensures H.ReadyPosted(Session(s)) && !s.link.refs.hog.discovering && s.link.refs.link.Linked?
  {
    H.SessionHolds(s.start, s.session);
  }

  lemma SessionLeavesOpen(s: State, op: D.Op)
    requires Inv(s) && InputOpen(s) && Legal(s, SessionOp(op))
    ensures InputOpen(SessionStep(s, op))
  {
    OpenIsOver(s);
    H.SessionHolds(s.start, s.session);
    SessionKeepsInv(s, op);
  }

  lemma LinkClosesExactly(s: State, op: C.Op, start: D.Io)
    requires Inv(s) && InputOpen(s) && Legal(s, LinkOp(op, start))
    ensures InputOpen(LinkStep(s, op, start)) <==>
              !op.DisconnectedOp? && !(op.SecuredOp? && !s.link.security.ready && op.io.post == OK)
  {
    OpenIsOver(s);
    assert !D.Run(start, []).inputOpen;
    var restarted := C.HogReset(s.link.refs).log + [C.Take(s.link.refs.active.value)];
    assert |restarted| > |s.link.refs.log|;
  }

  /** What makes the client take that back: a disconnect, or a link that becomes secure only now. */
  predicate ClientCloses(s: State, op: Op) {
    op.LinkOp? && (op.op.DisconnectedOp? || (op.op.SecuredOp? && !s.link.security.ready && op.op.io.post == OK))
  }

  lemma ClientClosesExactly(s: State, op: Op)
    requires Inv(s) && InputOpen(s) && Legal(s, op)
    ensures !InputOpen(Step(s, op)) <==> ClientCloses(s, op)
  {
    match op
    case LinkOp(o, start) => LinkClosesExactly(s, o, start);
    case SessionOp(o) => SessionLeavesOpen(s, o);
  }

  lemma StepKeepsInv(s: State, op: Op)
    requires Inv(s) && Legal(s, op)
    ensures Inv(Step(s, op))
  {
    match op
    case LinkOp(o, start) => LinkKeepsInv(s, o, start);
    case SessionOp(o) => SessionKeepsInv(s, o);
  }
}
