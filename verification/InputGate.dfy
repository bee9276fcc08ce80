/**
 Who opens and closes the input gate of main/src/bridge.c: the discovery sessions and the connection
 behind them, the state machine, and the bridge between them and the host, interleaved freely.
 */
module InputGate {
  import opened Basics
  import opened EventQueue
  import A = Attempt
  import B = Bridge
  import BleManager
  import C = Connection
  import D = HogDiscovery
  import F = HogFailure
  import H = HogReadiness
  import HogInput
  import Reconnect
  import ScanControl
  import SM = StateMachine
  import U = UsbBridge

  /** `shut` is not in the code: the state machine has released the bridge since input was last opened. */
  datatype State = State(machine: SM.State, at: A.State, bridge: B.State, shut: bool)

  datatype Op = EventOp(input: SM.Input) | AttemptOp(op: A.Op) | BridgeOp(forward: B.Op)

  /** This step of a session posts HID_READY. */
  predicate PostsReady(before: D.State, after: D.State) {
    |after.env.posts| > |before.env.posts| && after.env.posts[|after.env.posts| - 1].HidReady?
  }

  predicate PostsNotReady(before: D.State, after: D.State) {
    |after.env.posts| > |before.env.posts| && after.env.posts[|after.env.posts| - 1].NotReady?
  }

  /** What the client tells the bridge: hog_client_reset closes, complete_discovery opens or closes. */
  function Told(b: B.State, before: A.State, op: A.Op): B.State {
    var after := A.Step(before, op);
    match op
    case LinkOp(o, _) =>
      if A.Starts(before.link, after.link) || o.DisconnectedOp? then B.SetInputActive(b, false) else b
    case SessionOp(_) =>
      if PostsReady(A.Session(before), A.Session(after)) then B.SetInputActive(b, true)
      else if PostsNotReady(A.Session(before), A.Session(after)) then B.SetInputActive(b, false)
      else b
  }

  /** An event is handled; bridge_release_all closes the gate first, its USB half is an operation of its own. */
  function OnEvent(s: State, input: SM.Input): State {
    var before := SM.Meanwhile(s.machine, input);
    var after := SM.Receive(s.machine, input).0;
    if SM.HasReleased(before, after)
    then s.(machine := after, bridge := B.Step(s.bridge, B.CloseGate), shut := true)
    else s.(machine := after)
  }

  function OnAttempt(s: State, op: A.Op): State {
    var after := A.Step(s.at, op);
    s.(at := after, bridge := Told(s.bridge, s.at, op),
       shut := s.shut && !(A.InputOpen(after) && !A.InputOpen(s.at)))
  }

  function Step(s: State, op: Op): State {
    match op
    case EventOp(input) => OnEvent(s, input)
    case AttemptOp(o) => OnAttempt(s, o)
    case BridgeOp(o) => s.(bridge := B.Step(s.bridge, o))
  }

  /** Nobody else writes the gate. */
  predicate Legal(s: State, op: Op) {
    match op
    case EventOp(_) => true
    case AttemptOp(o) => A.Legal(s.at, o)
    case BridgeOp(o) => !o.SetActiveOp? && !o.CloseGate?
  }

  function Init(machine: SM.State, r: Reconnect.State): State {
    State.State(machine, A.Init(r), B.Init(), false)
  }

  function Run(s: State, ops: seq<Op>): State {
    if ops == [] then s else Step(Run(s, ops[..|ops| - 1]), ops[|ops| - 1])
  }

  ghost predicate LegalRun(s: State, ops: seq<Op>) {
    ops == [] || (LegalRun(s, ops[..|ops| - 1]) && Legal(Run(s, ops[..|ops| - 1]), ops[|ops| - 1]))
  }

  lemma RunExtends(s: State, ops: seq<Op>, op: Op)
    ensures LegalRun(s, ops + [op]) <==> LegalRun(s, ops) && Legal(Run(s, ops), op)
    ensures Run(s, ops + [op]) == Step(Run(s, ops), op)
  {
    assert (ops + [op])[..|ops|] == ops;
  }

  // ---------- What the gate stands for ----------

  ghost predicate Inv(s: State) {
    A.Inv(s.at) && (s.bridge.active <==> A.InputOpen(s.at) && !s.shut)
  }

  /** A session callback opens the input exactly by posting HID_READY, and never closes it. */
  lemma SessionTells(s: A.State, op: D.Op)
    requires A.Inv(s) && A.Legal(s, A.SessionOp(op))
    ensures var t := A.SessionStep(s, op);
            && (PostsReady(A.Session(s), A.Session(t)) <==> A.InputOpen(t) && !A.InputOpen(s))
            && (A.InputOpen(s) <==> H.ReadyPosted(A.Session(s))) && (A.InputOpen(t) <==> H.ReadyPosted(A.Session(t)))
            && !PostsNotReady(A.Session(s), A.Session(t))
            && (A.InputOpen(s) ==> A.InputOpen(t))
  {
    var t := A.SessionStep(s, op);
    A.SessionKeepsInv(s, op);
    H.SessionHolds(s.start, s.session);
    H.SessionHolds(t.start, t.session);
    if H.ReadyPosted(A.Session(s)) {
      F.SettledStep(A.Session(s), op);
    } else {
      ReadyNeedsPost(A.Session(s), op);
    }
  }

  /** A session that was not ready becomes so only by a post. */
  lemma ReadyNeedsPost(s: D.State, op: D.Op)
    requires H.Session(s) && D.Legal(s, op) && !H.ReadyPosted(s)
    ensures H.ReadyPosted(D.Step(s, op)) ==> |D.Step(s, op).env.posts| > |s.env.posts|
  {
    if H.ReadyPosted(D.Step(s, op)) {
      H.StepKeepsSession(s, op);
    }
  }

  lemma LinkTells(s: A.State, op: C.Op, start: D.Io)
    requires A.Inv(s) && A.Legal(s, A.LinkOp(op, start))
    ensures var t := A.LinkStep(s, op, start);
            A.InputOpen(t) <==> A.InputOpen(s) && !A.Starts(s.link, t.link) && !op.DisconnectedOp?
  {
    A.LinkFrame(s.link, op);
    assert !D.Run(start, []).inputOpen;
  }

  lemma EventKeepsInv(s: State, input: SM.Input)
    requires Inv(s)
    ensures Inv(OnEvent(s, input))
  {
  }

  lemma LinkKeepsInv(s: State, op: C.Op, start: D.Io)
    requires Inv(s) && A.Legal(s.at, A.LinkOp(op, start))
    ensures Inv(OnAttempt(s, A.LinkOp(op, start)))
  {
    A.StepKeepsInv(s.at, A.LinkOp(op, start));
    LinkTells(s.at, op, start);
  }

  lemma SessionKeepsInv(s: State, answer: D.Op)
    requires Inv(s) && A.Legal(s.at, A.SessionOp(answer))
    ensures Inv(OnAttempt(s, A.SessionOp(answer)))
  {
    A.StepKeepsInv(s.at, A.SessionOp(answer));
    SessionTells(s.at, answer);
  }

  lemma ForwardKeepsGate(b: B.State, op: B.Op)
    requires !op.SetActiveOp? && !op.CloseGate?
    ensures B.Step(b, op).active == b.active
  {
  }

  lemma StepKeepsInv(s: State, op: Op)
    requires Inv(s) && Legal(s, op)
    ensures Inv(Step(s, op))
  {
    match op
    case EventOp(input) => EventKeepsInv(s, input);
    case AttemptOp(o) =>
      match o {
        case LinkOp(link, start) => LinkKeepsInv(s, link, start);
        case SessionOp(answer) => SessionKeepsInv(s, answer);
      }
    case BridgeOp(o) => ForwardKeepsGate(s.bridge, o);
  }

  /**
   Over every run the gate is open exactly if the client's last word was HID_READY and the state
   machine has not released the bridge since.
   */
  lemma {:induction false} GateHolds(s: State, ops: seq<Op>)
    requires Inv(s) && LegalRun(s, ops)
    ensures Inv(Run(s, ops))
  {
    if ops != [] {
      GateHolds(s, ops[..|ops| - 1]);
      StepKeepsInv(Run(s, ops[..|ops| - 1]), ops[|ops| - 1]);
    }
  }

  // ---------- Exactly when it opens and closes ----------

  /** An event that releases, a disconnect, or a link that becomes secure only now. */
  predicate Closes(s: State, op: Op) {
    match op
    case EventOp(input) => SM.Releases(s.machine, input.event)
    case AttemptOp(o) => A.ClientCloses(s.at, o)
    case BridgeOp(_) => false
  }

  /** A session callback with which its session becomes ready. */
  predicate Opens(s: State, op: Op) {
    && op.AttemptOp? && op.op.SessionOp?
    && !H.ReadyPosted(A.Session(s.at)) && H.ReadyPosted(A.Session(A.Step(s.at, op.op)))
  }

  lemma GateClosesExactly(s: State, ops: seq<Op>, op: Op)
    requires Inv(s) && LegalRun(s, ops + [op]) && Run(s, ops).bridge.active
    ensures !Run(s, ops + [op]).bridge.active <==> Closes(Run(s, ops), op)
  {
    RunExtends(s, ops, op);
    GateHolds(s, ops);
    StepKeepsInv(Run(s, ops), op);
    ClosesStep(Run(s, ops), op);
  }

  lemma ClosesStep(s: State, op: Op)
    requires Inv(s) && Legal(s, op) && s.bridge.active
    ensures !Step(s, op).bridge.active <==> Closes(s, op)
  {
    match op
    case EventOp(input) => SM.ReleasesExactly(SM.Meanwhile(s.machine, input), input.event, input.io);
    case AttemptOp(o) =>
      StepKeepsInv(s, op);
      A.ClientClosesExactly(s.at, o);
    case BridgeOp(_) =>
  }

  lemma GateOpensExactly(s: State, ops: seq<Op>, op: Op)
    requires Inv(s) && LegalRun(s, ops + [op]) && !Run(s, ops).bridge.active
    ensures Run(s, ops + [op]).bridge.active <==> Opens(Run(s, ops), op)
  {
    RunExtends(s, ops, op);
    GateHolds(s, ops);
    OpensStep(Run(s, ops), op);
  }

  lemma OpensStep(s: State, op: Op)
    requires Inv(s) && Legal(s, op) && !s.bridge.active
    ensures Step(s, op).bridge.active <==> Opens(s, op)
  {
    if op.AttemptOp? && op.op.SessionOp? {
      SessionTells(s.at, op.op.answer);
    }
  }

  /** A notification that gets to the bridge. */
  function Forwarded(e: HogInput.Event, flush: U.FlushIo, io: U.Io): Op
    requires B.BridgeQueuedInput(e).Pass?
  {
    BridgeOp(B.InputOp(B.BridgeQueuedInput(e).input, flush, io))
  }

  /**
   What the gate is for: after any run in which HID_READY was the client's last word and no release has come
   since, a notification is delivered once the host configures the device, behind a release that is owed.
   */
  lemma OpenGateDelivers(s: State, ops: seq<Op>, e: HogInput.Event, flush: U.FlushIo, io: U.Io)
    requires Inv(s) && LegalRun(s, ops) && A.InputOpen(Run(s, ops).at) && !Run(s, ops).shut
    requires B.Deliverable(e) && U.Written(B.HostReport(e), io)
    requires Run(s, ops).bridge.usb.pending ==> U.FlushWritten(flush) && io.readyInTime
    ensures B.BridgeQueuedInput(e).Pass?
    ensures var t := Run(s, ops);
            var u := Step(Step(t, BridgeOp(B.StatusOp(U.Configured))), Forwarded(e, flush, io));
            && u.bridge.usb.log ==
                 t.bridge.usb.log + (if t.bridge.usb.pending then U.Triple() else []) + [U.Sent(B.HostReport(e), true)]
            && u.machine == t.machine && u.at == t.at
  {
    GateHolds(s, ops);
    B.HostReportIsBuilt(e);
    B.ConfiguredDelivers(Run(s, ops).bridge, e, flush, io);
  }

  // ---------- Until the next HID_READY ----------

  ghost predicate NeverReady(s: State, ops: seq<Op>) {
    ops == [] || (NeverReady(s, ops[..|ops| - 1]) && !Opens(Run(s, ops[..|ops| - 1]), ops[|ops| - 1]))
  }

  lemma ForwardIsQuiet(b: B.State, op: B.Op)
    requires !b.active && !op.SetActiveOp? && !op.CloseGate?
    ensures !B.Step(b, op).active && B.Quiet(b.usb.log, B.Step(b, op).usb.log)
  {
    B.ClosedGateIsQuiet(b, [op]);
    B.RunOne(b, op);
  }

  lemma OthersLeaveUsb(s: State, op: Op)
    requires !op.BridgeOp?
    ensures Step(s, op).bridge.usb == s.bridge.usb
  {
  }

  lemma QuietStep(s: State, op: Op)
    requires Inv(s) && Legal(s, op) && !s.bridge.active && !Opens(s, op)
    ensures var t := Step(s, op); !t.bridge.active && B.Quiet(s.bridge.usb.log, t.bridge.usb.log)
  {
    OpensStep(s, op);
    if op.BridgeOp? {
      ForwardIsQuiet(s.bridge, op.forward);
    } else {
      OthersLeaveUsb(s, op);
    }
  }

  /**
   While the gate is shut, whatever events, callbacks, inputs and USB operations come, it stays shut and
   no ordinary report is submitted until a session posts HID_READY.
   */
  lemma {:induction false} SilentUntilReady(s: State, ops: seq<Op>)
    requires Inv(s) && LegalRun(s, ops) && !s.bridge.active && NeverReady(s, ops)
    ensures var t := Run(s, ops); Inv(t) && !t.bridge.active && B.Quiet(s.bridge.usb.log, t.bridge.usb.log)
  {
    if ops != [] {
      var front, last := ops[..|ops| - 1], ops[|ops| - 1];
      SilentUntilReady(s, front);
      StepKeepsInv(Run(s, front), last);
      QuietStep(Run(s, front), last);
    }
  }

  // ---------- Only a new session opens it again ----------

  predicate StartsSession(s: State, op: Op) {
    op.AttemptOp? && op.op.LinkOp? && A.Starts(s.at.link, C.Step(s.at.link, op.op.op))
  }

  ghost predicate NeverStarts(s: State, ops: seq<Op>) {
    ops == [] || (NeverStarts(s, ops[..|ops| - 1]) && !StartsSession(Run(s, ops[..|ops| - 1]), ops[|ops| - 1]))
  }

  /** The gate is shut, and the session that had opened it has nothing more to say, or none is left. */
  predicate Spent(s: State) {
    !s.bridge.active && (A.Alive(s.at) ==> A.InputOpen(s.at))
  }

  lemma SpentStep(s: State, op: Op)
    requires Inv(s) && Legal(s, op) && Spent(s) && !StartsSession(s, op)
    ensures Spent(Step(s, op)) && !Opens(s, op)
  {
    if op.AttemptOp? {
      match op.op {
        case LinkOp(link, start) =>
          LinkTells(s.at, link, start);
          A.LinkFrame(s.at.link, link);
        case SessionOp(answer) =>
          SessionTells(s.at, answer);
      }
    }
  }

  lemma {:induction false} StaysSpent(s: State, ops: seq<Op>)
    requires Inv(s) && LegalRun(s, ops) && Spent(s) && NeverStarts(s, ops)
    ensures Spent(Run(s, ops)) && NeverReady(s, ops)
  {
    if ops != [] {
      var front, last := ops[..|ops| - 1], ops[|ops| - 1];
      StaysSpent(s, front);
      GateHolds(s, front);
      SpentStep(Run(s, front), last);
    }
  }

  /**
   A release outlasts the session that opened the input: whatever follows, the gate stays shut and no
   ordinary report is submitted until discovery is started anew.
   */
  lemma ReleaseOutlastsSession(s: State, input: SM.Input, more: seq<Op>)
    requires Inv(s) && s.bridge.active && SM.Releases(s.machine, input.event)
    requires var t := Step(s, EventOp(input)); LegalRun(t, more) && NeverStarts(t, more)
    ensures var t := Step(s, EventOp(input));
            && t.at == s.at && t.machine == SM.Receive(s.machine, input).0
            && !t.bridge.active && !Run(t, more).bridge.active
            && B.Quiet(t.bridge.usb.log, Run(t, more).bridge.usb.log)
  {
    SM.ReleasesExactly(SM.Meanwhile(s.machine, input), input.event, input.io);
    var t := Step(s, EventOp(input));
    StepKeepsInv(s, EventOp(input));
    StaysSpent(t, more);
    SilentUntilReady(t, more);
  }

  // ---------- Connected, with the input shut ----------

  /** The bonds are there, nothing is scanned, and they cannot be unpaired. */
  const BONDED: BleManager.State :=
    BleManager.State.State(ScanControl.State.State(false, false, false, Queue([], true)), Reconnect.Init(), true, true)

  const NO_UNPAIR: SM.Io := SM.Io.Io(BleManager.Io.Io(ScanControl.ScanIo(0, 0, 0, 0), -5, OK), OK)

  /**
   A long press while connected whose erase fails: the state stays CONNECTED, and input, if it was
   open, is shut and silent until a new HID_READY.
   */
  lemma FailedEraseShutsInput(s: State, input: SM.Input, more: seq<Op>)
    requires Inv(s) && s.machine.phase.ConnectedState? && input.event.ButtonLongPress?
    requires !SM.Erases(SM.Meanwhile(s.machine, input), input.io)
    requires var t := Step(s, EventOp(input)); LegalRun(t, more) && NeverReady(t, more)
    ensures var t := Step(s, EventOp(input));
            && t.machine.phase.ConnectedState? && t.at == s.at && !t.bridge.active
            && !Run(t, more).bridge.active && B.Quiet(t.bridge.usb.log, Run(t, more).bridge.usb.log)
  {
    var m := SM.Meanwhile(s.machine, input);
    SM.ErasesExactly(m, input.io);
    SM.ReleasesExactly(m, input.event, input.io);
    StepKeepsInv(s, EventOp(input));
    SilentUntilReady(Step(s, EventOp(input)), more);
  }

  /** A run of the connection and its sessions alone is one of the whole. */
  lemma {:induction false} LiftAttempt(s: State, r: Reconnect.State, ops: seq<A.Op>) returns (lifted: seq<Op>)
    requires s.at == A.Init(r) && !s.shut && A.LegalRun(r, ops)
    ensures LegalRun(s, lifted)
    ensures var t := Run(s, lifted); t.at == A.Run(r, ops) && !t.shut && t.machine == s.machine
  {
    if ops == [] {
      lifted := [];
    } else {
      var front := LiftAttempt(s, r, ops[..|ops| - 1]);
      RunExtends(s, front, AttemptOp(ops[|ops| - 1]));
      lifted := front + [AttemptOp(ops[|ops| - 1])];
    }
  }

  /** A bonded peer is connected and grants its subscriptions. */
  lemma PeerBecomesReady(r: Reconnect.State) returns (ops: seq<A.Op>)
    ensures A.LegalRun(r, ops) && A.InputOpen(A.Run(r, ops))
  {
    var connected := A.ConnectBonded(r);
    var answers := F.ReadySession();
    SessionFollows(A.Run(r, connected), r, answers);
    var rest := A.Lift(r, connected, answers);
    ops := connected + rest;
    A.InvHolds(r, ops);
    ReadyOpens(A.Run(r, ops));
  }

  lemma SessionFollows(s: A.State, r: Reconnect.State, answers: seq<D.Op>)
    requires A.JustConnected(s, r) && D.LegalRun(H.GOOD, answers)
    ensures A.Alive(s) && s.start == H.GOOD && s.session + answers == answers
  {
  }

  lemma ReadyOpens(s: A.State)
    requires A.Inv(s) && A.Alive(s) && H.ReadyPosted(A.Session(s))
    ensures A.InputOpen(s)
  {
    H.SessionHolds(s.start, s.session);
  }

  lemma OpenInput(machine: SM.State, r: Reconnect.State) returns (ops: seq<Op>)
    ensures LegalRun(Init(machine, r), ops)
    ensures var t := Run(Init(machine, r), ops); t.bridge.active && t.machine == machine
  {
    var attempt := PeerBecomesReady(r);
    InitHolds(machine, r);
    ops := LiftAttempt(Init(machine, r), r, attempt);
    GateHolds(Init(machine, r), ops);
  }

  lemma InitHolds(machine: SM.State, r: Reconnect.State)
    ensures Inv(Init(machine, r))
  {
    A.InvHolds(r, []);
  }

  lemma ReadyEventConnects(s: State)
    ensures var t := Step(s, EventOp(SM.Input(HidReady, NO_UNPAIR, BONDED)));
            t.machine.phase.RecoveryRequired? || t.machine.phase.ConnectedState?
    ensures Step(s, EventOp(SM.Input(HidReady, NO_UNPAIR, BONDED))).bridge == s.bridge
  {
  }

  /**
   From power-up: a peer becomes ready, the machine is connected, a long press cannot erase the bonds.
   The connection and its session are as they were, but nothing gets through any more.
   */
  lemma ConnectedButShut(machine: SM.State, r: Reconnect.State) returns (ops: seq<Op>)
    ensures LegalRun(Init(machine, r), ops)
    ensures var t := Run(Init(machine, r), ops);
            t.machine.phase.ConnectedState? && A.InputOpen(t.at) && !t.bridge.active
  {
    var s := Init(machine, r);
    InitHolds(machine, r);
    ops := OpenInput(machine, r);
    GateHolds(s, ops);
    var ready, press := SM.Input(HidReady, NO_UNPAIR, BONDED), SM.Input(ButtonLongPress, NO_UNPAIR, BONDED);
    var t := Run(s, ops);
    EraseFails(t, ready, press);
    RunExtends(s, ops, EventOp(ready));
    RunExtends(s, ops + [EventOp(ready)], EventOp(press));
    ops := ops + [EventOp(ready)] + [EventOp(press)];
  }

  lemma EraseFails(s: State, ready: SM.Input, press: SM.Input)
    requires Inv(s) && s.bridge.active
    requires ready == SM.Input(HidReady, NO_UNPAIR, BONDED) && press == SM.Input(ButtonLongPress, NO_UNPAIR, BONDED)
    ensures var t := Step(Step(s, EventOp(ready)), EventOp(press));
            t.machine.phase.ConnectedState? && A.InputOpen(t.at) && !t.bridge.active
  {
    var c := Step(s, EventOp(ready));
    assert c.machine.phase.ConnectedState? && c.at == s.at && c.bridge == s.bridge && Inv(c);
    FailedEraseShutsInput(c, press, []);
  }
}
