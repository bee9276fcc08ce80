/** The input gate of main/src/bridge.c, between the HOG input path and the USB side. */
module Bridge {
  import opened Basics
  import opened MouseCodec
  import HogInput
  import U = UsbBridge

  const KEYBOARD_BODY_LEN: nat := 8
  const CONSUMER_BODY_LEN: nat := 2

  const NO_KEYS: seq<Byte> := [0, 0, 0, 0, 0, 0, 0, 0]
  const NO_USAGE: seq<Byte> := [0, 0]
  const NO_MOTION: MouseBody := MouseBody(0, 0, 0, 0, 0)

  /** What bridge_queued_input passes on: raw bodies, or a decoded mouse struct. */
  datatype Input = KeyboardBytes(bytes: seq<Byte>) | ConsumerBytes(bytes: seq<Byte>) | MouseStruct(body: MouseBody)

  datatype Forward = Pass(input: Input) | Refuse(status: Status)

  /** bridge_queued_input, up to the call of the bridge. */
  function BridgeQueuedInput(e: HogInput.Event): Forward {
    match e.role
    case KeyboardInput => Pass(KeyboardBytes(e.payload))
    case ConsumerInput => Pass(ConsumerBytes(e.payload))
    case MouseInput => (match Decode(e.payload) case Ok(m) => Pass(MouseStruct(m)) case Err(s) => Refuse(s))
    case _ => Refuse(OK)
  }

  datatype State = State(keyboard: seq<Byte>, consumer: seq<Byte>, mouse: MouseBody, active: bool, usb: U.Usb)

  function Init(): State {
    State(NO_KEYS, NO_USAGE, NO_MOTION, false, U.Init())
  }

  function ResetState(s: State): State {
    s.(keyboard := NO_KEYS, consumer := NO_USAGE, mouse := NO_MOTION)
  }

  function SetInputActive(s: State, active: bool): State {
    var s' := s.(active := active);
    if active then s' else ResetState(s')
  }

  predicate WellSized(input: Input) {
    match input
    case KeyboardBytes(bytes) => |bytes| == KEYBOARD_BODY_LEN
    case ConsumerBytes(bytes) => |bytes| == CONSUMER_BODY_LEN
    case MouseStruct(_) => true
  }

  function Usage(bytes: seq<Byte>): int
    requires |bytes| == CONSUMER_BODY_LEN
  {
    bytes[0] as int + 0x100 * bytes[1] as int
  }

  function ReportFor(input: Input): U.Report
    requires WellSized(input)
  {
    match input
    case KeyboardBytes(bytes) => U.KeyboardReport(bytes[0], bytes[1], bytes[2..])
    case ConsumerBytes(bytes) => U.ConsumerReport(Usage(bytes))
    case MouseStruct(m) => U.MouseReport(m)
  }

  function Remember(s: State, input: Input): State {
    match input
    case KeyboardBytes(bytes) => s.(keyboard := bytes)
    case ConsumerBytes(bytes) => s.(consumer := bytes)
    case MouseStruct(m) => s.(mouse := m)
  }

  /** bridge_handle_input */
  function HandleInput(s: State, input: Input, flush: U.FlushIo, io: U.Io): (State, Status) {
    if !s.active then (s, OK)
    else if !WellSized(input) then (s, SIZE_MISMATCH)
    else
      var (usb, status) := U.Send(s.usb, ReportFor(input), flush, io);
      (Remember(s, input).(usb := usb), status)
  }

  /** bridge_release_all takes two locks in turn, so other contexts may run between its halves. */
  datatype Op =
    | InputOp(input: Input, flush: U.FlushIo, io: U.Io)
    | SetActiveOp(active: bool)
    | ResetStateOp
    | CloseGate
    | ReleaseUsb(flush: U.FlushIo)
    | StatusOp(status: U.HostStatus)
    | ReadyOp

  function Step(s: State, op: Op): State {
    match op
    case InputOp(input, flush, io) => HandleInput(s, input, flush, io).0
    case SetActiveOp(active) => SetInputActive(s, active)
    case ResetStateOp => ResetState(s)
    case CloseGate => ResetState(s.(active := false))
    case ReleaseUsb(flush) => s.(usb := U.ReleaseAll(s.usb, flush).0)
    case StatusOp(status) => s.(usb := U.Step(s.usb, U.StatusOp(status)))
    case ReadyOp => s.(usb := U.Step(s.usb, U.ReadyOp))
  }

  function Run(s: State, ops: seq<Op>): State {
    if ops == [] then s else Step(Run(s, ops[..|ops| - 1]), ops[|ops| - 1])
  }

  // ---------- No stuck input ----------

  lemma StepKeepsInv(s: State, op: Op)
    requires U.Inv(s.usb)
    ensures U.Inv(Step(s, op).usb)
  {
    match op
    case InputOp(input, flush, io) =>
      if s.active && WellSized(input) {
        U.StepKeepsInv(s.usb, U.SendOp(ReportFor(input), flush, io));
      }
    case ReleaseUsb(flush) => U.StepKeepsInv(s.usb, U.ReleaseOp(flush));
    case _ =>
  }

  lemma {:induction false} RunKeepsInv(ops: seq<Op>)
    ensures U.Inv(Run(Init(), ops).usb)
  {
    if ops != [] {
      RunKeepsInv(ops[..|ops| - 1]);
      StepKeepsInv(Run(Init(), ops[..|ops| - 1]), ops[|ops| - 1]);
    }
  }

  ghost predicate NeverOpens(ops: seq<Op>) {
    forall i :: 0 <= i < |ops| ==> ops[i] != SetActiveOp(true)
  }

  /** `log` grew from `before` without an ordinary report. */
  ghost predicate Quiet(before: seq<U.LogEntry>, log: seq<U.LogEntry>) {
    before <= log && forall k :: |before| <= k < |log| ==> !U.Ordinary(log[k])
  }

  lemma FlushIsQuiet(u: U.Usb, io: U.FlushIo)
    ensures Quiet(u.log, U.Flush(u, io).0.log)
  {
  }

  lemma {:induction false} ClosedGateIsQuiet(s: State, ops: seq<Op>)
    requires !s.active && NeverOpens(ops)
    ensures !Run(s, ops).active && Quiet(s.usb.log, Run(s, ops).usb.log)
  {
    if ops != [] {
      var t := Run(s, ops[..|ops| - 1]);
      ClosedGateIsQuiet(s, ops[..|ops| - 1]);
      match ops[|ops| - 1]
      case ReleaseUsb(flush) =>
        FlushIsQuiet(t.usb.(pending := true, log := t.usb.log + [U.Requested]), flush);
      case _ =>
    }
  }

  lemma RunOne(s: State, op: Op)
    ensures Run(s, [op]) == Step(s, op)
  {
    assert [op][..0] == [];
  }

  lemma {:induction false} RunConcat(s: State, a: seq<Op>, b: seq<Op>)
    ensures Run(s, a + b) == Run(Run(s, a), b)
  {
    if b == [] {
      assert a + b == a;
    } else {
      assert (a + b)[..|a + b| - 1] == a + b[..|b| - 1];
      RunConcat(s, a, b[..|b| - 1]);
    }
  }

  lemma StepLogGrows(s: State, op: Op)
    ensures s.usb.log <= Step(s, op).usb.log
  {
    match op
    case InputOp(input, flush, io) =>
      if s.active && WellSized(input) {
        FlushIsQuiet(s.usb, flush);
      }
    case ReleaseUsb(flush) => FlushIsQuiet(s.usb.(pending := true, log := s.usb.log + [U.Requested]), flush);
    case _ =>
  }

  lemma {:induction false} LogOnlyGrows(s: State, ops: seq<Op>)
    ensures s.usb.log <= Run(s, ops).usb.log
  {
    if ops != [] {
      LogOnlyGrows(s, ops[..|ops| - 1]);
      StepLogGrows(Run(s, ops[..|ops| - 1]), ops[|ops| - 1]);
    }
  }

  /**
   No stuck input. Take any history, then a bridge_release_all (with other contexts running between
   its halves), then anything at all except the gate reopening. From the closing of the gate on, no
   ordinary report is submitted, and once the release has been requested either it is still owed or
   the last report of every kind that the host took is all zero.
   */
  lemma NoStuckInput(history: seq<Op>, between: seq<Op>, flush: U.FlushIo, after: seq<Op>)
    requires NeverOpens(between) && NeverOpens(after)
    ensures var before := Run(Init(), history);
            var s := Run(Init(), history + ([CloseGate] + between + [ReleaseUsb(flush)] + after));
            && !s.active
            && Quiet(before.usb.log, s.usb.log)
            && (s.usb.pending || U.AllReleased(s.usb.log))
  {
    var before := Run(Init(), history);
    var ops := [CloseGate] + between + [ReleaseUsb(flush)] + after;
    RunConcat(Init(), history, ops);
    assert ops == [CloseGate] + (between + [ReleaseUsb(flush)] + after);
    RunConcat(before, [CloseGate], between + [ReleaseUsb(flush)] + after);
    assert [CloseGate][..0] == [] && Run(before, [CloseGate]) == Step(before, CloseGate);
    var closed := Step(before, CloseGate);
    ClosedGateIsQuiet(closed, between + [ReleaseUsb(flush)] + after);
    var s := Run(closed, between + [ReleaseUsb(flush)] + after);
    RequestStands(closed, between, flush, after);
    RunKeepsInv(history + ops);
    var j :| closed.usb.log <= s.usb.log && |closed.usb.log| <= j && U.Unanswered(s.usb.log, j);
    U.UnansweredIsSafe(s.usb, j);
  }

  lemma RequestStands(closed: State, between: seq<Op>, flush: U.FlushIo, after: seq<Op>)
    requires !closed.active && NeverOpens(between) && NeverOpens(after)
    ensures var s := Run(closed, between + [ReleaseUsb(flush)] + after);
            exists j :: |closed.usb.log| <= j && U.Unanswered(s.usb.log, j)
  {
    var ops := between + [ReleaseUsb(flush)] + after;
    var t := Run(closed, between);
    var t' := Step(t, ReleaseUsb(flush));
    var s := Run(closed, ops);
    RunConcat(closed, between + [ReleaseUsb(flush)], after);
    assert (between + [ReleaseUsb(flush)])[..|between|] == between;
    assert Run(closed, between + [ReleaseUsb(flush)]) == t';
    ClosedGateIsQuiet(closed, between);
    ClosedGateIsQuiet(closed, ops);
    FlushIsQuiet(t.usb.(pending := true, log := t.usb.log + [U.Requested]), flush);
    LogOnlyGrows(t', after);
    var j := |t.usb.log|;
    assert (t.usb.log + [U.Requested])[j].Requested?;
    assert s.usb.log[j].Requested?;
    assert U.Unanswered(s.usb.log, j);
  }

  // ---------- What reaches the host ----------

  /** The endpoint is free, no release is owed, and the write is complete. */
  ghost predicate Flows(s: State, report: U.Report, io: U.Io) {
    s.active && !s.usb.pending && U.Submits(s.usb, report, io)
  }

  /** A byte as int8_t, widened to int16_t and written little-endian. */
  function SignExtended(b: Byte): seq<Byte> {
    [b, if b < 0x80 then 0 else 0xff]
  }

  lemma SignedPutsExtended(b: Byte)
    ensures PutLe16(Signed8(b)) == SignExtended(b)
  {
  }

  /** A notification that the bridge passes on. */
  predicate Deliverable(e: HogInput.Event) {
    || (e.role.KeyboardInput? && |e.payload| == 8)
    || (e.role.ConsumerInput? && |e.payload| == 2)
    || (e.role.MouseInput? && (|e.payload| == 5 || |e.payload| == 9))
  }

  /** The bytes the host is to see for it. */
  function HostReport(e: HogInput.Event): U.Report
    requires Deliverable(e)
  {
    var p := e.payload;
    if e.role == KeyboardInput then [1] + p
    else if e.role == ConsumerInput then [2] + p
    else
      var head := [3, (p[0] as int % 32) as Byte];
      if |p| == 9 then head + p[1..]
      else head + SignExtended(p[1]) + SignExtended(p[2]) + SignExtended(p[3]) + SignExtended(p[4])
  }

  lemma ConsumerBytesPass(p: seq<Byte>)
    requires |p| == CONSUMER_BODY_LEN
    ensures ReportFor(ConsumerBytes(p)) == [U.CONSUMER_ID] + p
  {
    assert Usage(p) % 0x100 == p[0] as int && Usage(p) / 0x100 == p[1] as int;
  }

  lemma ExtendedBytesPass(p: seq<Byte>)
    requires |p| == EXTENDED_LEN
    ensures U.MouseReport(Decode(p).value) == [U.MOUSE_ID, (p[0] as int % 32) as Byte] + p[1..]
  {
    Le16RoundTrip(p[1], p[2]);
    Le16RoundTrip(p[3], p[4]);
    Le16RoundTrip(p[5], p[6]);
    Le16RoundTrip(p[7], p[8]);
    assert [p[1], p[2]] + [p[3], p[4]] + [p[5], p[6]] + [p[7], p[8]] == p[1..];
    assert U.MouseReport(Decode(p).value)
        == [U.MOUSE_ID, (p[0] as int % 32) as Byte] + ([p[1], p[2]] + [p[3], p[4]] + [p[5], p[6]] + [p[7], p[8]]);
  }

  lemma CompactBytesPass(p: seq<Byte>)
    requires |p| == COMPACT_LEN
    ensures U.MouseReport(Decode(p).value)
         == [U.MOUSE_ID, (p[0] as int % 32) as Byte]
            + SignExtended(p[1]) + SignExtended(p[2]) + SignExtended(p[3]) + SignExtended(p[4])
  {
    SignedPutsExtended(p[1]);
    SignedPutsExtended(p[2]);
    SignedPutsExtended(p[3]);
    SignedPutsExtended(p[4]);
  }

  lemma HostReportIsBuilt(e: HogInput.Event)
    requires Deliverable(e)
    ensures BridgeQueuedInput(e).Pass? && WellSized(BridgeQueuedInput(e).input)
    ensures ReportFor(BridgeQueuedInput(e).input) == HostReport(e)
  {
    var p := e.payload;
    if e.role.KeyboardInput? {
      assert ReportFor(KeyboardBytes(p)) == [U.KEYBOARD_ID] + p;
    } else if e.role.ConsumerInput? {
      ConsumerBytesPass(p);
    } else if |p| == EXTENDED_LEN {
      ExtendedBytesPass(p);
    } else {
      CompactBytesPass(p);
    }
  }

  /** A keyboard or consumer notification of the right size reaches the host byte for byte. */
  lemma BodiesReachHostUnchanged(s: State, e: HogInput.Event, flush: U.FlushIo, io: U.Io)
    requires || (e.role.KeyboardInput? && |e.payload| == KEYBOARD_BODY_LEN)
             || (e.role.ConsumerInput? && |e.payload| == CONSUMER_BODY_LEN)
    requires var id := if e.role.KeyboardInput? then U.KEYBOARD_ID else U.CONSUMER_ID; Flows(s, [id] + e.payload, io)
    ensures var id := if e.role.KeyboardInput? then U.KEYBOARD_ID else U.CONSUMER_ID;
            && BridgeQueuedInput(e).Pass?
            && var r := HandleInput(s, BridgeQueuedInput(e).input, flush, io);
               r.1 == OK && r.0.usb.log == s.usb.log + [U.Sent([id] + e.payload, true)]
  {
    HostReportIsBuilt(e);
  }

  /** A 9-byte mouse notification reaches the host unchanged but for the three unused button bits. */
  lemma ExtendedMouseReachesHost(s: State, e: HogInput.Event, flush: U.FlushIo, io: U.Io)
    requires e.role.MouseInput? && |e.payload| == EXTENDED_LEN
    requires Flows(s, [U.MOUSE_ID, (e.payload[0] as int % 32) as Byte] + e.payload[1..], io)
    ensures && BridgeQueuedInput(e).Pass?
            && var r := HandleInput(s, BridgeQueuedInput(e).input, flush, io);
               && r.1 == OK
               && r.0.usb.log == s.usb.log
                    + [U.Sent([U.MOUSE_ID, (e.payload[0] as int % 32) as Byte] + e.payload[1..], true)]
  {
    HostReportIsBuilt(e);
  }

  /** A 5-byte mouse notification reaches the host with every delta sign-extended to 16 bits. */
  lemma CompactMouseReachesHost(s: State, e: HogInput.Event, flush: U.FlushIo, io: U.Io)
    requires e.role.MouseInput? && |e.payload| == COMPACT_LEN
    requires var p := e.payload;
             Flows(s, [U.MOUSE_ID, (p[0] as int % 32) as Byte]
                      + SignExtended(p[1]) + SignExtended(p[2]) + SignExtended(p[3]) + SignExtended(p[4]), io)
    ensures && BridgeQueuedInput(e).Pass?
            && var p := e.payload;
               var r := HandleInput(s, BridgeQueuedInput(e).input, flush, io);
               && r.1 == OK
               && r.0.usb.log == s.usb.log + [U.Sent([U.MOUSE_ID, (p[0] as int % 32) as Byte]
                    + SignExtended(p[1]) + SignExtended(p[2]) + SignExtended(p[3]) + SignExtended(p[4]), true)]
  {
    HostReportIsBuilt(e);
  }

  /** A release is owed, and its three reports and then this one go through. */
  ghost predicate FlowsAfterRelease(s: State, report: U.Report, flush: U.FlushIo, io: U.Io) {
    var taken := s.usb.(inReady := 0);
    && s.active && s.usb.pending
    && U.Submits(s.usb, U.KEYBOARD_RELEASE, flush.keyboard)
    && U.Submits(taken, U.CONSUMER_RELEASE, flush.consumer)
    && U.Submits(taken, U.MOUSE_RELEASE, flush.mouse)
    && U.Submits(taken, report, io)
  }

  /** The first notification after a release reaches the host right behind the three zero reports. */
  lemma FirstReportFollowsTriple(s: State, e: HogInput.Event, flush: U.FlushIo, io: U.Io)
    requires Deliverable(e) && FlowsAfterRelease(s, HostReport(e), flush, io)
    ensures BridgeQueuedInput(e).Pass?
    ensures var (t, status) := HandleInput(s, BridgeQueuedInput(e).input, flush, io);
            && status == OK && !t.usb.pending
            && t.usb.log == s.usb.log + U.Triple() + [U.Sent(HostReport(e), true)]
  {
    HostReportIsBuilt(e);
    U.TripleByOne(s.usb.log);
  }

  /**
   Whatever state the device was in: once the host configures it, the next notification is delivered while
   the gate is open and the driver takes whole reports, behind the three zero reports if a release is owed.
   */
  lemma ConfiguredDelivers(s: State, e: HogInput.Event, flush: U.FlushIo, io: U.Io)
    requires s.active && Deliverable(e) && U.Written(HostReport(e), io)
    requires s.usb.pending ==> U.FlushWritten(flush) && io.readyInTime
    ensures BridgeQueuedInput(e).Pass?
    ensures var (t, status) := HandleInput(Step(s, StatusOp(U.Configured)), BridgeQueuedInput(e).input, flush, io);
            && status == OK && !t.usb.pending
            && t.usb.log == s.usb.log + (if s.usb.pending then U.Triple() else []) + [U.Sent(HostReport(e), true)]
  {
    HostReportIsBuilt(e);
    U.ConfiguredSends(s.usb, HostReport(e), flush, io);
  }

  /** Once delivered, it occupies the endpoint: the next one waits for the endpoint, or for word from it. */
  lemma EndpointFreesTheNext(s: State, e: HogInput.Event, io: U.Io, flush: U.FlushIo)
    requires s.active && s.usb.configured && !s.usb.pending && s.usb.inReady == 0
    requires Deliverable(e) && U.Written(HostReport(e), io) && BridgeQueuedInput(e).Pass?
    ensures var sent := s.usb.log + [U.Sent(HostReport(e), true)];
            var input := BridgeQueuedInput(e).input;
            && HandleInput(Step(s, ReadyOp), input, flush, io).0.usb.log == sent
            && HandleInput(s, input, flush, io).0.usb.log == (if io.readyInTime then sent else s.usb.log)
            && HandleInput(s, input, flush, io).1 == (if io.readyInTime then OK else QUEUE_FULL)
  {
    HostReportIsBuilt(e);
  }

  /** From a reset or a disconnect of the host until it configures the device again, nothing is submitted. */
  lemma {:induction false} SilentUntilConfigured(s: State, ops: seq<Op>)
    requires forall i :: 0 <= i < |ops| ==> ops[i] != StatusOp(U.Configured)
    ensures var t := Run(Step(s, StatusOp(U.ResetOrDisconnected)), ops);
            !t.usb.configured && U.NothingSent(s.usb.log, t.usb.log)
  {
    if ops != [] {
      var t := Run(Step(s, StatusOp(U.ResetOrDisconnected)), ops[..|ops| - 1]);
      SilentUntilConfigured(s, ops[..|ops| - 1]);
      UnconfiguredStep(t, ops[|ops| - 1]);
    }
  }

  lemma UnconfiguredStep(s: State, op: Op)
    requires !s.usb.configured && op != StatusOp(U.Configured)
    ensures var t := Step(s, op); !t.usb.configured && U.NothingSent(s.usb.log, t.usb.log)
  {
  }

  // ---------- What does not get through, and what is remembered ----------

  /** bridge_queued_input with the call it makes. */
  function Deliver(s: State, e: HogInput.Event, flush: U.FlushIo, io: U.Io): (State, Status) {
    match BridgeQueuedInput(e)
    case Pass(input) => HandleInput(s, input, flush, io)
    case Refuse(status) => (s, status)
  }

  /**
   A notification of another role, of a wrong length, or behind a closed gate leaves everything as it is; only a
   wrong length is an error, which for a mouse is noticed even behind the closed gate.
   */
  lemma OthersAreRefused(s: State, e: HogInput.Event, flush: U.FlushIo, io: U.Io)
    requires !Deliverable(e) || !s.active
    ensures Deliver(s, e, flush, io).0 == s
    ensures Deliver(s, e, flush, io).1 ==
            if Deliverable(e) || e.role == MouseFeature || e.role == LedOutput || e.role == Unknown then OK
            else if s.active || e.role == MouseInput then SIZE_MISMATCH else OK
  {
  }

  predicate AllZero(bytes: seq<Byte>, len: nat) {
    |bytes| == len && forall i :: 0 <= i < len ==> bytes[i] == 0
  }

  ghost predicate Blank(s: State) {
    && AllZero(s.keyboard, 8) && AllZero(s.consumer, 2)
    && s.mouse.buttons == 0 && s.mouse.dx == 0 && s.mouse.dy == 0 && s.mouse.scrollY == 0 && s.mouse.scrollX == 0
  }

  /** Over every run a closed gate remembers nothing of what was held. */
  lemma {:induction false} ClosedGateForgets(ops: seq<Op>)
    ensures !Run(Init(), ops).active ==> Blank(Run(Init(), ops))
  {
    if ops != [] {
      ClosedGateForgets(ops[..|ops| - 1]);
      ClosedStepForgets(Run(Init(), ops[..|ops| - 1]), ops[|ops| - 1]);
    }
  }

  lemma ClosedStepForgets(s: State, op: Op)
    requires !s.active ==> Blank(s)
    ensures !Step(s, op).active ==> Blank(Step(s, op))
    ensures op.ResetStateOp? ==> Blank(Step(s, op)) && Step(s, op).active == s.active && Step(s, op).usb == s.usb
  {
  }

  /** Opening the gate changes nothing else; closing it forgets what was held and leaves the USB side alone. */
  lemma GateSwitch(s: State)
    ensures Step(s, SetActiveOp(true)) == s.(active := true)
    ensures var t := Step(s, SetActiveOp(false)); !t.active && Blank(t) && t.usb == s.usb
    ensures Step(s, CloseGate) == Step(s, SetActiveOp(false))
  {
  }

  /** What passes an open gate is remembered for its kind and for no other, whatever becomes of the report. */
  lemma PassedIsRemembered(s: State, e: HogInput.Event, flush: U.FlushIo, io: U.Io)
    requires s.active && Deliverable(e)
    ensures var t := Deliver(s, e, flush, io).0;
            && t.active
            && t.keyboard == (if e.role == KeyboardInput then e.payload else s.keyboard)
            && t.consumer == (if e.role == ConsumerInput then e.payload else s.consumer)
            && t.mouse == (if e.role == MouseInput then Decode(e.payload).value else s.mouse)
  {
  }

  // ---------- The code ----------

  class Bridge {
    var keyboardState: seq<Byte>
    var consumerState: seq<Byte>
    var mouseState: MouseBody
    var inputActive: bool
    const usb: U.UsbBridge

    ghost function View(): State
      reads this, usb
    {
      State(keyboardState, consumerState, mouseState, inputActive, usb.View())
    }

    constructor (usb: U.UsbBridge)
      requires usb.View() == U.Init()
      ensures this.usb == usb && View() == Init()
    {
      this.usb := usb;
      keyboardState, consumerState, mouseState := NO_KEYS, NO_USAGE, NO_MOTION;
      inputActive := false;
    }

    method ResetStateLocked()
      modifies this
      ensures View() == ResetState(old(View()))
    {
      keyboardState, consumerState, mouseState := NO_KEYS, NO_USAGE, NO_MOTION;
    }

    method SetActive(active: bool)
      modifies this
      ensures View() == SetInputActive(old(View()), active)
    {
      inputActive := active;
      if !active {
        ResetStateLocked();
      }
    }

    /** bridge_release_all, with no other context between its two locked sections. */
    method ReleaseAllInput(flush: U.FlushIo) returns (status: Status)
      modifies this, usb
      ensures View() == Run(old(View()), [CloseGate, ReleaseUsb(flush)])
      ensures status == U.ReleaseAll(old(usb.View()), flush).1
    {
      inputActive := false;
      ResetStateLocked();
      status := usb.ReleaseAllReports(flush);
      ghost var ops := [CloseGate, ReleaseUsb(flush)];
      assert ops[..1] == [CloseGate] && ops[..1][..0] == [];
      assert Run(old(View()), ops[..1]) == Step(old(View()), CloseGate);
    }

    method HandleQueuedInput(input: Input, flush: U.FlushIo, io: U.Io) returns (status: Status)
      modifies this, usb
      ensures (View(), status) == HandleInput(old(View()), input, flush, io)
    {
      if !inputActive {
        return OK;
      }
      match input
      case KeyboardBytes(bytes) =>
        if |bytes| != KEYBOARD_BODY_LEN {
          return SIZE_MISMATCH;
        }
        keyboardState := bytes;
        var report := U.KeyboardReport(keyboardState[0], keyboardState[1], keyboardState[2..]);
        status := usb.SendAfterFlush(report, flush, io);
      case ConsumerBytes(bytes) =>
        if |bytes| != CONSUMER_BODY_LEN {
          return SIZE_MISMATCH;
        }
        consumerState := bytes;
        status := usb.SendAfterFlush(U.ConsumerReport(Usage(consumerState)), flush, io);
      case MouseStruct(body) =>
        mouseState := body;
        status := usb.SendAfterFlush(U.MouseReport(mouseState), flush, io);
    }
  }
}
