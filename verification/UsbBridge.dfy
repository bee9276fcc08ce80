/**
 Report submission of main/src/usb_bridge.c: the IN endpoint, the sticky release request and the
 three-report flush. Each operation holds the USB lock; host status changes fall between them.
 */
module UsbBridge {
  import opened Basics
  import opened MouseCodec

  /** A report as the endpoint receives it: the report id, then the body. */
  type Report = seq<Byte>

  const KEYBOARD_ID: Byte := 1
  const CONSUMER_ID: Byte := 2
  const MOUSE_ID: Byte := 3

  const KEYBOARD_RELEASE: Report := [KEYBOARD_ID, 0, 0, 0, 0, 0, 0, 0, 0]
  const CONSUMER_RELEASE: Report := [CONSUMER_ID, 0, 0]
  const MOUSE_RELEASE: Report := [MOUSE_ID, 0, 0, 0, 0, 0, 0, 0, 0, 0]

  /** How one submission goes: the wait for the endpoint, the driver's return code, bytes written. */
  datatype Io = Io(readyInTime: bool, ret: int, wrote: int)

  datatype FlushIo = FlushIo(keyboard: Io, consumer: Io, mouse: Io)

  datatype HostStatus = Configured | ResetOrDisconnected | OtherStatus

  /** What happened on the USB side: release requests, and reports the endpoint took completely. */
  datatype LogEntry = Requested | Sent(report: Report, ordinary: bool)

  datatype Usb = Usb(configured: bool, pending: bool, inReady: nat, log: seq<LogEntry>)

  function MapUsbError(err: int): Status {
    if err == 0 then OK
    else if err == -22 then INVALID_ARGUMENT
    else if err == -12 then NO_MEMORY
    else if err == -11 || err == -16 then QUEUE_FULL
    else INVALID_STATE
  }

  predicate Submits(u: Usb, report: Report, io: Io) {
    u.configured && (u.inReady > 0 || io.readyInTime) && io.ret == 0 && io.wrote == |report|
  }

  /** send_report_locked */
  function SendReport(u: Usb, report: Report, ordinary: bool, io: Io): (Usb, Status) {
    if !u.configured then (u, OK)
    else if u.inReady == 0 && !io.readyInTime then (u, QUEUE_FULL)
    else if io.ret != 0 then (u.(inReady := 1), MapUsbError(io.ret))
    else if io.wrote != |report| then (u.(inReady := 1), INVALID_STATE)
    else (u.(inReady := 0, log := u.log + [Sent(report, ordinary)]), OK)
  }

  /** flush_safe_state_locked */
  function Flush(u: Usb, io: FlushIo): (Usb, Status) {
    if !u.pending || !u.configured then (u, OK)
    else
      var (u1, s1) := SendReport(u, KEYBOARD_RELEASE, false, io.keyboard);
      if s1 != OK then (u1, s1)
      else
        var (u2, s2) := SendReport(u1, CONSUMER_RELEASE, false, io.consumer);
        if s2 != OK then (u2, s2)
        else
          var (u3, s3) := SendReport(u2, MOUSE_RELEASE, false, io.mouse);
          if s3 != OK then (u3, s3) else (u3.(pending := false), OK)
  }

  /** The common shape of send_keyboard, send_consumer and send_mouse. */
  function Send(u: Usb, report: Report, flush: FlushIo, io: Io): (Usb, Status) {
    var (u1, s) := Flush(u, flush);
    if s != OK || !u1.configured then (u1, s) else SendReport(u1, report, true, io)
  }

  function ReleaseAll(u: Usb, io: FlushIo): (Usb, Status) {
    Flush(u.(pending := true, log := u.log + [Requested]), io)
  }

  /** usb_bridge_init: a release is owed from the start. */
  function Init(): Usb {
    Usb(false, true, 1, [Requested])
  }

  function OnStatus(u: Usb, status: HostStatus): Usb {
    match status
    case Configured => u.(configured := true, inReady := 1)
    case ResetOrDisconnected => u.(configured := false, inReady := 1)
    case OtherStatus => u
  }

  datatype Op =
    | SendOp(report: Report, flush: FlushIo, io: Io)
    | ReleaseOp(flush: FlushIo)
    | StatusOp(status: HostStatus)
    | ReadyOp

  function Step(u: Usb, op: Op): Usb {
    match op
    case SendOp(report, flush, io) => Send(u, report, flush, io).0
    case ReleaseOp(flush) => ReleaseAll(u, flush).0
    case StatusOp(status) => OnStatus(u, status)
    case ReadyOp => u.(inReady := 1)
  }

  function Run(u: Usb, ops: seq<Op>): Usb {
    if ops == [] then u else Step(Run(u, ops[..|ops| - 1]), ops[|ops| - 1])
  }

  // ---------- Releases come first ----------

  function Triple(): seq<LogEntry> {
    [Sent(KEYBOARD_RELEASE, false), Sent(CONSUMER_RELEASE, false), Sent(MOUSE_RELEASE, false)]
  }

  predicate Ordinary(e: LogEntry) {
    e.Sent? && e.ordinary
  }

  /** `log[j]` is a release request that no ordinary report has followed yet. */
  ghost predicate Unanswered(log: seq<LogEntry>, j: int) {
    0 <= j < |log| && log[j].Requested? && forall k :: j < k < |log| ==> !Ordinary(log[k])
  }

  /** An ordinary report may come next: every unanswered request precedes a closing triple. */
  ghost predicate MaySend(log: seq<LogEntry>) {
    forall j :: Unanswered(log, j) ==> j < |log| - 3 && log[|log| - 3..] == Triple()
  }

  /** Every ordinary report in the log was allowed when it was submitted. */
  ghost predicate ReleasesFirst(log: seq<LogEntry>) {
    forall i :: 0 <= i < |log| && Ordinary(log[i]) ==> MaySend(log[..i])
  }

  ghost predicate Inv(u: Usb) {
    ReleasesFirst(u.log) && (!u.pending ==> MaySend(u.log)) && u.inReady <= 1
  }

  lemma AppendKeeps(log: seq<LogEntry>, e: LogEntry)
    requires ReleasesFirst(log) && (Ordinary(e) ==> MaySend(log))
    ensures ReleasesFirst(log + [e])
    ensures Ordinary(e) ==> MaySend(log + [e])
  {
    var longer := log + [e];
    forall i | 0 <= i < |longer| && Ordinary(longer[i]) ensures MaySend(longer[..i]) {
      assert longer[..i] == log[..i];
      if i == |log| {
        assert log[..i] == log;
      }
    }
    if Ordinary(e) {
      assert longer[|log|] == e;
      assert forall j :: !Unanswered(longer, j);
    }
  }

  lemma TripleAllows(log: seq<LogEntry>)
    ensures MaySend(log + Triple())
  {
    var longer := log + Triple();
    assert longer[|longer| - 3..] == Triple();
    assert forall k :: |log| <= k < |longer| ==> longer[k] == Triple()[k - |log|];
  }

  lemma TripleByOne(log: seq<LogEntry>)
    ensures log + [Sent(KEYBOARD_RELEASE, false)] + [Sent(CONSUMER_RELEASE, false)] + [Sent(MOUSE_RELEASE, false)]
            == log + Triple()
  {
  }

  /** Submitting a release report while the request is pending. */
  lemma ReleaseKeepsInv(u: Usb, report: Report, io: Io)
    requires Inv(u) && u.pending && u.configured
    ensures var (t, status) := SendReport(u, report, false, io);
            && Inv(t) && t.pending && t.configured
            && t.log == if status == OK then u.log + [Sent(report, false)] else u.log
  {
    AppendKeeps(u.log, Sent(report, false));
  }

  lemma FlushKeepsInv(u: Usb, io: FlushIo)
    requires Inv(u)
    ensures Inv(Flush(u, io).0)
    ensures Flush(u, io).1 == OK && u.configured ==> !Flush(u, io).0.pending
    ensures Flush(u, io).0.configured == u.configured
  {
    if u.pending && u.configured {
      var (u1, s1) := SendReport(u, KEYBOARD_RELEASE, false, io.keyboard);
      ReleaseKeepsInv(u, KEYBOARD_RELEASE, io.keyboard);
      if s1 == OK {
        var (u2, s2) := SendReport(u1, CONSUMER_RELEASE, false, io.consumer);
        ReleaseKeepsInv(u1, CONSUMER_RELEASE, io.consumer);
        if s2 == OK {
          ReleaseKeepsInv(u2, MOUSE_RELEASE, io.mouse);
          TripleByOne(u.log);
          TripleAllows(u.log);
        }
      }
    }
  }

  lemma StepKeepsInv(u: Usb, op: Op)
    requires Inv(u)
    ensures Inv(Step(u, op))
  {
    match op
    case SendOp(report, flush, io) =>
      FlushKeepsInv(u, flush);
      var u1 := Flush(u, flush).0;
      if !u1.pending {
        AppendKeeps(u1.log, Sent(report, true));
      }
    case ReleaseOp(flush) =>
      AppendKeeps(u.log, Requested);
      FlushKeepsInv(u.(pending := true, log := u.log + [Requested]), flush);
    case StatusOp(_) =>
    case ReadyOp =>
  }

  lemma {:induction false} RunKeepsInv(u: Usb, ops: seq<Op>)
    requires Inv(u)
    ensures Inv(Run(u, ops))
  {
    if ops != [] {
      RunKeepsInv(u, ops[..|ops| - 1]);
      StepKeepsInv(Run(u, ops[..|ops| - 1]), ops[|ops| - 1]);
    }
  }

  /**
   Over every run of sends, release requests, write failures, timeouts and host resets: the first
   ordinary report after a release request directly follows a complete release triple that was
   itself submitted after that request.
   */
  lemma ReleaseBeforeOrdinary(ops: seq<Op>, j: nat, i: nat)
    requires var log := Run(Init(), ops).log;
             && j < i < |log| && log[j].Requested? && Ordinary(log[i])
             && forall k :: j < k < i ==> !Ordinary(log[k])
    ensures j < i - 3 && Run(Init(), ops).log[i - 3..i] == Triple()
  {
    assert Inv(Init());
    RunKeepsInv(Init(), ops);
    var log := Run(Init(), ops).log;
    assert Unanswered(log[..i], j);
    assert log[..i][i - 3..] == log[i - 3..i];
  }

  /** A release leaves the request standing unless the host is configured and took all three reports. */
  lemma ReleaseClearsExactlyWhenComplete(u: Usb, io: FlushIo)
    ensures var r := ReleaseAll(u, io);
            && (!r.0.pending <==>
                  && Submits(u, KEYBOARD_RELEASE, io.keyboard)
                  && Submits(u.(inReady := 0), CONSUMER_RELEASE, io.consumer)
                  && Submits(u.(inReady := 0), MOUSE_RELEASE, io.mouse))
            && (!r.0.pending ==> r.0.log == u.log + [Requested] + Triple())
            && (u.configured ==> (r.1 == OK <==> !r.0.pending))
  {
    var u0 := u.(pending := true, log := u.log + [Requested]);
    TripleByOne(u0.log);
  }

  // ---------- What the host is left holding ----------

  /** A report of `len` bytes with this id and nothing but zeroes behind it. */
  predicate Zero(report: Report, id: Byte, len: nat) {
    |report| == len > 0 && report[0] == id && forall k :: 0 < k < len ==> report[k] == 0
  }

  predicate SentFor(e: LogEntry, id: Byte) {
    e.Sent? && e.report != [] && e.report[0] == id
  }

  /** There is a last report in the log with this id, and it is all zero. */
  ghost predicate LastIsZero(log: seq<LogEntry>, id: Byte, len: nat) {
    exists i :: 0 <= i < |log| && log[i].Sent? && Zero(log[i].report, id, len) &&
                forall k :: i < k < |log| ==> !SentFor(log[k], id)
  }

  /** The host sees no key (id 1), usage (id 2) or button (id 3) held. */
  ghost predicate AllReleased(log: seq<LogEntry>) {
    LastIsZero(log, 1, 9) && LastIsZero(log, 2, 3) && LastIsZero(log, 3, 10)
  }

  lemma TripleReleasesAll(log: seq<LogEntry>)
    requires |log| >= 3 && log[|log| - 3..] == Triple()
    ensures AllReleased(log)
  {
    var n := |log|;
    assert log[n - 3] == Triple()[0] && log[n - 2] == Triple()[1] && log[n - 1] == Triple()[2];
    assert Zero(log[n - 3].report, 1, 9) && Zero(log[n - 2].report, 2, 3) && Zero(log[n - 1].report, 3, 10);
  }

  /** While a request is unanswered, either it is still owed or the host holds nothing. */
  lemma UnansweredIsSafe(u: Usb, j: nat)
    requires Inv(u) && Unanswered(u.log, j)
    ensures u.pending || AllReleased(u.log)
  {
    if !u.pending {
      TripleReleasesAll(u.log);
    }
  }

  // ---------- What the host's status decides ----------

  /** `log` is `before` and then release requests only. */
  ghost predicate NothingSent(before: seq<LogEntry>, log: seq<LogEntry>) {
    before <= log && forall k :: |before| <= k < |log| ==> log[k].Requested?
  }

  lemma {:induction false} UnconfiguredIsSilent(u: Usb, ops: seq<Op>)
    requires !u.configured && forall i :: 0 <= i < |ops| ==> ops[i] != StatusOp(Configured)
    ensures var t := Run(u, ops); !t.configured && NothingSent(u.log, t.log)
  {
    if ops != [] {
      UnconfiguredIsSilent(u, ops[..|ops| - 1]);
    }
  }

  /** From power-up, a reset or a disconnect until the host configures the device, nothing is submitted. */
  lemma {:induction false} SilentUntilConfigured(u: Usb, ops: seq<Op>)
    requires forall i :: 0 <= i < |ops| ==> ops[i] != StatusOp(Configured)
    ensures NothingSent(u.log, Run(Step(u, StatusOp(ResetOrDisconnected)), ops).log)
    ensures Step(u, StatusOp(ResetOrDisconnected)) == u.(configured := false, inReady := 1)
    ensures NothingSent([], Run(Init(), ops).log)
  {
    UnconfiguredIsSilent(Step(u, StatusOp(ResetOrDisconnected)), ops);
    UnconfiguredIsSilent(Init(), ops);
    assert Init().log[0].Requested?;
  }

  /** Once configured, the device stays so until a reset or disconnect. */
  lemma {:induction false} StaysConfigured(u: Usb, ops: seq<Op>)
    requires forall i :: 0 <= i < |ops| ==> ops[i] != StatusOp(ResetOrDisconnected)
    ensures Run(Step(u, StatusOp(Configured)), ops).configured
  {
    if ops != [] {
      var t := Run(Step(u, StatusOp(Configured)), ops[..|ops| - 1]);
      StaysConfigured(u, ops[..|ops| - 1]);
      StepStaysConfigured(t, ops[|ops| - 1]);
    }
  }

  lemma StepStaysConfigured(u: Usb, op: Op)
    requires u.configured && op != StatusOp(ResetOrDisconnected)
    ensures Step(u, op).configured
  {
  }

  /** The driver takes the whole report. */
  predicate Written(report: Report, io: Io) {
    io.ret == 0 && io.wrote == |report|
  }

  /** The driver takes whole release reports, and the endpoint comes free in time for the last two. */
  predicate FlushWritten(flush: FlushIo) {
    && Written(KEYBOARD_RELEASE, flush.keyboard)
    && Written(CONSUMER_RELEASE, flush.consumer) && flush.consumer.readyInTime
    && Written(MOUSE_RELEASE, flush.mouse) && flush.mouse.readyInTime
  }

  /** Whatever came before: the first report after the device is configured goes out, behind an owed release. */
  lemma ConfiguredSends(u: Usb, report: Report, flush: FlushIo, io: Io)
    requires Written(report, io) && (u.pending ==> FlushWritten(flush) && io.readyInTime)
    ensures var (t, status) := Send(Step(u, StatusOp(Configured)), report, flush, io);
            && status == OK && !t.pending
            && t.log == u.log + (if u.pending then Triple() else []) + [Sent(report, true)]
  {
    TripleByOne(u.log);
    assert u.log + [] == u.log;
  }

  /**
   A submission that the driver refuses or cuts short does not occupy the endpoint: the next one needs no
   waiting. One that it takes occupies it until the endpoint or the host's status says otherwise.
   */
  lemma OnlyTakenReportsOccupy(u: Usb, report: Report, flush: FlushIo, io: Io, next: Report, later: Io)
    requires u.configured && !u.pending && (u.inReady > 0 || io.readyInTime) && Written(next, later)
    ensures var t := Step(u, SendOp(report, flush, io));
            && (!Written(report, io) ==>
                  t.log == u.log && Send(t, next, flush, later).0.log == u.log + [Sent(next, true)])
            && (Written(report, io) ==>
                  && t.log == u.log + [Sent(report, true)]
                  && (Send(t, next, flush, later).0.log == t.log + [Sent(next, true)] <==> later.readyInTime)
                  && (Send(t, next, flush, later).1 == QUEUE_FULL <==> !later.readyInTime)
                  && Send(Step(t, ReadyOp), next, flush, later).0.log == t.log + [Sent(next, true)])
  {
  }

  function ToldOf(u: Usb, report: Report, io: Io): Status {
    if u.inReady == 0 && !io.readyInTime then QUEUE_FULL
    else if io.ret == 0 then if io.wrote == |report| then OK else INVALID_STATE
    else if io.ret == -22 then INVALID_ARGUMENT
    else if io.ret == -12 then NO_MEMORY
    else if io.ret == -11 || io.ret == -16 then QUEUE_FULL
    else INVALID_STATE
  }

  /** What a caller is told: OK for a whole report, else a busy endpoint, the driver's error, or a short write. */
  lemma SendStatusExactly(u: Usb, report: Report, flush: FlushIo, io: Io)
    requires !u.configured || !u.pending
    ensures !u.configured ==> Send(u, report, flush, io) == (u, OK)
    ensures u.configured ==> Send(u, report, flush, io).1 == ToldOf(u, report, io)
  {
  }

  // ---------- The code ----------

  function KeyboardReport(modifiers: Byte, reserved: Byte, keys: seq<Byte>): Report {
    [KEYBOARD_ID, modifiers, reserved] + keys
  }

  function ConsumerReport(usage: int): Report
    requires 0 <= usage < 0x10000
  {
    [CONSUMER_ID, (usage % 0x100) as Byte, (usage / 0x100) as Byte]
  }

  /** Only the five buttons of the descriptor are reported. */
  function MouseReport(m: MouseBody): Report {
    [MOUSE_ID, (m.buttons as int % 32) as Byte]
    + PutLe16(m.dx) + PutLe16(m.dy) + PutLe16(m.scrollY) + PutLe16(m.scrollX)
  }

  class UsbBridge {
    var usbConfigured: bool
    var safeStatePending: bool
    var usbInReady: nat        // the k_sem count, limit 1
    ghost var log: seq<LogEntry>

    ghost function View(): Usb
      reads this
    {
      Usb(usbConfigured, safeStatePending, usbInReady, log)
    }

    constructor ()
      ensures View() == Init()
    {
      usbConfigured, safeStatePending, usbInReady := false, true, 1;
      log := [Requested];
    }

    method SendReportLocked(report: Report, ghost ordinary: bool, io: Io) returns (status: Status)
      modifies this
      ensures (View(), status) == SendReport(old(View()), report, ordinary, io)
    {
      if !usbConfigured {
        return OK;
      }
      if usbInReady == 0 {
        if !io.readyInTime {
          return QUEUE_FULL;
        }
        usbInReady := 1;
      }
      usbInReady := 0;
      if io.ret != 0 {
        usbInReady := 1;
        return MapUsbError(io.ret);
      }
      if io.wrote != |report| {
        usbInReady := 1;
        return INVALID_STATE;
      }
      log := log + [Sent(report, ordinary)];
      return OK;
    }

    method FlushSafeStateLocked(io: FlushIo) returns (status: Status)
      modifies this
      ensures (View(), status) == Flush(old(View()), io)
    {
      if !safeStatePending || !usbConfigured {
        return OK;
      }
      status := SendReportLocked(KEYBOARD_RELEASE, false, io.keyboard);
      if status != OK {
        return;
      }
      status := SendReportLocked(CONSUMER_RELEASE, false, io.consumer);
      if status != OK {
        return;
      }
      status := SendReportLocked(MOUSE_RELEASE, false, io.mouse);
      if status != OK {
        return;
      }
      safeStatePending := false;
      return OK;
    }

    method SendAfterFlush(report: Report, flush: FlushIo, io: Io) returns (status: Status)
      modifies this
      ensures (View(), status) == Send(old(View()), report, flush, io)
    {
      status := FlushSafeStateLocked(flush);
      if status != OK || !usbConfigured {
        return;
      }
      status := SendReportLocked(report, true, io);
    }

    method ReleaseAllReports(io: FlushIo) returns (status: Status)
      modifies this
      ensures (View(), status) == ReleaseAll(old(View()), io)
    {
      safeStatePending := true;
      log := log + [Requested];
      status := FlushSafeStateLocked(io);
    }

    method StatusChanged(status: HostStatus)
      modifies this
      ensures View() == OnStatus(old(View()), status)
    {
      match status
      case Configured =>
        usbConfigured := true;
        usbInReady := 1;
      case ResetOrDisconnected =>
        usbConfigured := false;
        usbInReady := 0;
        usbInReady := 1;
      case OtherStatus =>
    }

    method EndpointReady()
      modifies this
      ensures View() == Step(old(View()), ReadyOp)
    {
      usbInReady := 1;
    }
  }
}
