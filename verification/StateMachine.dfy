/** The top-level state machine of main/src/state_machine.c. */
module StateMachine {
  import opened Basics
  import opened EventQueue
  import opened BleManager
  import ScanControl
  import Reconnect

  datatype Phase =
    | Boot | UsbReadyState | PairingScan | ScanningKnownDevice | Connecting | ConnectedState
    | ReconnectingFast | ReconnectingBackoff | RecoveryRequired | BondErasing

  /** What handling an event did to the outside, in order. */
  datatype Effect = Released | Issued(command: Command)

  datatype State = State(
    phase: Phase, usbReady: bool, bleSynced: bool, persistReady: bool, hasBond: bool,
    ble: BleManager.State, effects: seq<Effect>)

  /** `release` is what bridge_release_all answers. */
  datatype Io = Io(ble: BleManager.Io, release: Status)

  /** sync_runtime_bond_state */
  function Sync(s: State): State {
    if s.ble.ready then s.(hasBond := s.ble.bonded) else s
  }

  /** The end of transition_to: the command is on record, and the state follows it only on success. */
  function Concluded(s: State, phase: Phase, command: Command, status: Status): State {
    s.(effects := s.effects + [Issued(command)], phase := if status == OK then phase else s.phase)
  }

  /** transition_to: the command first, the state only when it succeeded. */
  function TransitionTo(s: State, phase: Phase, command: Command, io: Io): (State, Status) {
    var (ble, status) := Execute(s.ble, command, io.ble);
    (Concluded(s.(ble := ble), phase, command, status), status)
  }

  function ScanPhase(s: State): Phase {
    if s.hasBond then ScanningKnownDevice else PairingScan
  }

  function ScanCommand(s: State): Command {
    if s.hasBond then StartKnownDeviceScan else StartPairingScan
  }

  predicate IgnoredInRecovery(e: Event) {
    e.ConnectFailure? || e.Disconnected? || e.BondMismatch?
  }

  predicate StartupEvent(e: Event) {
    e.UsbReady? || e.BleSynced? || e.PersistReadyWithBond? || e.PersistReadyNoBond?
  }

  /** The flags an event sets before anything else, and the step from BOOT once USB is ready. */
  function Prepare(s: State, e: Event): State {
    var t := match e
      case UsbReady => s.(usbReady := true)
      case BleSynced => s.(bleSynced := true)
      case PersistReadyWithBond => s.(persistReady := true, hasBond := true)
      case PersistReadyNoBond => s.(persistReady := true, hasBond := false)
      case HidReady => s.(hasBond := s.hasBond || s.ble.bonded)
      case HostReset => s.(bleSynced := false)
      case BondEraseComplete => s.(hasBond := false, persistReady := true)
      case _ => s;
    if StartupEvent(e) && t.usbReady && t.phase.Boot? then t.(phase := UsbReadyState) else t
  }

  /** What an event asks for: nothing, a bare state change, or a command that guards one. */
  datatype Plan = Stay | Goto(phase: Phase) | Move(release: bool, phase: Phase, command: Command)

  predicate GateOpen(s: State) {
    s.usbReady && s.bleSynced && s.persistReady && s.phase.UsbReadyState?
  }

  function Retry(s: State): Plan {
    if !s.hasBond then Move(false, PairingScan, StartPairingScan)
    else if s.ble.reconnect.mode.Backoff? then Move(false, ReconnectingBackoff, EnterReconnectBackoff)
    else Move(false, ReconnectingFast, EnterReconnectFast)
  }

  function Restart(s: State, release: bool): Plan {
    if s.hasBond then Move(release, ReconnectingFast, EnterReconnectFast)
    else Move(release, PairingScan, StartPairingScan)
  }

  function PlanFor(s: State, e: Event): Plan {
    if StartupEvent(e) then
      if GateOpen(s) then Move(false, ScanPhase(s), ScanCommand(s)) else Stay
    else
      match e
      case KnownDeviceFound => Goto(Connecting)
      case PairingCandidateFound => Goto(Connecting)
      case ConnectSuccess => Goto(Connecting)
      case HidReady => Goto(ConnectedState)
      case ConnectFailure => Retry(s)
      case HidFailure => Retry(s)
      case Disconnected => Restart(s, true)
      case HostReset => Move(true, UsbReadyState, StopScanning)
      case BondMismatch => Move(true, RecoveryRequired, StopScanning)
      case MetadataFault => Move(false, ScanPhase(s), ScanCommand(s))
      case ButtonShortPress => if s.phase.RecoveryRequired? then Stay else Restart(s, false)
      case ButtonLongPress => Move(true, BondErasing, EraseBonds)
      case BondEraseComplete => Move(false, PairingScan, StartPairingScan)
      case _ => Stay
  }

  function Release(s: State): State {
    s.(effects := s.effects + [Released])
  }

  /** transition_to_and_post: erasing bonds announces its completion through the event queue. */
  function Announce(s: State): (State, Status) {
    var (queue, status) := Post(s.ble.scan.queue, BondEraseComplete);
    (s.(ble := s.ble.(scan := s.ble.scan.(queue := queue))), status)
  }

  function Perform(s: State, plan: Plan, io: Io): (State, Status) {
    match plan
    case Stay => (s, OK)
    case Goto(phase) => (s.(phase := phase), OK)
    case Move(release, phase, command) =>
      var t := if release then Release(s) else s;
      if release && io.release != OK then (t, io.release)
      else
        var (u, status) := TransitionTo(t, phase, command, io);
        if status == OK && command.EraseBonds? then Announce(u) else (u, status)
  }

  /** handle_event */
  function Handle(s: State, e: Event, io: Io): (State, Status) {
    var t := Sync(s);
    if t.phase.RecoveryRequired? && IgnoredInRecovery(e) then (t, OK)
    else Perform(Prepare(t, e), PlanFor(Prepare(t, e), e), io)
  }

  /**
   An event as the event task finds it: `ble` is what scan callbacks, timers, pairing and posts have
   made of scanner, scheduler, bonds and event queue since the last one.
   */
  datatype Input = Input(event: Event, io: Io, ble: BleManager.State)

  function Meanwhile(s: State, input: Input): State {
    s.(ble := input.ble)
  }

  function Receive(s: State, input: Input): (State, Status) {
    Handle(Meanwhile(s, input), input.event, input.io)
  }

  function Run(s: State, inputs: seq<Input>): State {
    if inputs == [] then s else Receive(Run(s, inputs[..|inputs| - 1]), inputs[|inputs| - 1]).0
  }

  /** One round of the event task: it takes the oldest event off the queue and has it handled. */
  function Dispatch(s: State, io: Io): State {
    var (queue, e) := Take(s.ble.scan.queue);
    if e.None? then s else Receive(s, Input(e.value, io, s.ble.(scan := s.ble.scan.(queue := queue)))).0
  }

  /** A round without an event does nothing; any other takes the oldest off the queue and handles just that. */
  lemma RoundHandlesOldest(s: State, io: Io)
    ensures var events := s.ble.scan.queue.events;
            var t := Dispatch(s, io);
            && (|events| == 0 ==> t == s)
            && (|events| > 0 ==>
                  var rest := Queue(events[1..], s.ble.scan.queue.started);
                  t == Handle(s.(ble := s.ble.(scan := s.ble.scan.(queue := rest))), events[0], io).0)
  {
  }

  // ---------- State and subsystems agree ----------

  ghost predicate Agrees(s: State) {
    var scan := s.ble.scan;
    match s.phase
    case PairingScan => scan.active && scan.pairing
    case ScanningKnownDevice => scan.active && !scan.pairing
    case ReconnectingFast => scan.active && !scan.pairing && s.ble.reconnect.mode.Fast?
    case ReconnectingBackoff => scan.active && !scan.pairing && s.ble.reconnect.mode.Backoff?
    case RecoveryRequired => !scan.active
    case BondErasing => !scan.active && !s.ble.bonded
    case UsbReadyState => !scan.active
    case _ => true
  }

  ghost predicate CommandIssued(before: State, after: State) {
    |after.effects| > |before.effects| && after.effects[|after.effects| - 1].Issued?
  }

  /** The only pairs of state and command the handler ever uses. */
  predicate Matched(phase: Phase, command: Command) {
    match command
    case StartPairingScan => phase.PairingScan?
    case StartKnownDeviceScan => phase.ScanningKnownDevice?
    case EnterReconnectFast => phase.ReconnectingFast?
    case EnterReconnectBackoff => phase.ReconnectingBackoff?
    case StopScanning => phase.RecoveryRequired? || phase.UsbReadyState?
    case EraseBonds => phase.BondErasing?
    case NoCommand => false
  }

  lemma PlansAreMatched(s: State, e: Event)
    ensures PlanFor(s, e).Move? ==> Matched(PlanFor(s, e).phase, PlanFor(s, e).command)
  {
  }

  lemma TransitionAgrees(s: State, phase: Phase, command: Command, io: Io)
    requires Matched(phase, command)
    ensures var (s', status) := TransitionTo(s, phase, command, io);
            && (status == OK ==> s'.phase == phase && Agrees(s'))
            && (status != OK ==> s'.phase == s.phase)
            && s'.effects == s.effects + [Issued(command)]
  {
  }

  lemma PerformAgrees(s: State, plan: Plan, io: Io)
    requires plan.Move? ==> Matched(plan.phase, plan.command)
    ensures var (s', status) := Perform(s, plan, io);
            && (plan.Move? && status == OK ==> s'.phase == plan.phase && Agrees(s'))
            && (CommandIssued(s, s') ==> plan.Move?)
            && (status != OK ==> s'.phase == s.phase
                                 || (plan.Move? && plan.command.EraseBonds? && s'.phase.BondErasing? && Agrees(s')))
  {
    if plan.Move? {
      TransitionAgrees(if plan.release then Release(s) else s, plan.phase, plan.command, io);
    }
  }

  /**
   Whenever handling an event issued a command and reports success, the scanner, the scheduler and
   the bond store are in the condition the new state stands for.
   */
  lemma HandleAgrees(s: State, e: Event, io: Io)
    requires CommandIssued(s, Handle(s, e, io).0) && Handle(s, e, io).1 == OK
    ensures Agrees(Handle(s, e, io).0)
  {
    var t := Prepare(Sync(s), e);
    PlansAreMatched(t, e);
    PerformAgrees(t, PlanFor(t, e), io);
  }

  /** What it takes for a long press to erase everything. */
  predicate Erases(s: State, io: Io) {
    io.release == OK && CanErase(s.ble, io.ble)
  }

  /**
   A long press enters BOND_ERASING exactly if the release, the end of the scan and both erases
   succeed, and only then is BOND_ERASE_COMPLETE posted, if the queue takes it; otherwise the state
   stays what it was. The bonds may be gone all the same, when only the metadata could not be erased.
   */
  lemma ErasesExactly(s: State, io: Io)
    ensures var (t, status) := Handle(s, ButtonLongPress, io);
            && t.phase == (if Erases(s, io) then BondErasing else s.phase)
            && (status == OK <==> Erases(s, io) && Accepts(s.ble.scan.queue))
            && t.ble.scan.queue.events ==
                 s.ble.scan.queue.events
                 + (if Erases(s, io) && Accepts(s.ble.scan.queue) then [BondEraseComplete] else [])
            && (t.ble.bonded <==> s.ble.bonded && !(io.release == OK && CanErase(s.ble, io.ble.(persistErr := OK))))
  {
    var t := Sync(s);
    assert Handle(s, ButtonLongPress, io) == Perform(t, Move(true, BondErasing, EraseBonds), io);
    PerformErase(t, io);
  }

  lemma PerformErase(t: State, io: Io)
    ensures var (u, status) := Perform(t, Move(true, BondErasing, EraseBonds), io);
            && u.phase == (if Erases(t, io) then BondErasing else t.phase)
            && (status == OK <==> Erases(t, io) && Accepts(t.ble.scan.queue))
            && u.ble.scan.queue.events ==
                 t.ble.scan.queue.events
                 + (if Erases(t, io) && Accepts(t.ble.scan.queue) then [BondEraseComplete] else [])
            && (u.ble.bonded <==> t.ble.bonded && !(io.release == OK && CanErase(t.ble, io.ble.(persistErr := OK))))
  {
    ExecuteExactly(t.ble, EraseBonds, io.ble);
    EraseKeepsQueue(t.ble, io.ble);
  }

  /** A failed erase therefore stays in BOND_ERASING only if the machine was there, or the queue was full. */
  lemma FailedEraseStaysExactly(s: State, io: Io)
    requires Handle(s, ButtonLongPress, io).1 != OK
    ensures Handle(s, ButtonLongPress, io).0.phase.BondErasing? <==> s.phase.BondErasing? || Erases(s, io)
  {
    ErasesExactly(s, io);
  }

  /** Connected, the bonds cannot be unpaired: the machine stays connected. */
  lemma FailedEraseStaysConnected(s: State, io: Io)
    requires s.phase.ConnectedState? && s.ble.ready && !s.ble.scan.active
    requires io == Io.Io(BleManager.Io.Io(ScanControl.ScanIo(0, 0, 0, 0), -5, OK), OK)
    ensures Handle(s, ButtonLongPress, io).1 == -5 && Handle(s, ButtonLongPress, io).0.phase.ConnectedState?
  {
    ErasesExactly(s, io);
  }

  /**
   A failing release or command leaves the state where it was, but for the step out of BOOT. The one
   other way to fail is a full event queue after everything was erased: that leaves BOND_ERASING.
   */
  lemma FailureKeepsPhase(s: State, e: Event, io: Io)
    requires Handle(s, e, io).1 != OK
    ensures Handle(s, e, io).0.phase ==
            if e.ButtonLongPress? && Erases(s, io) then BondErasing else Prepare(Sync(s), e).phase
  {
    if e.ButtonLongPress? {
      ErasesExactly(s, io);
    } else {
      var t := Prepare(Sync(s), e);
      PlansAreMatched(t, e);
      PerformAgrees(t, PlanFor(t, e), io);
    }
  }

  /** A failed attempt with a bonded peer restarts the scheduler without touching its failure count. */
  lemma BondedFailureKeepsCounter(s: State, e: Event, io: Io)
    requires e.HidFailure? || (e.ConnectFailure? && !s.phase.RecoveryRequired?)
    requires Sync(s).hasBond && Reconnect.Valid(s.ble.reconnect)
    ensures var before := s.ble.reconnect;
            var after := Handle(s, e, io).0.ble.reconnect;
            && after == Reconnect.ReenterReconnect(before)
            && Reconnect.Failures(after) == Reconnect.Failures(before)
  {
    Reconnect.ReenterKeepsCounter(s.ble.reconnect);
  }

  // ---------- How each event is answered ----------

  /** Bonded as the runtime says, once it can say. */
  predicate Bonded(s: State) {
    if s.ble.ready then s.ble.bonded else s.hasBond
  }

  /** Nothing is commanded and the state is `phase`. */
  predicate Becomes(s: State, r: (State, Status), phase: Phase) {
    r.1 == OK && r.0.phase == phase && r.0.effects == s.effects && r.0.ble == s.ble
  }

  /**
   The bridge is released first, if so asked; unless that fails, `command` is issued and nothing else, and
   the state becomes `phase` exactly if the calls behind the command go well. Otherwise it is `from`.
   */
  predicate Commands(s: State, r: (State, Status), io: Io, release: bool, command: Command, phase: Phase, from: Phase) {
    var before := if release then s.effects + [Released] else s.effects;
    if release && io.release != OK then
      r.1 == io.release && r.0.effects == before && r.0.phase == from && r.0.ble == s.ble
    else
      && r.0.effects == before + [Issued(command)]
      && r.0.phase == (if CanExecute(s.ble, command, io.ble) then phase else from)
      && (r.1 == OK ==> CanExecute(s.ble, command, io.ble))
      && (CanExecute(s.ble, command, io.ble) && !command.EraseBonds? ==> r.1 == OK)
  }

  lemma PerformCommands(s: State, plan: Plan, io: Io)
    requires plan.Move?
    ensures Commands(s, Perform(s, plan, io), io, plan.release, plan.command, plan.phase, s.phase)
  {
    ExecuteExactly(s.ble, plan.command, io.ble);
  }

  /** The events of a connection, and the three that only note how far it has come. */
  lemma ConnectionEventTable(s: State, e: Event, io: Io)
    ensures var r := Handle(s, e, io);
            var quiet := s.phase.RecoveryRequired?;
            match e
            case KnownDeviceFound => Becomes(s, r, Connecting)
            case PairingCandidateFound => Becomes(s, r, Connecting)
            case ConnectSuccess => Becomes(s, r, Connecting)
            case HidReady => Becomes(s, r, ConnectedState)
            case ScanStarted => Becomes(s, r, s.phase)
            case SecurityReady => Becomes(s, r, s.phase)
            case ConnectFailure => if quiet then Becomes(s, r, s.phase) else Retries(s, r, io)
            case HidFailure => Retries(s, r, io)
            case Disconnected =>
              if quiet then Becomes(s, r, s.phase)
              else if Bonded(s) then Commands(s, r, io, true, EnterReconnectFast, ReconnectingFast, s.phase)
              else Commands(s, r, io, true, StartPairingScan, PairingScan, s.phase)
            case BondMismatch =>
              if quiet then Becomes(s, r, s.phase)
              else Commands(s, r, io, true, StopScanning, RecoveryRequired, s.phase)
            case _ => true
  {
    PerformPlan(s, e, io);
  }

  /** A failed attempt: the same way of reconnecting again, or pairing without a bond. */
  predicate Retries(s: State, r: (State, Status), io: Io) {
    if !Bonded(s) then Commands(s, r, io, false, StartPairingScan, PairingScan, s.phase)
    else if s.ble.reconnect.mode.Backoff? then
      Commands(s, r, io, false, EnterReconnectBackoff, ReconnectingBackoff, s.phase)
    else Commands(s, r, io, false, EnterReconnectFast, ReconnectingFast, s.phase)
  }

  /** The button, the host, and the stored metadata. */
  lemma DeviceEventTable(s: State, e: Event, io: Io)
    ensures var r := Handle(s, e, io);
            match e
            case HostReset => Commands(s, r, io, true, StopScanning, UsbReadyState, s.phase)
            case ButtonLongPress => Commands(s, r, io, true, EraseBonds, BondErasing, s.phase)
            case BondEraseComplete => Commands(s, r, io, false, StartPairingScan, PairingScan, s.phase)
            case MetadataFault =>
              if Bonded(s) then Commands(s, r, io, false, StartKnownDeviceScan, ScanningKnownDevice, s.phase)
              else Commands(s, r, io, false, StartPairingScan, PairingScan, s.phase)
            case ButtonShortPress =>
              if s.phase.RecoveryRequired? then Becomes(s, r, s.phase)
              else if Bonded(s) then Commands(s, r, io, false, EnterReconnectFast, ReconnectingFast, s.phase)
              else Commands(s, r, io, false, StartPairingScan, PairingScan, s.phase)
            case _ => true
  {
    PerformPlan(s, e, io);
  }

  /** The startup events: one scan command once all three flags are up, in USB_READY. */
  lemma StartupEventTable(s: State, e: Event, io: Io)
    requires e.UsbReady? || e.BleSynced? || e.PersistReadyWithBond? || e.PersistReadyNoBond?
    ensures var r := Handle(s, e, io);
            var usb, synced := s.usbReady || e.UsbReady?, s.bleSynced || e.BleSynced?;
            var persisted := s.persistReady || e.PersistReadyWithBond? || e.PersistReadyNoBond?;
            var bonded := e.PersistReadyWithBond? || (Bonded(s) && !e.PersistReadyNoBond?);
            var from := if usb && s.phase.Boot? then UsbReadyState else s.phase;
            if !(usb && synced && persisted && from.UsbReadyState?) then Becomes(s, r, from)
            else if bonded then Commands(s, r, io, false, StartKnownDeviceScan, ScanningKnownDevice, from)
            else Commands(s, r, io, false, StartPairingScan, PairingScan, from)
  {
    PerformPlan(s, e, io);
  }

  /** What any event does to the four flags, whether its command goes well or not. */
  lemma FlagsAfter(s: State, e: Event, io: Io)
    ensures var t := Handle(s, e, io).0;
            && (t.usbReady <==> s.usbReady || e.UsbReady?)
            && (t.bleSynced <==> (s.bleSynced || e.BleSynced?) && !e.HostReset?)
            && (t.persistReady <==>
                  s.persistReady || e.PersistReadyWithBond? || e.PersistReadyNoBond? || e.BondEraseComplete?)
            && (t.hasBond <==>
                  if e.PersistReadyNoBond? || e.BondEraseComplete? then false
                  else e.PersistReadyWithBond? || Bonded(s) || (e.HidReady? && s.ble.bonded))
  {
    PerformKeepsFlags(Prepare(Sync(s), e), PlanFor(Prepare(Sync(s), e), e), io);
  }

  lemma PerformKeepsFlags(s: State, plan: Plan, io: Io)
    ensures var t := Perform(s, plan, io).0;
            && t.usbReady == s.usbReady && t.bleSynced == s.bleSynced
            && t.persistReady == s.persistReady && t.hasBond == s.hasBond
  {
  }

  lemma PerformPlan(s: State, e: Event, io: Io)
    ensures var t := Prepare(Sync(s), e);
            var plan := PlanFor(t, e);
            && t.ble == s.ble && t.effects == s.effects && (s.phase.Boot? || t.phase == s.phase)
            && (plan.Move? ==>
                  Commands(t, Perform(t, plan, io), io, plan.release, plan.command, plan.phase, t.phase))
  {
    PrepareKeeps(s, e);
    var t := Prepare(Sync(s), e);
    if PlanFor(t, e).Move? {
      PerformCommands(t, PlanFor(t, e), io);
    }
  }

  predicate LooksForKeyboard(e: Event) {
    e.ConnectFailure? || e.HidFailure? || e.Disconnected? || e.ButtonShortPress? || e.MetadataFault?
  }

  /** Without a bond there is nothing to reconnect to: whatever sends the machine looking starts pairing. */
  lemma UnbondedAlwaysPairs(s: State, e: Event, io: Io)
    requires LooksForKeyboard(e) && !Bonded(s)
    ensures var t := Handle(s, e, io).0;
            && (CommandIssued(s, t) ==> t.effects[|t.effects| - 1] == Issued(StartPairingScan))
            && (t.phase == s.phase || t.phase.PairingScan?)
            && (!s.phase.RecoveryRequired? && io.release == OK && s.ble.ready && CanScan(s.ble, true, io.ble.scan) ==>
                  t.phase.PairingScan?)
  {
    ConnectionEventTable(s, e, io);
    DeviceEventTable(s, e, io);
  }

  // ---------- Releasing the input ----------

  /** The events that release the bridge, unless they are ignored in recovery. */
  predicate Releases(s: State, e: Event) {
    && (e.Disconnected? || e.HostReset? || e.BondMismatch? || e.ButtonLongPress?)
    && !(s.phase.RecoveryRequired? && IgnoredInRecovery(e))
  }

  /** Handling an event has called bridge_release_all. */
  predicate HasReleased(before: State, after: State) {
    |after.effects| > |before.effects| && after.effects[|before.effects|].Released?
  }

  lemma PerformReleases(s: State, plan: Plan, io: Io)
    ensures var t := Perform(s, plan, io).0;
            && s.effects <= t.effects && (HasReleased(s, t) <==> plan.Move? && plan.release)
            && forall i :: |s.effects| < i < |t.effects| ==> !t.effects[i].Released?
  {
  }

  /** Exactly these release it, once and before anything else, whatever the release answers. */
  lemma ReleasesExactly(s: State, e: Event, io: Io)
    ensures var t := Handle(s, e, io).0;
            && s.effects <= t.effects && (HasReleased(s, t) <==> Releases(s, e))
            && forall i :: |s.effects| < i < |t.effects| ==> !t.effects[i].Released?
  {
    var t := Prepare(Sync(s), e);
    PrepareKeeps(s, e);
    PlansRelease(t, e);
    PerformReleases(t, PlanFor(t, e), io);
  }

  lemma PlansRelease(t: State, e: Event)
    ensures var plan := PlanFor(t, e);
            plan.Move? && plan.release <==>
              e.Disconnected? || e.HostReset? || e.BondMismatch? || e.ButtonLongPress?
  {
  }

  // ---------- What a disconnect does to the scheduler ----------

  /** A disconnect or a short press of a bonded peer restarts fast reconnecting. */
  predicate Refreshes(s: State, e: Event, io: Io) {
    && Sync(s).hasBond && !s.phase.RecoveryRequired?
    && ((e.Disconnected? && io.release == OK) || e.ButtonShortPress?)
  }

  /**
   Such an event takes the failure counter back to 0 exactly from backoff, and then allows an attempt
   at once if the peer is in sight; otherwise it leaves the scheduler's count alone.
   */
  lemma DisconnectForgetsBackoffExactly(s: State, e: Event, io: Io)
    requires (e.Disconnected? || e.ButtonShortPress?) && Reconnect.Valid(s.ble.reconnect)
    ensures var before, after := s.ble.reconnect, Handle(s, e, io).0.ble.reconnect;
            && after == (if Refreshes(s, e, io) then Reconnect.EnterFast(before) else before)
            && Reconnect.Failures(after) ==
                 (if Refreshes(s, e, io) && before.mode.Backoff? then 0 else Reconnect.Failures(before))
            && (Refreshes(s, e, io) && before.mode.Backoff? && before.visible ==> Reconnect.ShouldAttempt(after))
  {
    PrepareKeeps(s, e);
  }

  // ---------- Recovery ----------

  /** Events that leave RECOVERY_REQUIRED outright. */
  predicate LeavesAtOnce(e: Event) {
    e.KnownDeviceFound? || e.PairingCandidateFound? || e.ConnectSuccess? || e.HidReady?
  }

  /** Events that leave it when their release and their command succeed. */
  predicate LeavesByCommand(e: Event) {
    e.HidFailure? || e.HostReset? || e.MetadataFault? || e.ButtonLongPress? || e.BondEraseComplete?
  }

  lemma PrepareKeeps(s: State, e: Event)
    ensures var t := Prepare(Sync(s), e);
            t.ble == s.ble && t.effects == s.effects && (s.phase.Boot? || t.phase == s.phase)
  {
  }

  lemma PlansInRecovery(t: State, e: Event)
    requires t.phase.RecoveryRequired?
    ensures var plan := PlanFor(t, e);
            && (LeavesAtOnce(e) ==> plan.Goto? && !plan.phase.RecoveryRequired?)
            && (LeavesByCommand(e) ==> plan.Move? && !plan.phase.RecoveryRequired?)
            && (!LeavesAtOnce(e) && !LeavesByCommand(e) ==> plan.Stay? || IgnoredInRecovery(e))
  {
  }

  lemma PerformPhase(s: State, plan: Plan, io: Io)
    ensures Perform(s, plan, io).0.phase ==
            match plan
            case Stay => s.phase
            case Goto(phase) => phase
            case Move(release, phase, command) =>
              if (release ==> io.release == OK) && Execute(s.ble, command, io.ble).1 == OK then phase else s.phase
  {
    if plan.Move? {
      var t := if plan.release then Release(s) else s;
      TransitionPhase(t, plan.phase, plan.command, io);
      assert t.ble == s.ble && t.phase == s.phase;
    }
  }

  lemma TransitionPhase(s: State, phase: Phase, command: Command, io: Io)
    ensures var (t, status) := TransitionTo(s, phase, command, io);
            status == Execute(s.ble, command, io.ble).1 && t.phase == if status == OK then phase else s.phase
  {
  }

  /** What the release and the command of a plan need. */
  predicate CanPerform(s: State, plan: Plan, io: Io) {
    plan.Move? ==> (plan.release ==> io.release == OK) && CanExecute(s.ble, plan.command, io.ble)
  }

  /** Exactly when an event ends recovery. */
  lemma LeavesRecoveryExactly(s: State, e: Event, io: Io)
    requires s.phase.RecoveryRequired?
    ensures !Handle(s, e, io).0.phase.RecoveryRequired? <==>
              || LeavesAtOnce(e)
              || (LeavesByCommand(e) && CanPerform(s, PlanFor(Prepare(Sync(s), e), e), io))
  {
    var t := Prepare(Sync(s), e);
    PrepareKeeps(s, e);
    PlansInRecovery(t, e);
    PerformPhase(t, PlanFor(t, e), io);
    if PlanFor(t, e).Move? {
      ExecuteExactly(s.ble, PlanFor(t, e).command, io.ble);
    }
  }

  /** Which release and command each of those events needs. */
  lemma RecoveryPlans(s: State, e: Event)
    requires s.phase.RecoveryRequired? && s.ble.ready && LeavesByCommand(e)
    ensures var plan := PlanFor(Prepare(Sync(s), e), e);
            && plan.Move? && (plan.release <==> e.HostReset? || e.ButtonLongPress?)
            && plan.command ==
                 match e
                 case HostReset => StopScanning
                 case ButtonLongPress => EraseBonds
                 case BondEraseComplete => StartPairingScan
                 case MetadataFault => if s.ble.bonded then StartKnownDeviceScan else StartPairingScan
                 case _ =>
                   if !s.ble.bonded then StartPairingScan
                   else if s.ble.reconnect.mode.Backoff? then EnterReconnectBackoff else EnterReconnectFast
  {
  }

  /** A late HID_FAILURE of the bonded peer ends recovery as soon as a known-device scan can be started. */
  lemma LateHidFailureLeaves(s: State, io: Io)
    requires s.phase.RecoveryRequired? && s.ble.ready && s.ble.bonded && CanScanKnown(s.ble, io.ble.scan)
    ensures var t := Handle(s, HidFailure, io).0; t.phase.ReconnectingFast? || t.phase.ReconnectingBackoff?
  {
    LeavesRecoveryExactly(s, HidFailure, io);
    PerformPhase(Prepare(Sync(s), HidFailure), PlanFor(Prepare(Sync(s), HidFailure), HidFailure), io);
  }

  /** Recovery outlives every run of the other events, whatever happens between them, and starts nothing. */
  lemma {:induction false} RecoveryPersists(s: State, inputs: seq<Input>)
    requires s.phase.RecoveryRequired?
    requires forall i :: 0 <= i < |inputs| ==> !LeavesAtOnce(inputs[i].event) && !LeavesByCommand(inputs[i].event)
    ensures var t := Run(s, inputs);
            && t.phase.RecoveryRequired? && t.effects == s.effects
            && t.ble == if inputs == [] then s.ble else inputs[|inputs| - 1].ble
  {
    if inputs != [] {
      var t := Run(s, inputs[..|inputs| - 1]);
      RecoveryPersists(s, inputs[..|inputs| - 1]);
      StaysInRecovery(Meanwhile(t, inputs[|inputs| - 1]), inputs[|inputs| - 1].event, inputs[|inputs| - 1].io);
    }
  }

  lemma StaysInRecovery(s: State, e: Event, io: Io)
    requires s.phase.RecoveryRequired? && !LeavesAtOnce(e) && !LeavesByCommand(e)
    ensures var t := Handle(s, e, io).0; t.phase.RecoveryRequired? && t.effects == s.effects && t.ble == s.ble
  {
    PrepareKeeps(s, e);
    PlansInRecovery(Prepare(Sync(s), e), e);
  }

  // ---------- Startup ----------

  predicate Startup(e: Event, bonded: bool) {
    e.UsbReady? || e.BleSynced? || (if bonded then e.PersistReadyWithBond? else e.PersistReadyNoBond?)
  }

  ghost predicate StartupInputs(inputs: seq<Input>, bonded: bool) {
    forall i :: 0 <= i < |inputs| ==> Startup(inputs[i].event, bonded)
  }

  /** The runtime is ready and its bond inventory does not change. */
  ghost predicate SteadyBonds(inputs: seq<Input>, bonded: bool) {
    forall i :: 0 <= i < |inputs| ==> inputs[i].ble.ready && inputs[i].ble.bonded == bonded
  }

  ghost predicate Occurred(inputs: seq<Input>, e: Event) {
    exists i :: 0 <= i < |inputs| && inputs[i].event == e
  }

  function PersistEvent(bonded: bool): Event {
    if bonded then PersistReadyWithBond else PersistReadyNoBond
  }

  /** Every event of the run was handled successfully. */
  ghost predicate AllSucceed(s: State, inputs: seq<Input>) {
    inputs == []
    || (AllSucceed(s, inputs[..|inputs| - 1])
        && Receive(Run(s, inputs[..|inputs| - 1]), inputs[|inputs| - 1]).1 == OK)
  }

  function Booted(ble: BleManager.State): State {
    State.State(Boot, false, false, false, false, ble, [])
  }

  lemma OccurredAppends(inputs: seq<Input>, e: Event)
    requires inputs != []
    ensures Occurred(inputs, e) <==>
              Occurred(inputs[..|inputs| - 1], e) || inputs[|inputs| - 1].event == e
  {
    var front := inputs[..|inputs| - 1];
    assert forall i :: 0 <= i < |front| ==> front[i] == inputs[i];
  }

  lemma ExecuteKeepsBonds(s: BleManager.State, command: Command, io: BleManager.Io)
    requires !command.EraseBonds?
    ensures Execute(s, command, io).0.ready == s.ready && Execute(s, command, io).0.bonded == s.bonded
  {
  }

  /** One startup event, once the runtime can tell whether there is a bond. */
  lemma StartupStep(s: State, e: Event, io: Io)
    requires s.ble.ready && Startup(e, s.ble.bonded) && Handle(s, e, io).1 == OK
    ensures var t := Handle(s, e, io).0;
            var p := Prepare(Sync(s), e);
            && t.usbReady == (s.usbReady || e.UsbReady?)
            && t.bleSynced == (s.bleSynced || e.BleSynced?)
            && t.persistReady == (s.persistReady || e == PersistEvent(s.ble.bonded))
            && t.ble.ready && t.ble.bonded == s.ble.bonded
            && (GateOpen(p) ==>
                  && t.phase == (if s.ble.bonded then ScanningKnownDevice else PairingScan)
                  && t.effects == s.effects + [Issued(if s.ble.bonded then StartKnownDeviceScan else StartPairingScan)])
            && (!GateOpen(p) ==> t == p)
  {
    var p := Prepare(Sync(s), e);
    if GateOpen(p) {
      TransitionAgrees(p, ScanPhase(p), ScanCommand(p), io);
      ExecuteKeepsBonds(p.ble, ScanCommand(p), io.ble);
    }
  }

  /** Where startup stands when exactly these events have occurred. */
  ghost predicate StartedUp(t: State, usb: bool, synced: bool, persisted: bool, bonded: bool) {
    && t.usbReady == usb && t.bleSynced == synced && t.persistReady == persisted
    && t.ble.ready && t.ble.bonded == bonded
    && t.phase == (if !usb then Boot
                   else if !synced || !persisted then UsbReadyState
                   else if bonded then ScanningKnownDevice else PairingScan)
    && t.effects == (if !(usb && synced && persisted) then []
                     else [Issued(if bonded then StartKnownDeviceScan else StartPairingScan)])
  }

  lemma StartedUpStep(s: State, e: Event, io: Io, usb: bool, synced: bool, persisted: bool, bonded: bool)
    requires StartedUp(s, usb, synced, persisted, bonded)
    requires Startup(e, bonded) && Handle(s, e, io).1 == OK
    ensures StartedUp(Handle(s, e, io).0, usb || e.UsbReady?, synced || e.BleSynced?,
                      persisted || e == PersistEvent(bonded), bonded)
  {
    StartupStep(s, e, io);
  }

  /**
   Startup is confluent: for any number and order of startup events the final state depends only on
   which of them occurred, and exactly one scan command is issued once all three kinds have.
   */
  lemma {:induction false} StartupConfluence(ble: BleManager.State, inputs: seq<Input>)
    requires ble.ready && StartupInputs(inputs, ble.bonded) && SteadyBonds(inputs, ble.bonded)
    requires AllSucceed(Booted(ble), inputs)
    ensures StartedUp(Run(Booted(ble), inputs), Occurred(inputs, UsbReady), Occurred(inputs, BleSynced),
                      Occurred(inputs, PersistEvent(ble.bonded)), ble.bonded)
  {
    if inputs != [] {
      var n := |inputs| - 1;
      var front, last := inputs[..n], inputs[n];
      StartupConfluence(ble, front);
      OccurredAppends(inputs, UsbReady);
      OccurredAppends(inputs, BleSynced);
      OccurredAppends(inputs, PersistEvent(ble.bonded));
      StartedUpStep(Meanwhile(Run(Booted(ble), front), last), last.event, last.io,
                    Occurred(front, UsbReady), Occurred(front, BleSynced),
                    Occurred(front, PersistEvent(ble.bonded)), ble.bonded);
    }
  }

  /** `t` is `r` with the gate still shut and only these two readiness flags possibly raised. */
  ghost predicate StillShut(r: State, t: State, usb: bool, persisted: bool) {
    && t.phase.UsbReadyState? && !t.bleSynced && t.effects == r.effects
    && t.usbReady == (r.usbReady || usb) && t.persistReady == (r.persistReady || persisted)
  }

  predicate Persisted(e: Event) {
    e.PersistReadyWithBond? || e.PersistReadyNoBond?
  }

  lemma StillShutStep(r: State, t: State, usb: bool, persisted: bool, e: Event, io: Io)
    requires StillShut(r, t, usb, persisted) && StartupEvent(e) && !e.BleSynced?
    ensures StillShut(r, Handle(t, e, io).0, usb || e.UsbReady?, persisted || Persisted(e))
  {
  }

  /** Only startup events, and BLE is not synced. */
  ghost predicate Unsynced(inputs: seq<Input>) {
    forall i :: 0 <= i < |inputs| ==> StartupEvent(inputs[i].event) && !inputs[i].event.BleSynced?
  }

  ghost predicate PersistOccurred(inputs: seq<Input>) {
    Occurred(inputs, PersistReadyWithBond) || Occurred(inputs, PersistReadyNoBond)
  }

  lemma {:induction false} ShutThroughRun(r: State, inputs: seq<Input>)
    requires StillShut(r, r, false, false) && Unsynced(inputs)
    ensures StillShut(r, Run(r, inputs), Occurred(inputs, UsbReady), PersistOccurred(inputs))
  {
    if inputs != [] {
      var front, last := inputs[..|inputs| - 1], inputs[|inputs| - 1];
      OccurredAppends(inputs, UsbReady);
      OccurredAppends(inputs, PersistReadyWithBond);
      OccurredAppends(inputs, PersistReadyNoBond);
      ShutThroughRun(r, front);
      StillShutStep(r, Meanwhile(Run(r, front), last),
                    Occurred(front, UsbReady), PersistOccurred(front), last.event, last.io);
    }
  }

  lemma PerformKeepsSynced(s: State, plan: Plan, io: Io)
    ensures Perform(s, plan, io).0.bleSynced == s.bleSynced
  {
  }

  lemma ShutStep(s: State, e: Event, io: Io)
    requires !s.bleSynced && !e.BleSynced?
    ensures !Handle(s, e, io).0.bleSynced
    ensures StartupEvent(e) ==> Handle(s, e, io).0.effects == s.effects
  {
    var t := Prepare(Sync(s), e);
    PerformKeepsSynced(t, PlanFor(t, e), io);
    PrepareKeeps(s, e);
    assert !t.bleSynced;
    assert StartupEvent(e) ==> PlanFor(t, e).Stay?;
  }

  lemma {:induction false} UnsyncedThroughRun(s: State, inputs: seq<Input>)
    requires !s.bleSynced && !Occurred(inputs, BleSynced)
    ensures !Run(s, inputs).bleSynced
  {
    if inputs != [] {
      var front, last := inputs[..|inputs| - 1], inputs[|inputs| - 1];
      OccurredAppends(inputs, BleSynced);
      UnsyncedThroughRun(s, front);
      ShutStep(Meanwhile(Run(s, front), last), last.event, last.io);
    }
  }

  lemma RunNext(r: State, inputs: seq<Input>, i: nat)
    requires i < |inputs|
    ensures Run(r, inputs[..i + 1]) == Receive(Run(r, inputs[..i]), inputs[i]).0
  {
    assert inputs[..i + 1][..i] == inputs[..i];
  }

  /**
   After a host reset, however it went, and whatever other events follow: until BLE is synced again
   no startup event issues a command.
   */
  lemma GateShutAfterReset(s: State, io: Io, inputs: seq<Input>, i: nat)
    requires i < |inputs| && !Occurred(inputs, BleSynced)
    ensures var r := Handle(s, HostReset, io).0;
            && !Run(r, inputs[..i]).bleSynced
            && (StartupEvent(inputs[i].event) ==> Run(r, inputs[..i + 1]).effects == Run(r, inputs[..i]).effects)
  {
    var r := Handle(s, HostReset, io).0;
    var t := Prepare(Sync(s), HostReset);
    PerformKeepsSynced(t, PlanFor(t, HostReset), io);
    var front := inputs[..i];
    assert !Occurred(front, BleSynced);
    UnsyncedThroughRun(r, front);
    assert inputs[i].event != BleSynced;
    RunNext(r, inputs, i);
    ShutStep(Meanwhile(Run(r, front), inputs[i]), inputs[i].event, inputs[i].io);
  }

  /** If only startup events repeat, the machine waits in USB_READY, whatever happens between them. */
  lemma WaitsAfterReset(s: State, io: Io, inputs: seq<Input>)
    requires Handle(s, HostReset, io).1 == OK && Unsynced(inputs)
    ensures var r := Handle(s, HostReset, io).0;
            && r.effects == s.effects + [Released] + [Issued(StopScanning)] && !r.ble.scan.active
            && StillShut(r, Run(r, inputs), Occurred(inputs, UsbReady), PersistOccurred(inputs))
  {
    var t := Prepare(Sync(s), HostReset);
    TransitionAgrees(Release(t), UsbReadyState, StopScanning, io);
    ShutThroughRun(Handle(s, HostReset, io).0, inputs);
  }

  /** The next BLE_SYNCED opens the gate, with one scan command for the bonds there are by then. */
  lemma GateReopens(s: State, io: Io)
    requires s.phase.UsbReadyState? && s.usbReady && s.persistReady && s.ble.ready
    ensures var (t, status) := Handle(s, BleSynced, io);
            && t.effects == s.effects + [Issued(if s.ble.bonded then StartKnownDeviceScan else StartPairingScan)]
            && (status == OK ==> t.phase == (if s.ble.bonded then ScanningKnownDevice else PairingScan) && Agrees(t))
            && (status != OK ==> t.phase.UsbReadyState?)
  {
    var t := Prepare(Sync(s), BleSynced);
    TransitionAgrees(t, ScanPhase(t), ScanCommand(t), io);
  }

  // ---------- The code ----------

  class Machine {
    var state: Phase
    var usbReady: bool
    var bleSynced: bool
    var persistReady: bool
    var hasBond: bool
    const manager: Manager
    ghost var effects: seq<Effect>

    ghost function Repr(): set<object>
      reads this
    {
      {this, manager, manager.scanner, manager.scanner.poster, manager.scheduler}
    }

    ghost function View(): State
      reads Repr()
    {
      State.State(state, usbReady, bleSynced, persistReady, hasBond, manager.View(), effects)
    }

    constructor (manager: Manager)
      ensures this.manager == manager && View() == Booted(manager.View())
    {
      this.manager := manager;
      state := Boot;
      usbReady, bleSynced, persistReady, hasBond := false, false, false, false;
      effects := [];
    }

    method Transition(next: Phase, command: Command, io: Io) returns (status: Status)
      modifies Repr()
      ensures (View(), status) == TransitionTo(old(View()), next, command, io)
    {
      status := manager.ExecuteCommand(command, io.ble);
      Conclude(next, command, status);
    }

    /** The rest of a transition, once the command has answered. */
    method Conclude(next: Phase, ghost command: Command, status: Status)
      modifies `state, `effects
      ensures View() == Concluded(old(View()), next, command, status)
    {
      effects := effects + [Issued(command)];
      if status == OK {
        state := next;
      }
    }

    method ReleaseInput(io: Io) returns (status: Status)
      modifies `effects
      ensures View() == Release(old(View())) && status == io.release
    {
      effects := effects + [Released];
      status := io.release;
    }

    method ReleaseThenTransition(next: Phase, command: Command, io: Io) returns (status: Status)
      requires !command.EraseBonds?
      modifies Repr()
      ensures (View(), status) == Perform(old(View()), Move(true, next, command), io)
    {
      status := ReleaseInput(io);
      if status != OK {
        return;
      }
      status := Transition(next, command, io);
    }

    /** transition_to_and_post after the release of a long press. */
    method EraseAndAnnounce(io: Io) returns (status: Status)
      modifies Repr()
      ensures (View(), status) == Perform(old(View()), Move(true, BondErasing, EraseBonds), io)
    {
      status := ReleaseInput(io);
      if status != OK {
        return;
      }
      status := Transition(BondErasing, EraseBonds, io);
      if status != OK {
        return;
      }
      status := manager.scanner.poster.PostEvent(BondEraseComplete);
    }

    /** The common reaction to CONNECT_FAILURE and HID_FAILURE. */
    method RetryConnection(io: Io) returns (status: Status)
      modifies Repr()
      ensures (View(), status) == Perform(old(View()), Retry(old(View())), io)
    {
      if !hasBond {
        status := Transition(PairingScan, StartPairingScan, io);
        return;
      }
      var backoff := manager.scheduler.IsInBackoffMode();
      status := Transition(if backoff then ReconnectingBackoff else ReconnectingFast,
                           if backoff then EnterReconnectBackoff else EnterReconnectFast, io);
    }

    /** advance_startup_gate, after the event's own flag was set. */
    method AdvanceGate(ghost before: State, ghost e: Event, io: Io) returns (status: Status)
      requires StartupEvent(e) && View() == Prepare(before, e).(phase := before.phase)
      modifies Repr()
      ensures (View(), status) == Perform(Prepare(before, e), PlanFor(Prepare(before, e), e), io)
    {
      if !usbReady {
        return OK;
      }
      if state.Boot? {
        state := UsbReadyState;
      }
      if !bleSynced || !persistReady {
        return OK;
      }
      if !state.UsbReadyState? {
        return OK;
      }
      status := Transition(if hasBond then ScanningKnownDevice else PairingScan,
                           if hasBond then StartKnownDeviceScan else StartPairingScan, io);
    }

    method HandleStartupEvent(e: Event, io: Io) returns (status: Status)
      requires StartupEvent(e)
      modifies Repr()
      ensures var t := Prepare(old(View()), e); (View(), status) == Perform(t, PlanFor(t, e), io)
    {
      ghost var before := View();
      match e {
        case UsbReady => usbReady := true;
        case BleSynced => bleSynced := true;
        case PersistReadyWithBond =>
          persistReady := true;
          hasBond := true;
        case PersistReadyNoBond =>
          persistReady := true;
          hasBond := false;
      }
      status := AdvanceGate(before, e, io);
    }

    method HandleOtherEvent(e: Event, io: Io) returns (status: Status)
      requires !StartupEvent(e)
      modifies Repr()
      ensures var t := Prepare(old(View()), e); (View(), status) == Perform(t, PlanFor(t, e), io)
    {
      match e
      case KnownDeviceFound | PairingCandidateFound | ConnectSuccess =>
        state := Connecting;
        status := OK;
      case ConnectFailure | HidFailure =>
        status := RetryConnection(io);
      case HidReady =>
        hasBond := hasBond || manager.runtimeHasBond;
        state := ConnectedState;
        status := OK;
      case Disconnected =>
        status := ReleaseThenTransition(if hasBond then ReconnectingFast else PairingScan,
                                        if hasBond then EnterReconnectFast else StartPairingScan, io);
      case HostReset =>
        bleSynced := false;
        status := ReleaseThenTransition(UsbReadyState, StopScanning, io);
      case BondMismatch =>
        status := ReleaseThenTransition(RecoveryRequired, StopScanning, io);
      case MetadataFault =>
        status := Transition(if hasBond then ScanningKnownDevice else PairingScan,
                             if hasBond then StartKnownDeviceScan else StartPairingScan, io);
      case ButtonShortPress =>
        if state.RecoveryRequired? {
          return OK;
        }
        status := Transition(if hasBond then ReconnectingFast else PairingScan,
                             if hasBond then EnterReconnectFast else StartPairingScan, io);
      case ButtonLongPress =>
        status := EraseAndAnnounce(io);
      case BondEraseComplete =>
        hasBond := false;
        persistReady := true;
        status := Transition(PairingScan, StartPairingScan, io);
      case ScanStarted | SecurityReady =>
        status := OK;
    }

    method HandleEvent(e: Event, io: Io) returns (status: Status)
      modifies Repr()
      ensures (View(), status) == Handle(old(View()), e, io)
    {
      if manager.runtimeReady {
        hasBond := manager.runtimeHasBond;
      }
      if state.RecoveryRequired? && IgnoredInRecovery(e) {
        return OK;
      }
      if StartupEvent(e) {
        status := HandleStartupEvent(e, io);
      } else {
        status := HandleOtherEvent(e, io);
      }
    }

    /** One round of the event task; without an event it would sleep. */
    method EventTaskRound(io: Io)
      modifies Repr()
      ensures View() == Dispatch(old(View()), io)
    {
      var e := manager.scanner.poster.TakeEvent();
      if e.Some? {
        var _ := HandleEvent(e.value, io);
      }
    }
  }
}
