/** Command execution of main/src/ble_manager.c over the scanner, the scheduler and the bond store. */
module BleManager {
  import opened Basics
  import opened EventQueue
  import opened ScanControl
  import Reconnect

  datatype Command =
    | NoCommand | StartPairingScan | StartKnownDeviceScan
    | EnterReconnectFast | EnterReconnectBackoff | StopScanning | EraseBonds

  /** `ready` and `bonded` are ble_runtime's flags; the counter of bonds only matters as a flag. */
  datatype State = State(scan: ScanControl.State, reconnect: Reconnect.State, ready: bool, bonded: bool)

  /** `persistErr` is what erasing the metadata answers. */
  datatype Io = Io(scan: ScanIo, unpairErr: int, persistErr: Status)

  function OnScan(s: State, r: (ScanControl.State, Status)): (State, Status) {
    (s.(scan := r.0), r.1)
  }

  /** execute_command */
  function Execute(s: State, command: Command, io: Io): (State, Status) {
    match command
    case NoCommand => (s, OK)
    case StartPairingScan => OnScan(s, StartPairing(s.scan, s.ready, io.scan))
    case StartKnownDeviceScan => OnScan(s, StartKnownDevice(s.scan, s.ready, io.scan))
    case EnterReconnectFast =>
      OnScan(s.(reconnect := Reconnect.EnterFast(s.reconnect)), StartKnownDevice(s.scan, s.ready, io.scan))
    case EnterReconnectBackoff =>
      OnScan(s.(reconnect := Reconnect.EnterBackoff(s.reconnect)), StartKnownDevice(s.scan, s.ready, io.scan))
    case StopScanning => OnScan(s, Stop(s.scan, io.scan))
    case EraseBonds =>
      var (scan, status) := Stop(s.scan, io.scan);
      var s' := s.(scan := scan);
      if status != OK then (s', status)
      else if !s.ready then (s', INVALID_STATE)
      else if io.unpairErr != 0 then (s', io.unpairErr)
      else (s'.(bonded := false), io.persistErr)
  }

  /** A scan in the given mode can be started, or is running already. */
  predicate CanScan(s: State, pairing: bool, io: ScanIo) {
    || (s.scan.active && s.scan.pairing == pairing)
    || ((s.scan.active ==> io.stopErr == 0) && io.startErr == 0 && Accepts(s.scan.queue))
  }

  predicate CanScanKnown(s: State, io: ScanIo) {
    || (s.scan.active && !s.scan.pairing)
    || (io.clearErr == 0 && io.addErr == 0 && s.ready && CanScan(s, false, io))
  }

  predicate CanStop(s: State, io: ScanIo) {
    s.scan.active ==> io.stopErr == 0
  }

  /** Bonds and metadata are both erased. */
  predicate CanErase(s: State, io: Io) {
    CanStop(s, io.scan) && s.ready && io.unpairErr == 0 && io.persistErr == OK
  }

  /** What it takes for a command to succeed. */
  predicate CanExecute(s: State, command: Command, io: Io) {
    match command
    case NoCommand => true
    case StartPairingScan => s.ready && CanScan(s, true, io.scan)
    case StartKnownDeviceScan => CanScanKnown(s, io.scan)
    case EnterReconnectFast => CanScanKnown(s, io.scan)
    case EnterReconnectBackoff => CanScanKnown(s, io.scan)
    case StopScanning => CanStop(s, io.scan)
    case EraseBonds => CanErase(s, io)
  }

  /**
   A command succeeds exactly under its condition; the bonds go as soon as they can be unpaired, and the last
   peer seen is forgotten exactly by looking for one to pair with.
   */
  lemma ExecuteExactly(s: State, command: Command, io: Io)
    ensures var (t, status) := Execute(s, command, io);
            && (status == OK <==> CanExecute(s, command, io))
            && (t.bonded <==> s.bonded && !(command.EraseBonds? && CanStop(s, io.scan) && s.ready && io.unpairErr == 0))
            && (t.scan.lastPeerValid <==> s.scan.lastPeerValid && !command.StartPairingScan?)
  {
  }

  predicate StartsKnownScan(command: Command) {
    command.StartKnownDeviceScan? || command.EnterReconnectFast? || command.EnterReconnectBackoff?
  }

  /** The calls that start a scan in this mode are made, and go well. */
  predicate ScanCallsSucceed(s: State, pairing: bool, io: ScanIo) {
    && s.ready && !(s.scan.active && s.scan.pairing == pairing)
    && (!pairing ==> io.clearErr == 0 && io.addErr == 0)
    && (s.scan.active ==> io.stopErr == 0) && io.startErr == 0
  }

  /**
   A scan that is really started runs in its mode and is announced by SCAN_STARTED, if the queue takes it; a
   scan that runs in that mode already is neither touched nor announced, and nothing else is ever posted.
   */
  lemma ScansExactly(s: State, command: Command, io: Io)
    requires command.StartPairingScan? || StartsKnownScan(command)
    ensures var (t, status) := Execute(s, command, io);
            var pairing := command.StartPairingScan?;
            var starts := ScanCallsSucceed(s, pairing, io.scan);
            && (t.scan.active && t.scan.pairing == pairing <==> starts || (s.scan.active && s.scan.pairing == pairing))
            && t.scan.queue.events ==
                 s.scan.queue.events + (if starts && Accepts(s.scan.queue) then [ScanStarted] else [])
            && (starts && !Accepts(s.scan.queue) ==> status != OK)
  {
    assert s.scan.queue.events + [] == s.scan.queue.events;
  }

  lemma EraseKeepsQueue(s: State, io: Io)
    ensures Execute(s, EraseBonds, io).0.scan.queue == s.scan.queue
  {
  }

  class Manager {
    const scanner: Scanner
    const scheduler: Reconnect.Scheduler
    var runtimeReady: bool
    var runtimeHasBond: bool

    ghost function View(): State
      reads this, scanner, scanner.poster, scheduler
    {
      State.State(scanner.View(), scheduler.View(), runtimeReady, runtimeHasBond)
    }

    constructor (scanner: Scanner, scheduler: Reconnect.Scheduler, ready: bool, bonded: bool)
      ensures this.scanner == scanner && this.scheduler == scheduler
      ensures View() == State.State(scanner.View(), scheduler.View(), ready, bonded)
    {
      this.scanner, this.scheduler := scanner, scheduler;
      runtimeReady, runtimeHasBond := ready, bonded;
    }

    method ExecuteCommand(command: Command, io: Io) returns (status: Status)
      modifies this, scanner, scanner.poster, scheduler
      ensures (View(), status) == Execute(old(View()), command, io)
    {
      match command
      case NoCommand =>
        status := OK;
      case StartPairingScan =>
        status := scanner.BeginPairing(runtimeReady, io.scan);
      case StartKnownDeviceScan =>
        status := scanner.BeginKnownDevice(runtimeReady, io.scan);
      case EnterReconnectFast =>
        scheduler.EnterFastMode();
        status := scanner.BeginKnownDevice(runtimeReady, io.scan);
      case EnterReconnectBackoff =>
        scheduler.EnterBackoffMode();
        status := scanner.BeginKnownDevice(runtimeReady, io.scan);
      case StopScanning =>
        status := scanner.StopScan(io.scan);
      case EraseBonds =>
        status := scanner.StopScan(io.scan);
        if status != OK {
          return;
        }
        if !runtimeReady {
          return INVALID_STATE;
        }
        if io.unpairErr != 0 {
          return io.unpairErr;
        }
        runtimeHasBond := false;
        status := io.persistErr;
    }
  }
}
