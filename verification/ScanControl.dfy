/** Starting and stopping scans in main/src/ble_scan.c. */
module ScanControl {
  import opened Basics
  import opened EventQueue

  /** Return codes of the Bluetooth calls an operation may make. */
  datatype ScanIo = ScanIo(stopErr: int, startErr: int, clearErr: int, addErr: int)

  datatype State = State(active: bool, pairing: bool, lastPeerValid: bool, queue: Queue)

  /** start_scan; `ready` is ble_runtime_is_ready. */
  function StartScan(s: State, ready: bool, pairing: bool, io: ScanIo): (State, Status) {
    if !ready then (s, INVALID_STATE)
    else if s.active && s.pairing == pairing then (s, OK)
    else if s.active && io.stopErr != 0 then (s, io.stopErr)
    else if io.startErr != 0 then (s.(active := false), io.startErr)
    else
      var (queue, status) := Post(s.queue, ScanStarted);
      (s.(active := true, pairing := pairing, queue := queue), status)
  }

  function StartPairing(s: State, ready: bool, io: ScanIo): (State, Status) {
    StartScan(s.(lastPeerValid := false), ready, true, io)
  }

  function StartKnownDevice(s: State, ready: bool, io: ScanIo): (State, Status) {
    if s.active && !s.pairing then (s, OK)
    else if io.clearErr != 0 then (s, io.clearErr)
    else if io.addErr != 0 then (s, io.addErr)
    else StartScan(s, ready, false, io)
  }

  function Stop(s: State, io: ScanIo): (State, Status) {
    if !s.active then (s, OK)
    else if io.stopErr != 0 then (s, io.stopErr)
    else (s.(active := false), OK)
  }

  class Scanner {
    var scanActive: bool
    var pairingMode: bool
    var lastKnownPeerValid: bool
    const poster: Poster

    ghost function View(): State
      reads this, poster
    {
      State(scanActive, pairingMode, lastKnownPeerValid, poster.View())
    }

    constructor (poster: Poster)
      ensures this.poster == poster && View() == State(false, false, false, poster.View())
    {
      this.poster := poster;
      scanActive, pairingMode, lastKnownPeerValid := false, false, false;
    }

    method Begin(ready: bool, pairing: bool, io: ScanIo) returns (status: Status)
      modifies this, poster
      ensures (View(), status) == StartScan(old(View()), ready, pairing, io)
    {
      if !ready {
        return INVALID_STATE;
      }
      if scanActive {
        if pairingMode == pairing {
          return OK;
        }
        if io.stopErr != 0 {
          return io.stopErr;
        }
        scanActive := false;
      }
      if io.startErr != 0 {
        return io.startErr;
      }
      scanActive := true;
      pairingMode := pairing;
      status := poster.PostEvent(ScanStarted);
    }

    method BeginPairing(ready: bool, io: ScanIo) returns (status: Status)
      modifies this, poster
      ensures (View(), status) == StartPairing(old(View()), ready, io)
    {
      lastKnownPeerValid := false;
      status := Begin(ready, true, io);
    }

    method BeginKnownDevice(ready: bool, io: ScanIo) returns (status: Status)
      modifies this, poster
      ensures (View(), status) == StartKnownDevice(old(View()), ready, io)
    {
      if scanActive && !pairingMode {
        return OK;
      }
      if io.clearErr != 0 {
        return io.clearErr;
      }
      if io.addErr != 0 {
        return io.addErr;
      }
      status := Begin(ready, false, io);
    }

    method StopScan(io: ScanIo) returns (status: Status)
      modifies this
      ensures (View(), status) == Stop(old(View()), io)
    {
      if !scanActive {
        return OK;
      }
      if io.stopErr != 0 {
        return io.stopErr;
      }
      scanActive := false;
      return OK;
    }
  }
}
