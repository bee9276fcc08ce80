/** The event queue of main/src/ble_manager.c. Event payloads only reach the log and are left out. */
module EventQueue {
  import opened Basics

  const DEPTH: nat := 16

  datatype Event =
    | UsbReady | BleSynced | PersistReadyWithBond | PersistReadyNoBond | ScanStarted
    | KnownDeviceFound | PairingCandidateFound | ConnectSuccess | ConnectFailure | SecurityReady
    | HidReady | HidFailure | Disconnected | HostReset | BondMismatch | MetadataFault
    | ButtonShortPress | ButtonLongPress | BondEraseComplete

  datatype Queue = Queue(events: seq<Event>, started: bool)

  predicate Accepts(q: Queue) {
    q.started && |q.events| < DEPTH
  }

  /** ble_manager_post_event */
  function Post(q: Queue, e: Event): (Queue, Status) {
    if !q.started then (q, INVALID_STATE)
    else if |q.events| >= DEPTH then (q, QUEUE_FULL)
    else (q.(events := q.events + [e]), OK)
  }

  /** k_msgq_get in the event task: the oldest event, if there is one. */
  function Take(q: Queue): (Queue, Option<Event>) {
    if q.events == [] then (q, None) else (q.(events := q.events[1..]), Some(q.events[0]))
  }

  // ---------- First in, first out ----------

  datatype Use = Posted(event: Event) | Taken

  /** The queue with every event it has accepted and every event the event task has taken. */
  datatype History = History(queue: Queue, accepted: seq<Event>, taken: seq<Event>)

  function Used(h: History, use: Use): History {
    match use
    case Posted(e) =>
      var (queue, status) := Post(h.queue, e);
      History(queue, if status == OK then h.accepted + [e] else h.accepted, h.taken)
    case Taken =>
      var (queue, e) := Take(h.queue);
      History(queue, h.accepted, if e.Some? then h.taken + [e.value] else h.taken)
  }

  function UsedBy(h: History, uses: seq<Use>): History {
    if uses == [] then h else Used(UsedBy(h, uses[..|uses| - 1]), uses[|uses| - 1])
  }

  /** What was accepted has been taken, in that order, or is still waiting, and no more than 16 are. */
  ghost predicate InOrder(h: History) {
    h.accepted == h.taken + h.queue.events && |h.queue.events| <= 16
  }

  lemma UseInOrder(h: History, use: Use)
    requires InOrder(h)
    ensures InOrder(Used(h, use))
  {
    match use
    case Posted(e) => assert h.taken + (h.queue.events + [e]) == h.taken + h.queue.events + [e];
    case Taken =>
      if h.queue.events != [] {
        var first := h.queue.events[0];
        assert h.taken + [first] + h.queue.events[1..] == h.taken + ([first] + h.queue.events[1..]);
      }
  }

  /** Over every run of posts and takes no accepted event is lost, doubled or overtaken. */
  lemma {:induction false} EventsInOrder(started: bool, uses: seq<Use>)
    ensures InOrder(UsedBy(History(Queue([], started), [], []), uses))
  {
    if uses != [] {
      EventsInOrder(started, uses[..|uses| - 1]);
      UseInOrder(UsedBy(History(Queue([], started), [], []), uses[..|uses| - 1]), uses[|uses| - 1]);
    }
  }

  /** After any run: which posts are accepted, what the others are told, and that a take finds the oldest. */
  lemma {:induction false} PostsExactly(started: bool, uses: seq<Use>, e: Event)
    ensures var h := UsedBy(History(Queue([], started), [], []), uses);
            var waiting := |h.accepted| - |h.taken|;
            && h.queue.started == started && 0 <= waiting <= 16
            && Post(h.queue, e).1 == (if !started then INVALID_STATE else if waiting < 16 then OK else QUEUE_FULL)
            && Used(h, Posted(e)).accepted == (if started && waiting < 16 then h.accepted + [e] else h.accepted)
            && Used(h, Taken).taken ==
                 (if waiting > 0 then h.taken + [h.accepted[|h.taken|]] else h.taken)
  {
    EventsInOrder(started, uses);
    StaysStarted(History(Queue([], started), [], []), uses);
  }

  lemma {:induction false} StaysStarted(h: History, uses: seq<Use>)
    ensures UsedBy(h, uses).queue.started == h.queue.started
  {
    if uses != [] {
      StaysStarted(h, uses[..|uses| - 1]);
    }
  }

  class Poster {
    var events: seq<Event>
    var threadStarted: bool

    ghost function View(): Queue
      reads this
    {
      Queue(events, threadStarted)
    }

    constructor (threadStarted: bool)
      ensures View() == Queue([], threadStarted)
    {
      events, this.threadStarted := [], threadStarted;
    }

    method TakeEvent() returns (e: Option<Event>)
      modifies this
      ensures (View(), e) == Take(old(View()))
    {
      if events == [] {
        return None;
      }
      e := Some(events[0]);
      events := events[1..];
    }

    method PostEvent(e: Event) returns (status: Status)
      modifies this
      ensures (View(), status) == Post(old(View()), e)
    {
      if !threadStarted {
        return INVALID_STATE;
      }
      if |events| >= DEPTH {
        return QUEUE_FULL;
      }
      events := events + [e];
      return OK;
    }
  }
}
