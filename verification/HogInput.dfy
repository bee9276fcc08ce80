/**
 The input path of main/src/hog_client.c: notifications enter a bounded queue, a worker
 drains it, folds contiguous compatible mouse events and hands each result to the bridge.

 `State` and `Step` are the path as a transition system in which notifications, purges and
 the worker's queue accesses interleave freely. `InputPath` is the code itself.
 */
module HogInput {
  import opened Basics
  import opened MouseCodec

  const QUEUE_DEPTH: nat := 32
  const PAYLOAD_MAX: nat := 16

  datatype Event = Event(role: Role, payload: seq<Byte>)

  predicate IsMouseInput(e: Event) {
    e.role.MouseInput? && SupportedLen(|e.payload|)
  }

  predicate CanMerge(e: Event, next: Event) {
    && IsMouseInput(e) && IsMouseInput(next)
    && |e.payload| == |next.payload| && e.payload[0] == next.payload[0]
  }

  function AddBodies(a: MouseBody, b: MouseBody): MouseBody {
    MouseBody(a.buttons, Saturate16(a.dx + b.dx), Saturate16(a.dy + b.dy),
              Saturate16(a.scrollY + b.scrollY), Saturate16(a.scrollX + b.scrollX))
  }

  /** accumulate_mouse_event: the new contents of `e`. */
  function Accumulate(e: Event, next: Event): Event {
    if !CanMerge(e, next) then e
    else
      var sum := AddBodies(Decode(e.payload).value, Decode(next.payload).value);
      match Encode(sum, |e.payload|)
      case Ok(bytes) => e.(payload := bytes)
      case Err(_) => e
  }

  // ---------- What a group of folded events carries ----------

  datatype Axis = Dx | Dy | ScrollY | ScrollX

  function AxisOf(m: MouseBody, axis: Axis): Int16 {
    match axis
    case Dx => m.dx
    case Dy => m.dy
    case ScrollY => m.scrollY
    case ScrollX => m.scrollX
  }

  function Delta(e: Event, axis: Axis): int {
    if IsMouseInput(e) then AxisOf(Decode(e.payload).value, axis) else 0
  }

  function Deltas(group: seq<Event>, axis: Axis): seq<int> {
    seq(|group|, i requires 0 <= i < |group| => Delta(group[i], axis))
  }

  /** Events that may share one report: a single one, or mouse events of one length and buttons byte. */
  ghost predicate Foldable(group: seq<Event>) {
    && group != []
    && (|group| > 1 ==> IsMouseInput(group[0]))
    && forall i :: 1 <= i < |group| ==> CanMerge(group[0], group[i])
  }

  lemma AddBodiesPerAxis(a: MouseBody, b: MouseBody, axis: Axis, len: nat)
    ensures AxisOf(Narrow(AddBodies(a, b), len), axis) == SatAdd(AxisOf(a, axis), AxisOf(b, axis), len)
  {
    NarrowAfterSaturate16(AxisOf(a, axis) + AxisOf(b, axis), len);
  }

  lemma AccumulateDecodes(e: Event, next: Event)
    requires CanMerge(e, next)
    ensures var r := Accumulate(e, next);
            && r.role == e.role && |r.payload| == |e.payload|
            && Decode(r.payload)
            == Ok(Narrow(AddBodies(Decode(e.payload).value, Decode(next.payload).value), |e.payload|))
  {
    DecodeInvertsEncode(AddBodies(Decode(e.payload).value, Decode(next.payload).value), |e.payload|);
  }

  lemma AccumulateAddsPerAxis(e: Event, next: Event, axis: Axis)
    requires CanMerge(e, next)
    ensures var r := Accumulate(e, next);
            && IsMouseInput(r) && |r.payload| == |e.payload| && r.payload[0] == e.payload[0]
            && Delta(r, axis) == SatAdd(Delta(e, axis), Delta(next, axis), |e.payload|)
  {
    AccumulateDecodes(e, next);
    AddBodiesPerAxis(Decode(e.payload).value, Decode(next.payload).value, axis, |e.payload|);
    assert Decode(Accumulate(e, next).payload).value.buttons == Decode(e.payload).value.buttons;
  }

  /** The report bridged for a group carries, per axis, the saturating sum of the group. */
  ghost predicate Carries(report: Event, group: seq<Event>) {
    && Foldable(group)
    && (|group| == 1 ==> report == group[0])
    && (|group| > 1 ==>
          && IsMouseInput(report)
          && |report.payload| == |group[0].payload| && report.payload[0] == group[0].payload[0]
          && forall axis :: Delta(report, axis) == SatFold(Deltas(group, axis), |report.payload|))
  }

  lemma DeltaFits(e: Event, axis: Axis)
    requires IsMouseInput(e)
    ensures Fit(Delta(e, axis), |e.payload|) == Delta(e, axis)
  {
  }

  lemma DeltasExtend(group: seq<Event>, next: Event, axis: Axis)
    ensures Deltas(group + [next], axis) == Deltas(group, axis) + [Delta(next, axis)]
  {
  }

  lemma SatFoldExtends(d: seq<int>, x: int, len: nat)
    ensures SatFold(d + [x], len) == SatAdd(SatFold(d, len), x, len)
  {
    assert (d + [x])[..|d|] == d;
  }

  /** What the report carries along one axis is the fold over its group. */
  lemma CarriedAlong(report: Event, group: seq<Event>, axis: Axis)
    requires Carries(report, group) && IsMouseInput(report)
    ensures Delta(report, axis) == SatFold(Deltas(group, axis), |report.payload|)
  {
    if |group| == 1 {
      DeltaFits(report, axis);
      var d := Deltas(group, axis);
      assert d == [] + [Delta(report, axis)];
      SatFoldExtends([], Delta(report, axis), |report.payload|);
    }
  }

  lemma CarriesExtends(report: Event, group: seq<Event>, next: Event)
    requires Carries(report, group) && CanMerge(report, next)
    ensures Carries(Accumulate(report, next), group + [next])
  {
    var longer := group + [next];
    var r := Accumulate(report, next);
    FoldableExtends(report, group, next);
    AccumulateAddsPerAxis(report, next, Dx);
    forall axis ensures Delta(r, axis) == SatFold(Deltas(longer, axis), |r.payload|) {
      AccumulateAddsPerAxis(report, next, axis);
      CarriedAlong(report, group, axis);
      DeltasExtend(group, next, axis);
      SatFoldExtends(Deltas(group, axis), Delta(next, axis), |r.payload|);
    }
  }

  lemma FoldableExtends(report: Event, group: seq<Event>, next: Event)
    requires Carries(report, group) && CanMerge(report, next)
    ensures Foldable(group + [next])
  {
    var longer := group + [next];
    assert longer[0] == group[0];
    assert forall i :: 1 <= i < |group| ==> longer[i] == group[i];
  }

  // ---------- The transition system ----------

  /** A queued notification together with its position in the stream of accepted ones. */
  datatype Entry = Entry(id: nat, event: Event)

  datatype Phase = Waiting | Merging | Bridging

  datatype Bridged = Bridged(report: Event, group: seq<Entry>)

  datatype State = State(
    queue: seq<Entry>,
    phase: Phase,
    inHand: seq<Entry>,     // the entries folded into `event` so far
    event: Event,           // the worker's `event` local, meaningless while Waiting
    deferred: Option<Entry>,
    bridged: seq<Bridged>,
    accepted: seq<Event>,   // every notification that entered the queue, in order
    purged: set<nat>)       // positions removed by k_msgq_purge

  datatype Op = Notify(event: Event) | Purge | WorkerStep

  const NO_EVENT: Event := Event(Unknown, [])

  function Init(): State {
    State([], Waiting, [], NO_EVENT, None, [], [], {})
  }

  function Ids(entries: seq<Entry>): set<nat> {
    set i | 0 <= i < |entries| :: entries[i].id
  }

  function Events(entries: seq<Entry>): seq<Event> {
    seq(|entries|, i requires 0 <= i < |entries| => entries[i].event)
  }

  /** k_msgq_put with K_NO_WAIT: a full queue drops the notification. */
  function Put(s: State, e: Event): State {
    if |s.queue| >= QUEUE_DEPTH then s
    else s.(queue := s.queue + [Entry(|s.accepted|, e)], accepted := s.accepted + [e])
  }

  function PurgeQueue(s: State): State {
    s.(queue := [], purged := s.purged + Ids(s.queue))
  }

  function Begin(s: State, e: Entry): State {
    s.(phase := if IsMouseInput(e.event) then Merging else Bridging, inHand := [e], event := e.event)
  }

  /** One queue access or bridge call of hog_input_task. */
  function Work(s: State): State {
    match s.phase
    case Waiting =>
      if s.deferred.Some? then Begin(s.(deferred := None), s.deferred.value)
      else if s.queue == [] then s
      else Begin(s.(queue := s.queue[1..]), s.queue[0])
    case Merging =>
      if s.queue == [] then s.(phase := Bridging)
      else
        var next := s.queue[0];
        var s' := s.(queue := s.queue[1..]);
        if CanMerge(s.event, next.event)
        then s'.(event := Accumulate(s.event, next.event), inHand := s.inHand + [next])
        else s'.(deferred := Some(next), phase := Bridging)
    case Bridging =>
      s.(phase := Waiting, inHand := [], event := NO_EVENT,
         bridged := s.bridged + [Bridged(s.event, s.inHand)])
  }

  function Step(s: State, op: Op): State {
    match op
    case Notify(e) => Put(s, e)
    case Purge => PurgeQueue(s)
    case WorkerStep => Work(s)
  }

  function Run(s: State, ops: seq<Op>): State {
    if ops == [] then s else Step(Run(s, ops[..|ops| - 1]), ops[|ops| - 1])
  }

  // ---------- Stream refinement ----------

  /** The accepted notifications that were never purged, in order of acceptance. */
  ghost function Surviving(accepted: seq<Event>, purged: set<nat>): seq<Entry> {
    if accepted == [] then []
    else
      var n := |accepted| - 1;
      Surviving(accepted[..n], purged) + if n in purged then [] else [Entry(n, accepted[n])]
  }

  function Flatten(bridged: seq<Bridged>): seq<Entry> {
    if bridged == [] then []
    else Flatten(bridged[..|bridged| - 1]) + bridged[|bridged| - 1].group
  }

  function DeferredLine(d: Option<Entry>): seq<Entry> {
    match d case None => [] case Some(e) => [e]
  }

  /** Everything the path still accounts for, oldest first. */
  function Line(s: State): seq<Entry> {
    Flatten(s.bridged) + s.inHand + DeferredLine(s.deferred) + s.queue
  }

  /** The groups bridged and the one in hand are legal, and the deferred slot is free while merging. */
  ghost predicate Grouped(s: State) {
    && (forall i :: 0 <= i < |s.bridged| ==> Carries(s.bridged[i].report, Events(s.bridged[i].group)))
    && (s.phase.Waiting? <==> s.inHand == [])
    && (!s.phase.Waiting? ==> Carries(s.event, Events(s.inHand)))
    && (s.phase.Merging? ==> IsMouseInput(s.event) && s.deferred.None?)
  }

  ghost predicate Inv(s: State) {
    && Line(s) == Surviving(s.accepted, s.purged)
    && |s.queue| <= QUEUE_DEPTH
    && Grouped(s)
  }

  lemma {:induction false} SurvivingIgnoresLater(accepted: seq<Event>, p: set<nat>, q: set<nat>)
    requires forall i :: 0 <= i < |accepted| ==> (i in p <==> i in q)
    ensures Surviving(accepted, p) == Surviving(accepted, q)
  {
    if accepted != [] {
      SurvivingIgnoresLater(accepted[..|accepted| - 1], p, q);
    }
  }

  lemma {:induction false} SurvivingIdsBounded(accepted: seq<Event>, purged: set<nat>)
    ensures forall i :: 0 <= i < |Surviving(accepted, purged)| ==> Surviving(accepted, purged)[i].id < |accepted|
  {
    if accepted != [] {
      SurvivingIdsBounded(accepted[..|accepted| - 1], purged);
    }
  }

  /** Purging the newest survivors leaves exactly the older ones. */
  lemma {:induction false} PurgeDropsSuffix(accepted: seq<Event>, purged: set<nat>,
    older: seq<Entry>, newer: seq<Entry>)
    requires Surviving(accepted, purged) == older + newer
    ensures Surviving(accepted, purged + Ids(newer)) == older
    decreases |accepted|
  {
    if newer == [] {
      assert purged + Ids(newer) == purged;
    } else if accepted == [] {
    } else {
      var n := |accepted| - 1;
      var front := accepted[..n];
      SurvivingIdsBounded(front, purged);
      if n in purged {
        PurgeDropsSuffix(front, purged, older, newer);
      } else {
        var m := |newer| - 1;
        var all := Surviving(accepted, purged);
        assert all[|all| - 1] == Entry(n, accepted[n]) == newer[m];
        assert Surviving(front, purged) == all[..|all| - 1] == older + newer[..m];
        PurgeDropsSuffix(front, purged, older, newer[..m]);
        assert Ids(newer) == Ids(newer[..m]) + {n};
        SurvivingIgnoresLater(front, purged + Ids(newer), purged + Ids(newer[..m]));
      }
    }
  }

  lemma AcceptAppends(accepted: seq<Event>, purged: set<nat>, e: Event)
    requires |accepted| !in purged
    ensures Surviving(accepted + [e], purged) == Surviving(accepted, purged) + [Entry(|accepted|, e)]
  {
    assert (accepted + [e])[..|accepted|] == accepted;
  }

  ghost predicate PurgedBounded(s: State) {
    forall i :: i in s.purged ==> i < |s.accepted|
  }

  lemma LineTakes(s: State)
    requires s.phase.Waiting? && s.inHand == []
    ensures Line(Work(s)) == Line(s)
  {
    var done := Flatten(s.bridged);
    if s.deferred.Some? {
      assert done + [] + [s.deferred.value] == done + [s.deferred.value] + [];
    } else if s.queue != [] {
      assert done + [] + [] + s.queue == done + [s.queue[0]] + [] + s.queue[1..];
    }
  }

  lemma LineMerges(s: State)
    requires s.phase.Merging? && s.deferred.None?
    ensures Line(Work(s)) == Line(s)
  {
    if s.queue != [] {
      var done := Flatten(s.bridged);
      var next := s.queue[0];
      assert done + (s.inHand + [next]) == done + s.inHand + [next];
      assert done + s.inHand + [] + s.queue == done + s.inHand + [next] + s.queue[1..];
    }
  }

  lemma LineBridges(s: State)
    requires s.phase.Bridging?
    ensures Line(Work(s)) == Line(s)
  {
    var s' := Work(s);
    assert s'.bridged[..|s'.bridged| - 1] == s.bridged;
    assert Flatten(s'.bridged) + [] == Flatten(s.bridged) + s.inHand;
  }

  /** The worker moves entries along the line but never adds, drops or reorders one. */
  lemma LineOfWork(s: State)
    requires Inv(s)
    ensures Line(Work(s)) == Line(s)
  {
    match s.phase
    case Waiting => LineTakes(s);
    case Merging => LineMerges(s);
    case Bridging => LineBridges(s);
  }

  lemma TakeKeepsGroups(s: State)
    requires Grouped(s) && s.phase.Waiting?
    ensures Grouped(Work(s))
  {
    if s.deferred.Some? || s.queue != [] {
      var e := if s.deferred.Some? then s.deferred.value else s.queue[0];
      assert Events([e]) == [e.event];
    }
  }

  lemma MergeKeepsGroups(s: State)
    requires Grouped(s) && s.phase.Merging?
    ensures Grouped(Work(s))
  {
    if s.queue != [] && CanMerge(s.event, s.queue[0].event) {
      CarriesExtends(s.event, Events(s.inHand), s.queue[0].event);
      AccumulateDecodes(s.event, s.queue[0].event);
      assert Events(s.inHand + [s.queue[0]]) == Events(s.inHand) + [s.queue[0].event];
    }
  }

  lemma BridgeKeepsGroups(s: State)
    requires Grouped(s) && s.phase.Bridging?
    ensures Grouped(Work(s))
  {
  }

  lemma WorkKeepsInv(s: State)
    requires Inv(s)
    ensures Inv(Work(s))
  {
    LineOfWork(s);
    match s.phase
    case Waiting => TakeKeepsGroups(s);
    case Merging => MergeKeepsGroups(s);
    case Bridging => BridgeKeepsGroups(s);
  }

  lemma PutKeepsInv(s: State, e: Event)
    requires Inv(s) && PurgedBounded(s)
    ensures Inv(Put(s, e)) && PurgedBounded(Put(s, e))
  {
    if |s.queue| < QUEUE_DEPTH {
      AcceptAppends(s.accepted, s.purged, e);
      assert Line(Put(s, e)) == Line(s) + [Entry(|s.accepted|, e)];
    }
  }

  lemma NewestBounded(accepted: seq<Event>, purged: set<nat>, older: seq<Entry>, newer: seq<Entry>)
    requires Surviving(accepted, purged) == older + newer
    ensures forall i :: i in Ids(newer) ==> i < |accepted|
  {
    SurvivingIdsBounded(accepted, purged);
    forall i | i in Ids(newer) ensures i < |accepted| {
      var k :| 0 <= k < |newer| && newer[k].id == i;
      assert (older + newer)[|older| + k] == newer[k];
    }
  }

  lemma PurgeKeepsInv(s: State)
    requires Inv(s) && PurgedBounded(s)
    ensures Inv(PurgeQueue(s)) && PurgedBounded(PurgeQueue(s))
  {
    var older := Flatten(s.bridged) + s.inHand + DeferredLine(s.deferred);
    NewestBounded(s.accepted, s.purged, older, s.queue);
    PurgeDropsSuffix(s.accepted, s.purged, older, s.queue);
    assert Line(PurgeQueue(s)) == older + [];
  }

  lemma StepKeepsInv(s: State, op: Op)
    requires Inv(s) && PurgedBounded(s)
    ensures Inv(Step(s, op)) && PurgedBounded(Step(s, op))
  {
    match op
    case Notify(e) => PutKeepsInv(s, e);
    case Purge => PurgeKeepsInv(s);
    case WorkerStep => WorkKeepsInv(s);
  }

  /**
   For every interleaving of notifications, purges and worker steps: what was accepted and not
   purged is exactly what was bridged, is in hand, deferred or queued, in that order; and each
   bridged report carries one legal group of it.
   */
  lemma {:induction false} StreamRefinement(ops: seq<Op>)
    ensures Inv(Run(Init(), ops)) && PurgedBounded(Run(Init(), ops))
  {
    if ops != [] {
      StreamRefinement(ops[..|ops| - 1]);
      StepKeepsInv(Run(Init(), ops[..|ops| - 1]), ops[|ops| - 1]);
    }
  }

  // ---------- What is folded, and what is not ----------

  /**
   No button change is folded away: the events of a bridged group of two or more are all mouse events
   of the report's own length and buttons byte, and a single event is bridged as it came.
   */
  lemma ButtonsNeverFolded(ops: seq<Op>, i: nat)
    requires i < |Run(Init(), ops).bridged|
    ensures var report, group := Run(Init(), ops).bridged[i].report, Run(Init(), ops).bridged[i].group;
            && group != []
            && (|group| == 1 ==> report == group[0].event)
            && (|group| >= 2 ==>
                  && report.role == MouseInput && (|report.payload| == 5 || |report.payload| == 9)
                  && forall k :: 0 <= k < |group| ==>
                       && group[k].event.role == MouseInput
                       && |group[k].event.payload| == |report.payload|
                       && group[k].event.payload[0] == report.payload[0])
  {
    StreamRefinement(ops);
    var b := Run(Init(), ops).bridged[i];
    assert Carries(b.report, Events(b.group));
    assert forall k :: 0 <= k < |b.group| ==> Events(b.group)[k] == b.group[k].event;
  }

  /**
   While the worker merges, the head of the queue is folded exactly if it has the role, the length and
   the buttons byte of the event in hand; any other is deferred and ends the merging.
   */
  lemma HeadFoldedExactly(ops: seq<Op>)
    requires var s := Run(Init(), ops); s.phase.Merging? && s.queue != []
    ensures var s := Run(Init(), ops);
            var t, head := Step(s, WorkerStep), s.queue[0];
            && s.event.role == MouseInput && (|s.event.payload| == 5 || |s.event.payload| == 9)
            && s.deferred.None? && t.queue == s.queue[1..] && t.bridged == s.bridged
            && if && head.event.role == MouseInput && |head.event.payload| == |s.event.payload|
                  && head.event.payload[0] == s.event.payload[0]
               then && t.phase.Merging? && t.inHand == s.inHand + [head] && t.deferred.None?
                    && t.event.role == MouseInput && |t.event.payload| == |s.event.payload|
                    && t.event.payload[0] == s.event.payload[0]
               else t.phase.Bridging? && t.inHand == s.inHand && t.deferred == Some(head) && t.event == s.event
  {
    StreamRefinement(ops);
    var s := Run(Init(), ops);
    if CanMerge(s.event, s.queue[0].event) {
      AccumulateAddsPerAxis(s.event, s.queue[0].event, Dx);
    }
  }

  /** Only mouse events of the two known lengths are merged; whatever else is taken is bridged at once. */
  lemma TakenExactly(ops: seq<Op>)
    ensures var s := Run(Init(), ops);
            var t := Step(s, WorkerStep);
            s.phase.Waiting? && (s.deferred.Some? || s.queue != []) ==>
              var e := if s.deferred.Some? then s.deferred.value else s.queue[0];
              && t.inHand == [e] && t.event == e.event && t.deferred.None?
              && t.queue == (if s.deferred.Some? then s.queue else s.queue[1..])
              && (if e.event.role == MouseInput && (|e.event.payload| == 5 || |e.event.payload| == 9)
                  then t.phase.Merging? else t.phase.Bridging?)
  {
  }

  /** A notification enters the queue exactly if fewer than 32 are waiting; otherwise it alone is lost. */
  lemma QueuedExactly(ops: seq<Op>, e: Event)
    ensures var s := Run(Init(), ops);
            var t := Step(s, Notify(e));
            && |s.queue| <= 32
            && (|s.queue| < 32 ==> Events(t.queue) == Events(s.queue) + [e] && t.accepted == s.accepted + [e])
            && (|s.queue| == 32 ==> t == s)
            && Flatten(t.bridged) == Flatten(s.bridged) && t.inHand == s.inHand && t.deferred == s.deferred
  {
    StreamRefinement(ops);
  }

  /** The deferred slot is only ever filled when it is empty. */
  lemma DeferredNeverOverwritten(ops: seq<Op>, op: Op)
    ensures var s := Run(Init(), ops);
            var s' := Step(s, op);
            s.deferred.Some? && s'.deferred != s.deferred ==>
              s'.deferred.None? && s'.inHand == [s.deferred.value]
  {
    StreamRefinement(ops);
  }

  function Reports(bridged: seq<Bridged>): seq<Event> {
    seq(|bridged|, i requires 0 <= i < |bridged| => bridged[i].report)
  }

  function NonMouse(events: seq<Event>): seq<Event> {
    if events == [] then []
    else
      var rest := NonMouse(events[..|events| - 1]);
      var last := events[|events| - 1];
      if IsMouseInput(last) then rest else rest + [last]
  }

  lemma {:induction false} NonMouseConcat(a: seq<Event>, b: seq<Event>)
    ensures NonMouse(a + b) == NonMouse(a) + NonMouse(b)
  {
    if b == [] {
      assert a + b == a;
    } else {
      assert (a + b)[..|a + b| - 1] == a + b[..|b| - 1];
      NonMouseConcat(a, b[..|b| - 1]);
    }
  }

  lemma {:induction false} NonMouseOfMouseGroup(group: seq<Event>)
    requires forall i :: 0 <= i < |group| ==> IsMouseInput(group[i])
    ensures NonMouse(group) == []
  {
    if group != [] {
      NonMouseOfMouseGroup(group[..|group| - 1]);
    }
  }

  lemma NonMouseGroup(report: Event, group: seq<Event>)
    requires Carries(report, group)
    ensures NonMouse([report]) == NonMouse(group)
  {
    if |group| == 1 {
      assert group == [report];
    } else {
      NonMouseOfMouseGroup(group);
      NonMouseOfMouseGroup([report]);
    }
  }

  lemma {:induction false} NonMouseReports(bridged: seq<Bridged>)
    requires forall i :: 0 <= i < |bridged| ==> Carries(bridged[i].report, Events(bridged[i].group))
    ensures NonMouse(Reports(bridged)) == NonMouse(Events(Flatten(bridged)))
  {
    if bridged != [] {
      var front := bridged[..|bridged| - 1];
      var last := bridged[|bridged| - 1];
      NonMouseReports(front);
      assert Reports(bridged) == Reports(front) + [last.report];
      assert Events(Flatten(bridged)) == Events(Flatten(front)) + Events(last.group);
      NonMouseConcat(Reports(front), [last.report]);
      NonMouseConcat(Events(Flatten(front)), Events(last.group));
      NonMouseGroup(last.report, Events(last.group));
    }
  }

  /**
   Keyboard, consumer and unsupported events reach the bridge unmerged and in order: the
   non-mouse reports bridged are exactly the non-mouse events among the oldest survivors.
   */
  lemma OtherRolesPassThrough(ops: seq<Op>)
    ensures var s := Run(Init(), ops);
            var done := Flatten(s.bridged);
            && done <= Surviving(s.accepted, s.purged)
            && NonMouse(Reports(s.bridged)) == NonMouse(Events(done))
  {
    StreamRefinement(ops);
    var s := Run(Init(), ops);
    NonMouseReports(s.bridged);
    LineStartsBridged(s);
  }

  lemma LineStartsBridged(s: State)
    ensures Flatten(s.bridged) <= Line(s)
  {
  }

  /** Movement of a folded group: exact when nothing saturates, clamped when it has one direction. */
  lemma BridgedMovement(ops: seq<Op>, i: nat, axis: Axis)
    requires i < |Run(Init(), ops).bridged|
    ensures var b := Run(Init(), ops).bridged[i];
            var d := Deltas(Events(b.group), axis);
            var len := |b.report.payload|;
            IsMouseInput(b.report) ==>
              && InRange(Delta(b.report, axis), len)
              && Delta(b.report, axis) == SatFold(d, len)
              && ((forall k :: 0 <= k <= |d| ==> InRange(Sum(d[..k]), len)) ==> Delta(b.report, axis) == Sum(d))
              && ((forall k :: 0 <= k < |d| ==> 0 <= d[k]) || (forall k :: 0 <= k < |d| ==> d[k] <= 0) ==>
                    Delta(b.report, axis) == Fit(Sum(d), len))
  {
    StreamRefinement(ops);
    var b := Run(Init(), ops).bridged[i];
    var d := Deltas(Events(b.group), axis);
    var len := |b.report.payload|;
    if IsMouseInput(b.report) {
      CarriedAlong(b.report, Events(b.group), axis);
      DeltaFits(b.report, axis);
      if forall k :: 0 <= k <= |d| ==> InRange(Sum(d[..k]), len) {
        SatFoldExact(d, len);
      }
      if (forall k :: 0 <= k < |d| ==> 0 <= d[k]) || (forall k :: 0 <= k < |d| ==> d[k] <= 0) {
        SatFoldOneSign(d, len);
      }
    }
  }

  /** `n` steps of the worker with nothing in between. */
  function WorkAlone(s: State, n: nat): State
    decreases n
  {
    if n == 0 then s else WorkAlone(Work(s), n - 1)
  }

  /** Nothing is left to bridge. */
  predicate Drained(s: State) {
    s.queue == [] && s.deferred.None? && s.phase.Waiting?
  }

  /** Worker steps a backlog still needs, at most. */
  function Backlog(s: State): nat {
    3 * |s.queue| + 3 * |DeferredLine(s.deferred)|
    + (match s.phase case Waiting => 0 case Merging => 2 case Bridging => 1)
  }

  lemma WorkShrinks(s: State)
    requires Inv(s) && !Drained(s)
    ensures Backlog(Work(s)) < Backlog(s)
  {
  }

  lemma DrainedLine(s: State)
    requires Drained(s) && Inv(s)
    ensures Line(s) == Flatten(s.bridged)
  {
  }

  lemma WorkProgress(s: State)
    requires Inv(s) && !Drained(s)
    ensures Inv(Work(s)) && Line(Work(s)) == Line(s) && Backlog(Work(s)) < Backlog(s)
  {
    WorkShrinks(s);
    WorkKeepsInv(s);
    LineOfWork(s);
  }

  /** After `n` steps of its own the worker has bridged exactly `line`. */
  ghost predicate DrainsTo(s: State, n: nat, line: seq<Entry>) {
    Drained(WorkAlone(s, n)) && Flatten(WorkAlone(s, n).bridged) == line
  }

  lemma DrainsLater(s: State, n: nat, line: seq<Entry>)
    requires DrainsTo(Work(s), n, line)
    ensures DrainsTo(s, n + 1, line)
  {
  }

  /** With no interference the worker bridges the whole line and goes back to waiting. */
  lemma {:induction false} WorkerDrains(s: State, line: seq<Entry>) returns (n: nat)
    requires Inv(s) && line == Line(s)
    ensures n <= Backlog(s) && DrainsTo(s, n, line)
    decreases Backlog(s)
  {
    if Drained(s) {
      n := 0;
      DrainedLine(s);
    } else {
      WorkProgress(s);
      n := WorkerDrains(Work(s), line);
      DrainsLater(s, n, line);
      n := n + 1;
    }
  }

  // ---------- The code ----------

  /** What a context other than the worker does: a GATT notification, or a client reset. */
  datatype Interference = Arrive(connMatches: bool, slotRole: Option<Role>, data: Option<seq<Byte>>) | Reset

  /** The worker's locals and the kernel queue stand for the abstract state `m`. */
  ghost predicate Represents(queue: seq<Event>, event: Event, deferredEvent: Event, hasDeferredEvent: bool, m: State) {
    && queue == Events(m.queue)
    && (hasDeferredEvent <==> m.deferred.Some?)
    && (hasDeferredEvent ==> deferredEvent == m.deferred.value.event)
    && (!m.phase.Waiting? ==> event == m.event)
  }

  lemma EventsTail(entries: seq<Entry>)
    requires entries != []
    ensures Events(entries)[0] == entries[0].event && Events(entries)[1..] == Events(entries[1..])
  {
  }

  lemma MergeRepresents(queue: seq<Event>, event: Event, deferredEvent: Event, m: State)
    requires Represents(queue, event, deferredEvent, false, m) && m.phase.Merging? && queue != []
    ensures Work(m).bridged == m.bridged
    ensures m.inHand != [] ==> Work(m).inHand != [] && Work(m).inHand[0] == m.inHand[0]
    ensures CanMerge(event, queue[0]) ==>
              && Represents(queue[1..], Accumulate(event, queue[0]), deferredEvent, false, Work(m))
              && Work(m).phase.Merging? && IsMouseInput(Accumulate(event, queue[0]))
    ensures !CanMerge(event, queue[0]) ==>
              Represents(queue[1..], event, queue[0], true, Work(m)) && Work(m).phase.Bridging?
  {
    EventsTail(m.queue);
    if CanMerge(event, queue[0]) {
      AccumulateDecodes(event, queue[0]);
    }
  }

  lemma TakeRepresents(queue: seq<Event>, event: Event, deferredEvent: Event, hasDeferredEvent: bool, m: State)
    requires Represents(queue, event, deferredEvent, hasDeferredEvent, m) && m.phase.Waiting?
    requires hasDeferredEvent || queue != []
    ensures Work(m).bridged == m.bridged && |Work(m).inHand| == 1
    ensures hasDeferredEvent ==>
              && Represents(queue, deferredEvent, deferredEvent, false, Work(m))
              && Work(m).inHand == [m.deferred.value]
              && Work(m).phase == if IsMouseInput(deferredEvent) then Merging else Bridging
    ensures !hasDeferredEvent ==>
              && Represents(queue[1..], queue[0], deferredEvent, false, Work(m))
              && Work(m).phase == if IsMouseInput(queue[0]) then Merging else Bridging
  {
    if !hasDeferredEvent {
      EventsTail(m.queue);
    }
  }

  /**
   The queue and the worker thread. `schedule` lists what the other contexts do before each of
   the worker's next queue accesses; it is finite, as every finite execution is.
   */
  class InputPath {
    var queue: seq<Event>
    var event: Event
    var deferredEvent: Event
    var hasDeferredEvent: bool
    var schedule: seq<seq<Interference>>
    ghost var model: State
    ghost var trace: seq<Op>

    /** The fields represent the state that the transition system reaches along `trace`. */
    ghost predicate Valid()
      reads this
    {
      && model == Run(Init(), trace)
      && Represents(queue, event, deferredEvent, hasDeferredEvent, model)
    }

    constructor (schedule: seq<seq<Interference>>)
      ensures Valid() && trace == [] && this.schedule == schedule
    {
      queue, hasDeferredEvent, this.schedule := [], false, schedule;
      event, deferredEvent := NO_EVENT, NO_EVENT;
      model, trace := Init(), [];
    }

    ghost method Log(op: Op)
      requires model == Run(Init(), trace)
      modifies `model, `trace
      ensures trace == old(trace) + [op] && model == Step(old(model), op) == Run(Init(), trace)
    {
      model := Step(model, op);
      trace := trace + [op];
      assert trace[..|trace| - 1] == old(trace);
    }

    /** on_report_notify; a NULL `data` ends the subscription and queues nothing. */
    method OnReportNotify(connMatches: bool, slotRole: Option<Role>, data: Option<seq<Byte>>) returns (more: bool)
      requires Valid()
      modifies `queue, `model, `trace
      ensures Valid()
      ensures more == (connMatches && slotRole.Some? && data.Some?)
      ensures trace == old(trace) + if connMatches && slotRole.Some? && data.Some? && |data.value| <= 16
                                    then [Notify(Event(slotRole.value, data.value))] else []
      ensures model == if connMatches && slotRole.Some? && data.Some? && |data.value| <= 16
                       then Put(old(model), Event(slotRole.value, data.value)) else old(model)
    {
      if !connMatches || slotRole.None? {
        return false;
      }
      if data.None? {
        return false;
      }
      if |data.value| > PAYLOAD_MAX {
        return true;
      }
      var e := Event(slotRole.value, data.value);
      if |queue| < QUEUE_DEPTH {
        queue := queue + [e];
      }
      Log(Notify(e));
      return true;
    }

    /** k_msgq_purge, from the client reset. */
    method PurgeInput()
      requires Valid()
      modifies `queue, `model, `trace
      ensures Valid() && queue == [] && trace == old(trace) + [Purge] && model == PurgeQueue(old(model))
    {
      queue := [];
      Log(Purge);
    }

    /** The other contexts run until the worker is scheduled again. */
    method OtherContexts()
      requires Valid()
      modifies `queue, `schedule, `model, `trace
      ensures Valid() && old(trace) <= trace
      ensures schedule == if old(schedule) == [] then [] else old(schedule)[1..]
      ensures old(schedule) == [] ==> queue == old(queue) && model == old(model)
      ensures model == old(model).(queue := model.queue, accepted := model.accepted, purged := model.purged)
    {
      if schedule == [] {
        return;
      }
      var acts := schedule[0];
      schedule := schedule[1..];
      for i := 0 to |acts|
        invariant Valid() && old(trace) <= trace && schedule == old(schedule)[1..]
        invariant model == old(model).(queue := model.queue, accepted := model.accepted, purged := model.purged)
      {
        match acts[i]
        case Arrive(connMatches, slotRole, data) =>
          var _ := OnReportNotify(connMatches, slotRole, data);
        case Reset =>
          PurgeInput();
      }
    }

    /** merge_contiguous_mouse_events: drains mergeable events, parks the first other one. */
    method MergeContiguousMouseEvents()
      requires Valid() && model.phase.Merging? && model.inHand != [] && IsMouseInput(event) && !hasDeferredEvent
      modifies this
      ensures Valid() && old(trace) <= trace
      ensures model.phase.Bridging? && model.bridged == old(model).bridged
      ensures model.inHand != [] && model.inHand[0] == old(model).inHand[0]
    {
      while true
        invariant Valid() && old(trace) <= trace
        invariant model.phase.Merging? && IsMouseInput(event) && !hasDeferredEvent
        invariant model.bridged == old(model).bridged
        invariant model.inHand != [] && model.inHand[0] == old(model).inHand[0]
        decreases |schedule|, |queue|
      {
        OtherContexts();
        if queue == [] {
          Log(WorkerStep);
          return;
        }
        MergeRepresents(queue, event, deferredEvent, model);
        var next := queue[0];
        queue := queue[1..];
        if !CanMerge(event, next) {
          deferredEvent := next;
          hasDeferredEvent := true;
          Log(WorkerStep);
          return;
        }
        event := Accumulate(event, next);
        Log(WorkerStep);
      }
    }

    /** One round of hog_input_task; None when the queue was found empty (the thread sleeps). */
    method InputTaskRound() returns (report: Option<Event>)
      requires Valid() && model.phase.Waiting?
      modifies this
      ensures Valid() && old(trace) <= trace && model.phase.Waiting?
      ensures report.None? ==> model.bridged == old(model).bridged && !old(hasDeferredEvent) && queue == []
      ensures report.Some? ==>
                exists group ::
                  && model.bridged == old(model).bridged + [Bridged(report.value, group)]
                  && group != []
                  && (old(hasDeferredEvent) ==> group[0] == old(model).deferred.value)
      ensures old(hasDeferredEvent) ==> report.Some?
    {
      if hasDeferredEvent {
        TakeRepresents(queue, event, deferredEvent, true, model);
        event := deferredEvent;
        hasDeferredEvent := false;
      } else {
        OtherContexts();
        if queue == [] {
          return None;
        }
        TakeRepresents(queue, event, deferredEvent, false, model);
        event := queue[0];
        queue := queue[1..];
      }
      Log(WorkerStep);
      if IsMouseInput(event) {
        MergeContiguousMouseEvents();
      }
      report := Some(event);
      ghost var group := model.inHand;
      Log(WorkerStep);
      assert model.bridged == old(model).bridged + [Bridged(report.value, group)];
    }
  }
}
