/** That a discovery session of HogDiscovery looks into every report before it subscribes to any. */
module HogWalk {
  import opened Basics
  import opened HogDiscovery
  import H = HogReadiness
  import P = HogDiscoveryProofs
  import R = HogRoles

  /** The slots whose descriptors, and whose reference, the session has asked for. */
  datatype Seen = Seen(descriptors: set<nat>, references: set<nat>)

  function Opened(seen: Seen, request: Request): Seen {
    match request
    case DescriptorRequest(i) => seen.(descriptors := seen.descriptors + {i})
    case ReferenceRequest(i) => seen.(references := seen.references + {i})
    case _ => seen
  }

  function SeenBy(io: Io, ops: seq<Op>): Seen {
    if ops == [] then Seen({}, {}) else Opened(SeenBy(io, ops[..|ops| - 1]), Run(io, ops).env.request)
  }

  predicate Empty(slot: Slot) {
    slot.valueHandle >= slot.endHandle
  }

  /** The first `n` reports have been looked into: their descriptors, and the reference if there is one. */
  ghost predicate LookedInto(slots: seq<Slot>, n: nat, seen: Seen) {
    && n <= |slots|
    && forall i :: 0 <= i < n ==>
         && (!Empty(slots[i]) ==> i in seen.descriptors)
         && (i in seen.descriptors && slots[i].refHandle != 0 ==> i in seen.references)
  }

  ghost predicate Before(seen: Seen, n: nat) {
    (forall i :: i in seen.descriptors ==> i < n) && (forall i :: i in seen.references ==> i < n)
  }

  /** Where the walk stands, by the request that is open. */
  ghost predicate Walked(s: State, seen: Seen) {
    && |s.slots| <= MAX_REPORTS
    && (s.env.request.ServiceRequest? || s.env.request.CharacteristicRequest? ==> Before(seen, 0) && s.env.phases == 0)
    && (s.env.request.DescriptorRequest? ==>
          && s.flags.current == s.env.request.index < |s.slots| && LookedInto(s.slots, s.flags.current, seen)
          && s.flags.current in seen.descriptors && Before(seen, s.flags.current + 1)
          && s.flags.current !in seen.references)
    && (s.env.request.ReferenceRequest? ==>
          && s.flags.current == s.env.request.index < |s.slots| && LookedInto(s.slots, s.flags.current, seen)
          && s.flags.current in seen.descriptors && s.flags.current in seen.references
          && Before(seen, s.flags.current + 1) && s.slots[s.flags.current].refHandle != 0)
    && (s.env.request.FeatureRequest? || s.env.phases > 0 ==> LookedInto(s.slots, |s.slots|, seen))
  }

  /** `t`, with the request it has opened, is where a walk may stand. */
  ghost predicate Leads(seen: Seen, t: State) {
    Walked(t, Opened(seen, t.env.request))
  }

  lemma StartLooked(s: State, io: Io, seen: Seen)
    requires |s.slots| <= MAX_REPORTS && s.env.request.NoRequest? && LookedInto(s.slots, |s.slots|, seen)
    ensures Leads(seen, StartSubscriptions(s, io).0)
  {
    P.SubscribeKeepsRequest(OpenPhase(s), 0, false, io);
  }

  /** Behind the last report come the mouse feature and the subscriptions. */
  lemma EndLooks(s: State, io: Io, seen: Seen)
    requires s.flags.current + 1 == |s.slots| <= MAX_REPORTS && s.env.request.NoRequest? && s.env.phases == 0
    requires LookedInto(s.slots, |s.slots|, seen)
    ensures Leads(seen, AdvanceAfterReference(s, io).0)
  {
    var t := s.(flags := s.flags.(current := s.flags.current + 1));
    var u := if t.profile.feature then StartFeatureRead(t, io).0 else t;
    if u.env.request.NoRequest? {
      StartLooked(u, io, seen);
    }
  }

  lemma AskLooks(s: State, io: Io, seen: Seen)
    requires s.flags.current < |s.slots| <= MAX_REPORTS && s.env.request.NoRequest? && s.env.phases == 0
    requires !Empty(s.slots[s.flags.current])
    requires LookedInto(s.slots, s.flags.current, seen) && Before(seen, s.flags.current)
    ensures Leads(seen, StartDescriptors(s, io).0)
  {
  }

  /** A report without descriptors counts as looked into. */
  lemma EmptyLooked(slots: seq<Slot>, n: nat, seen: Seen)
    requires n < |slots| && Empty(slots[n]) && LookedInto(slots, n, seen) && Before(seen, n)
    ensures LookedInto(slots, n + 1, seen) && Before(seen, n + 1)
  {
  }

  /** The walk goes on with the next report that has a descriptor, and subscribes only when there is none. */
  lemma {:induction false} AdvanceLooks(s: State, io: Io, seen: Seen)
    requires s.flags.current < |s.slots| <= MAX_REPORTS && s.env.request.NoRequest? && s.env.phases == 0
    requires LookedInto(s.slots, s.flags.current + 1, seen) && Before(seen, s.flags.current + 1)
    ensures Leads(seen, AdvanceAfterReference(s, io).0)
    decreases |s.slots| - s.flags.current, 0
  {
    var t := s.(flags := s.flags.(current := s.flags.current + 1));
    if t.flags.current < |t.slots| {
      DescriptorsLook(t, io, seen);
    } else {
      EndLooks(s, io, seen);
    }
  }

  lemma {:induction false} DescriptorsLook(s: State, io: Io, seen: Seen)
    requires s.flags.current < |s.slots| <= MAX_REPORTS && s.env.request.NoRequest? && s.env.phases == 0
    requires LookedInto(s.slots, s.flags.current, seen) && Before(seen, s.flags.current)
    ensures Leads(seen, StartDescriptors(s, io).0)
    decreases |s.slots| - s.flags.current, 1
  {
    if Empty(s.slots[s.flags.current]) {
      EmptyLooked(s.slots, s.flags.current, seen);
      AdvanceLooks(s, io, seen);
    } else {
      AskLooks(s, io, seen);
    }
  }

  lemma BeginLooks(s: State, io: Io, seen: Seen)
    requires 0 < |s.slots| <= MAX_REPORTS && s.env.request.NoRequest? && s.env.phases == 0 && Before(seen, 0)
    ensures Leads(seen, BeginDescriptors(s, io))
  {
    DescriptorsLook(s.(flags := s.flags.(current := 0)), io, seen);
  }

  lemma StepWalks(s: State, op: Op, seen: Seen)
    requires H.Session(s) && Walked(s, seen) && Legal(s, op)
    ensures Leads(seen, Step(s, op))
  {
    match op
    case ServiceFound(_, _, _) =>
    case NoService =>
    case Characteristic(handle, value, props, isReport, io) =>
      if |s.slots| < MAX_REPORTS {
        var closed := CloseLastSlot(s.slots, handle);
        var slots := if isReport then closed + [NewSlot(props, value, s.service.last)] else closed;
        var t := s.(slots := slots, lastHandle := value);
        if value >= s.service.last && slots != [] {
          BeginLooks(Answered(t), io, seen);
        }
      }
    case CharacteristicsEnd(io) =>
      if s.slots != [] {
        BeginLooks(Answered(s), io, seen);
      }
    case Descriptor(_, _) => DescriptorWalks(s, op, seen);
    case DescriptorsEnd(io) =>
      if s.slots[s.flags.current].refHandle == 0 {
        AdvanceLooks(Answered(s), io, seen);
      }
    case Reference(err, data, io) => ReferenceWalks(s, op, seen);
    case Feature(_, data, io) => StartLooked(Answered(s), io, seen);
    case Subscribed(_, _) => AnswerWalks(s, op, seen);
    case Unsubscribed(_) => AnswerWalks(s, op, seen);
  }

  lemma DescriptorWalks(s: State, op: Op, seen: Seen)
    requires H.Session(s) && Walked(s, seen) && Legal(s, op) && op.Descriptor?
    ensures Leads(seen, Step(s, op))
  {
    assert seen.descriptors + {s.flags.current} == seen.descriptors;
  }

  lemma ReferenceWalks(s: State, op: Op, seen: Seen)
    requires H.Session(s) && Walked(s, seen) && Legal(s, op) && op.Reference?
    ensures Leads(seen, Step(s, op))
  {
    var t := Answered(s);
    if op.data.Some? {
      if op.err != 0 || |op.data.value| < 2 {
        AdvanceLooks(t, op.io, seen);
      } else {
        AdvanceLooks(StoreReference(t, op.data.value[0] as int, op.data.value[1] as int), op.io, seen);
      }
    }
  }

  lemma AnswerWalks(s: State, op: Op, seen: Seen)
    requires H.Session(s) && Walked(s, seen) && Legal(s, op) && (op.Subscribed? || op.Unsubscribed?)
    ensures Leads(seen, Step(s, op))
  {
    var t := Step(s, op);
    R.AnswerFrame(s, op);
    AnswerKeepsRequest(s, op);
    if s.env.request.DescriptorRequest? || s.env.request.ReferenceRequest? {
      SameReportsLookedInto(s.slots, t.slots, s.flags.current, seen);
    }
    if s.env.request.FeatureRequest? || s.env.phases > 0 {
      SameReportsLookedInto(s.slots, t.slots, |s.slots|, seen);
    }
    assert s.env.request.DescriptorRequest? ==> seen.descriptors + {s.env.request.index} == seen.descriptors;
    assert s.env.request.ReferenceRequest? ==> seen.references + {s.env.request.index} == seen.references;
  }

  lemma SameReportsLookedInto(a: seq<Slot>, b: seq<Slot>, n: nat, seen: Seen)
    requires LookedInto(a, n, seen) && R.SameReports(a, b)
    ensures LookedInto(b, n, seen)
  {
    forall i | 0 <= i < n
      ensures a[i].valueHandle == b[i].valueHandle && a[i].endHandle == b[i].endHandle
      ensures a[i].refHandle == b[i].refHandle
    {
      assert a[i].(subscribed := false) == b[i].(subscribed := false);
    }
  }

  lemma AnswerKeepsRequest(s: State, op: Op)
    requires |s.slots| <= MAX_REPORTS && (op.Subscribed? || op.Unsubscribed?)
    ensures Step(s, op).env.request == s.env.request && Step(s, op).flags.current == s.flags.current
  {
  }

  lemma {:induction false} WalkHolds(io: Io, ops: seq<Op>)
    requires LegalRun(io, ops)
    ensures Walked(Run(io, ops), SeenBy(io, ops))
  {
    if ops != [] {
      WalkHolds(io, ops[..|ops| - 1]);
      H.SessionHolds(io, ops[..|ops| - 1]);
      StepWalks(Run(io, ops[..|ops| - 1]), ops[|ops| - 1], SeenBy(io, ops[..|ops| - 1]));
    }
  }

  /**
   No report is passed over: when a legal session starts to subscribe, it has asked for the descriptors of
   every report that can have any, and for the reference of every report that turned out to have one.
   */
  lemma EveryReportIsLookedInto(io: Io, ops: seq<Op>, i: nat)
    requires LegalRun(io, ops) && Run(io, ops).env.phases > 0 && i < |Run(io, ops).slots|
    ensures var slot := Run(io, ops).slots[i];
            && (slot.valueHandle < slot.endHandle ==> i in SeenBy(io, ops).descriptors)
            && (i in SeenBy(io, ops).descriptors && slot.refHandle != 0 ==> i in SeenBy(io, ops).references)
  {
    WalkHolds(io, ops);
  }

  // ---------- Sessions that come to nothing ----------

  /** Nothing has been posted or subscribed to, and no request is open whose answer could lead on. */
  predicate Dead(s: State) {
    s.env.request.NoRequest? && s.env.phases == 0 && s.env.posts == []
  }

  /** A report after the first `from` has descriptors to ask for. */
  ghost predicate MoreToAsk(slots: seq<Slot>, from: nat) {
    exists j :: from <= j < |slots| && !Empty(slots[j])
  }

  /** The mouse feature that would be read: the first slot of that role, if it can be read. */
  ghost predicate Readable(s: State) {
    s.profile.feature && exists j :: 0 <= j < |s.slots| && s.slots[j].role == MouseFeature && s.slots[j].props.read
                                     && forall k :: 0 <= k < j ==> s.slots[k].role != MouseFeature
  }

  /** The walk from a report on: it ends in a request, in the subscriptions, or in nothing. */
  ghost predicate WalkEnds(s: State, from: nat, io: Io, t: State) {
    && (MoreToAsk(s.slots, from) ==>
          && t.env.phases == s.env.phases && t.env.posts == s.env.posts && t.flags.active == s.flags.active
          && (t.env.request.DescriptorRequest? <==> io.discover == 0)
          && (t.env.request.NoRequest? <==> io.discover != 0))
    && (!MoreToAsk(s.slots, from) && Readable(s) && io.read == 0 ==>
          t.env.request.FeatureRequest? && t.env.phases == s.env.phases && t.env.posts == s.env.posts)
    && (!MoreToAsk(s.slots, from) && !(Readable(s) && io.read == 0) ==>
          t.env.request.NoRequest? && t.env.phases == s.env.phases + 1)
  }

  lemma FeatureEnds(s: State, io: Io)
    requires s.env.request.NoRequest? && |s.slots| <= MAX_REPORTS
    ensures var (t, status) := StartFeatureRead(s, io);
            && (s.profile.feature ==> (Readable(s) && io.read == 0 <==> status == OK))
            && (status == OK ==> t.env.request.FeatureRequest?) && (status != OK ==> t.env.request.NoRequest?)
            && t.slots == s.slots && t.env.phases == s.env.phases && t.env.posts == s.env.posts
  {
    var i := FindRole(s.slots, MouseFeature);
    if i < |s.slots| && Readable(s) {
      var j :| 0 <= j < |s.slots| && s.slots[j].role == MouseFeature && s.slots[j].props.read
               && forall k :: 0 <= k < j ==> s.slots[k].role != MouseFeature;
      SameFirst(s.slots, i, j);
    }
  }

  lemma SameFirst(slots: seq<Slot>, i: nat, j: nat)
    requires i < |slots| && j < |slots| && slots[i].role == MouseFeature && slots[j].role == MouseFeature
    requires forall k :: 0 <= k < i ==> slots[k].role != MouseFeature
    requires forall k :: 0 <= k < j ==> slots[k].role != MouseFeature
    ensures i == j
  {
  }

  lemma StartEnds(s: State, io: Io)
    requires |s.slots| <= MAX_REPORTS && s.env.request.NoRequest?
    ensures var t := StartSubscriptions(s, io).0; t.env.request.NoRequest? && t.env.phases == s.env.phases + 1
  {
    P.SubscribeKeepsRequest(OpenPhase(s), 0, false, io);
    R.StartOpensPhase(s, io);
  }

  lemma LastWalkEnds(s: State, io: Io)
    requires s.flags.current + 1 == |s.slots| <= MAX_REPORTS && s.env.request.NoRequest?
    ensures WalkEnds(s, s.flags.current + 1, io, AdvanceAfterReference(s, io).0)
  {
    var t := s.(flags := s.flags.(current := s.flags.current + 1));
    FeatureEnds(t, io);
    var u := if t.profile.feature then StartFeatureRead(t, io).0 else t;
    if u.env.request.NoRequest? {
      StartEnds(u, io);
    }
  }

  lemma AskEnds(s: State, io: Io)
    requires s.flags.current < |s.slots| <= MAX_REPORTS && s.env.request.NoRequest?
    requires !Empty(s.slots[s.flags.current])
    ensures MoreToAsk(s.slots, s.flags.current)
    ensures WalkEnds(s, s.flags.current, io, StartDescriptors(s, io).0) && StartDescriptors(s, io).1 == io.discover
  {
  }

  lemma EmptySkipped(slots: seq<Slot>, n: nat)
    requires n < |slots| && Empty(slots[n])
    ensures MoreToAsk(slots, n) <==> MoreToAsk(slots, n + 1)
  {
    if MoreToAsk(slots, n) {
      var j :| n <= j < |slots| && !Empty(slots[j]);
      assert n + 1 <= j;
    }
  }

  lemma {:induction false} WalkEndsExactly(s: State, io: Io)
    requires s.flags.current < |s.slots| <= MAX_REPORTS && s.env.request.NoRequest?
    ensures WalkEnds(s, s.flags.current + 1, io, AdvanceAfterReference(s, io).0)
    ensures MoreToAsk(s.slots, s.flags.current + 1) ==> AdvanceAfterReference(s, io).1 == io.discover
    decreases |s.slots| - s.flags.current, 0
  {
    if s.flags.current + 1 < |s.slots| {
      WalkFromEnds(s.(flags := s.flags.(current := s.flags.current + 1)), io);
    } else {
      LastWalkEnds(s, io);
    }
  }

  lemma {:induction false} WalkFromEnds(s: State, io: Io)
    requires s.flags.current < |s.slots| <= MAX_REPORTS && s.env.request.NoRequest?
    ensures WalkEnds(s, s.flags.current, io, StartDescriptors(s, io).0)
    ensures MoreToAsk(s.slots, s.flags.current) ==> StartDescriptors(s, io).1 == io.discover
    decreases |s.slots| - s.flags.current, 1
  {
    if Empty(s.slots[s.flags.current]) {
      EmptySkipped(s.slots, s.flags.current);
      WalkEndsExactly(s, io);
    } else {
      AskEnds(s, io);
    }
  }

  /** Discovery counts as running exactly as long as nothing has been posted. */
  predicate RunsUntilPost(s: State) {
    s.flags.active <==> s.env.posts == []
  }

  lemma {:induction false} LoopRuns(s: State, i: nat, saw: bool, io: Io)
    requires RunsUntilPost(s) && |s.slots| <= MAX_REPORTS
    ensures RunsUntilPost(SubscribeFrom(s, i, saw, io).0)
    decreases |s.slots| - i
  {
    if i < |s.slots| {
      if Wanted(s.slots[i]) && CanSubscribe(s.slots[i]) {
        LoopRuns(Subscribe(s, i, io.subscribe[i]), i + 1, saw || s.slots[i].role.KeyboardInput?, io);
      } else {
        LoopRuns(s, i + 1, saw, io);
      }
    }
  }

  lemma {:induction false} WalkRuns(s: State, io: Io)
    requires RunsUntilPost(s) && s.flags.current < |s.slots| <= MAX_REPORTS
    ensures RunsUntilPost(AdvanceAfterReference(s, io).0) && RunsUntilPost(StartDescriptors(s, io).0)
    decreases |s.slots| - s.flags.current
  {
    var t := s.(flags := s.flags.(current := s.flags.current + 1));
    if t.flags.current < |t.slots| {
      WalkRuns(t, io);
    } else {
      var u := if t.profile.feature then StartFeatureRead(t, io).0 else t;
      LoopRuns(OpenPhase(u), 0, false, io);
    }
  }

  lemma BeginRuns(s: State, io: Io)
    requires RunsUntilPost(s) && 0 < |s.slots| <= MAX_REPORTS
    ensures RunsUntilPost(BeginDescriptors(s, io))
  {
    WalkRuns(s.(flags := s.flags.(current := 0)), io);
  }

  lemma CharacteristicRuns(s: State, op: Op)
    requires RunsUntilPost(s) && |s.slots| <= MAX_REPORTS && op.Characteristic?
    ensures RunsUntilPost(Step(s, op))
  {
    if |s.slots| < MAX_REPORTS {
      var closed := CloseLastSlot(s.slots, op.handle);
      var slots := if op.isReport then closed + [NewSlot(op.props, op.value, s.service.last)] else closed;
      if op.value >= s.service.last && slots != [] {
        BeginRuns(Answered(s.(slots := slots, lastHandle := op.value)), op.io);
      }
    }
  }

  lemma ReferenceRuns(s: State, op: Op)
    requires RunsUntilPost(s) && s.flags.current < |s.slots| <= MAX_REPORTS && op.Reference?
    ensures RunsUntilPost(Step(s, op))
  {
    WalkRuns(Answered(s), op.io);
    if op.data.Some? && |op.data.value| >= 2 {
      WalkRuns(StoreReference(Answered(s), op.data.value[0] as int, op.data.value[1] as int), op.io);
    }
  }

  lemma StepRuns(s: State, op: Op, seen: Seen)
    requires RunsUntilPost(s) && Walked(s, seen) && Legal(s, op)
    ensures RunsUntilPost(Step(s, op))
  {
    match op
    case Characteristic(_, _, _, _, _) => CharacteristicRuns(s, op);
    case CharacteristicsEnd(io) =>
      if s.slots != [] {
        BeginRuns(Answered(s), io);
      }
    case DescriptorsEnd(io) => WalkRuns(Answered(s), io);
    case Reference(_, _, _) => ReferenceRuns(s, op);
    case Feature(_, data, io) => LoopRuns(OpenPhase(Answered(s)), 0, false, io);
    case _ =>
  }

  /** What brings a session to nothing: a ninth report, no buffer, or a later report that cannot be looked into. */
  ghost predicate Dies(s: State, op: Op)
    requires s.env.request.DescriptorRequest? ==> s.flags.current < |s.slots|
    requires Legal(s, op)
  {
    match op
    case Characteristic(_, _, _, _, _) => |s.slots| == 8
    case DescriptorsEnd(io) =>
      s.slots[s.flags.current].refHandle == 0 && io.discover != 0 && MoreToAsk(s.slots, s.flags.current + 1)
    case Reference(_, data, io) => data.None? || (io.discover != 0 && MoreToAsk(s.slots, s.flags.current + 1))
    case Feature(_, data, _) => data.None?
    case _ => false
  }

  lemma BeginNeverDies(s: State, io: Io)
    requires 0 < |s.slots| <= MAX_REPORTS && s.env.request.NoRequest? && s.env.phases == 0
    ensures !Dead(BeginDescriptors(s, io))
  {
    WalkFromEnds(s.(flags := s.flags.(current := 0)), io);
  }

  lemma CharacteristicDies(s: State, op: Op, seen: Seen)
    requires H.Session(s) && Walked(s, seen) && Legal(s, op) && op.Characteristic?
    ensures Dead(Step(s, op)) <==> Dies(s, op)
  {
    if |s.slots| < MAX_REPORTS {
      var closed := CloseLastSlot(s.slots, op.handle);
      var slots := if op.isReport then closed + [NewSlot(op.props, op.value, s.service.last)] else closed;
      if op.value >= s.service.last && slots != [] {
        BeginNeverDies(Answered(s.(slots := slots, lastHandle := op.value)), op.io);
      }
    }
  }

  lemma ReferenceDies(s: State, op: Op, seen: Seen)
    requires H.Session(s) && Walked(s, seen) && Legal(s, op) && op.Reference?
    ensures Dead(Step(s, op)) <==> Dies(s, op)
  {
    var t := Answered(s);
    if op.data.Some? {
      if op.err != 0 || |op.data.value| < 2 {
        WalkEndsExactly(t, op.io);
      } else {
        var u := StoreReference(t, op.data.value[0] as int, op.data.value[1] as int);
        WalkEndsExactly(u, op.io);
        SameRanges(t.slots, u.slots, t.flags.current + 1);
      }
    }
  }

  lemma SameRanges(a: seq<Slot>, b: seq<Slot>, from: nat)
    requires |a| == |b|
    requires forall j :: 0 <= j < |a| ==> a[j].valueHandle == b[j].valueHandle && a[j].endHandle == b[j].endHandle
    ensures MoreToAsk(a, from) <==> MoreToAsk(b, from)
  {
    if MoreToAsk(a, from) {
      var j :| from <= j < |a| && !Empty(a[j]);
      assert !Empty(b[j]);
    }
    if MoreToAsk(b, from) {
      var j :| from <= j < |b| && !Empty(b[j]);
      assert !Empty(a[j]);
    }
  }

  lemma StepDies(s: State, op: Op, seen: Seen)
    requires H.Session(s) && Walked(s, seen) && Legal(s, op) && !Dead(s)
    ensures Dead(Step(s, op)) <==> Dies(s, op)
  {
    match op
    case Characteristic(_, _, _, _, _) => CharacteristicDies(s, op, seen);
    case CharacteristicsEnd(io) =>
      if s.slots != [] {
        BeginNeverDies(Answered(s), io);
      }
    case DescriptorsEnd(io) => WalkEndsExactly(Answered(s), io);
    case Reference(_, _, _) => ReferenceDies(s, op, seen);
    case Feature(_, data, io) => StartEnds(Answered(s), io);
    case Subscribed(_, _) => AnswerDies(s, op);
    case Unsubscribed(_) => AnswerDies(s, op);
    case _ =>
  }

  lemma AnswerDies(s: State, op: Op)
    requires |s.slots| <= MAX_REPORTS && !Dead(s) && (op.Subscribed? || op.Unsubscribed?)
    ensures !Dead(Step(s, op))
  {
    R.AnswerFrame(s, op);
    AnswerKeepsRequest(s, op);
  }

  lemma {:induction false} SessionRuns(io: Io, ops: seq<Op>)
    requires LegalRun(io, ops)
    ensures RunsUntilPost(Run(io, ops))
  {
    if ops != [] {
      SessionRuns(io, ops[..|ops| - 1]);
      WalkHolds(io, ops[..|ops| - 1]);
      StepRuns(Run(io, ops[..|ops| - 1]), ops[|ops| - 1], SeenBy(io, ops[..|ops| - 1]));
    }
  }

  /**
   A session comes to nothing exactly when its very first request cannot be made, when a ninth report
   characteristic arrives, when a read is answered without a buffer, or when the descriptors of a report
   after the first cannot be asked for. Discovery then still counts as running.
   */
  lemma DiesExactly(io: Io, ops: seq<Op>, op: Op)
    requires LegalRun(io, ops) && Legal(Run(io, ops), op)
    ensures Run(io, ops).env.request.DescriptorRequest? ==> Run(io, ops).flags.current < |Run(io, ops).slots|
    ensures !Dead(Run(io, ops)) ==> (Dead(Step(Run(io, ops), op)) <==> Dies(Run(io, ops), op))
    ensures Dead(Run(io, [])) <==> io.discover != 0
    ensures Dead(Run(io, ops)) ==> Run(io, ops).flags.active
  {
    H.SessionHolds(io, ops);
    WalkHolds(io, ops);
    SessionRuns(io, ops);
    if !Dead(Run(io, ops)) {
      StepDies(Run(io, ops), op, SeenBy(io, ops));
    }
  }

  /** From then on no callback of the session changes that: neither HID_READY nor HID_FAILURE is ever posted. */
  lemma {:induction false} DeadForGood(io: Io, ops: seq<Op>, more: seq<Op>)
    requires LegalRun(io, ops) && Dead(Run(io, ops)) && LegalRun(io, ops + more)
    ensures Dead(Run(io, ops + more))
    decreases |more|
  {
    if more == [] {
      assert ops + more == ops;
    } else {
      var front, last := more[..|more| - 1], more[|more| - 1];
      H.LastSplits(ops, more);
      H.RunExtends(io, ops + front, last);
      DeadForGood(io, ops, front);
      H.SessionHolds(io, ops + front);
      DeadStep(Run(io, ops + front), last);
    }
  }

  lemma DeadStep(s: State, op: Op)
    requires H.Session(s) && Dead(s) && Legal(s, op)
    ensures Dead(Step(s, op))
  {
  }

  // ---------- Which failure is reported ----------

  /** A request that cannot be made, or finds nothing, is reported with its own reason. */
  lemma FailureTable(io: Io, ops: seq<Op>, op: Op)
    requires LegalRun(io, ops) && Legal(Run(io, ops), op)
    ensures var s := Run(io, ops);
            var before, after := s.env.posts, Step(s, op).env.posts;
            match op
            case NoService => after == before + [HidFailure(ServiceMissing)]
            case ServiceFound(_, _, i) =>
              after == before + (if i.discover != 0 then [HidFailure(ServiceMissing)] else [])
            case CharacteristicsEnd(_) => s.slots == [] ==> after == before + [HidFailure(ReportMissing)]
            case Descriptor(_, _) => after == before
            case DescriptorsEnd(i) =>
              (s.flags.current < |s.slots| && s.slots[s.flags.current].refHandle != 0 ==>
                 after == before + (if i.read != 0 then [HidFailure(ReportMissing)] else []))
            case Subscribed(i, err) =>
              if err != 0 && i < |s.slots| && R.IsKeyboard(s.slots[i])
              then after == before + [HidFailure(SubscribeFailed)]
              else after == before + Verdict(s, Step(s, op))
            case Unsubscribed(_) => after == before
            case _ => true
  {
    H.SessionHolds(io, ops);
    R.TableIsWhatWasFound(io, ops);
    var s := Run(io, ops);
    assert s.env.posts + [] == s.env.posts;
    if op.Subscribed? {
      assert R.SlotIs(s.slots[op.index], R.At(R.FoundBy(io, ops), op.index));
      VerdictPosted(s, op);
    }
  }

  /** What the last answer makes of a session: ready with a keyboard, failed without; and nothing before it. */
  function Verdict(s: State, t: State): seq<Post> {
    if s.flags.pending != 1 then []
    else if t.profile.keyboard then [HidReady(t.profile)] else [HidFailure(SubscribeFailed)]
  }

  lemma VerdictPosted(s: State, op: Op)
    requires H.Session(s) && Legal(s, op) && op.Subscribed? && op.index < |s.slots|
    requires s.slots[op.index].role.KeyboardInput? <==> R.IsKeyboard(s.slots[op.index])
    ensures var t := Step(s, op);
            t.env.posts == s.env.posts
                           + (if op.err != 0 && R.IsKeyboard(s.slots[op.index]) then [HidFailure(SubscribeFailed)]
                              else Verdict(s, t))
  {
    H.RecordedKeeps(s, op.index, op.err);
    R.RecordedFrame(s, op.index, op.err);
    assert s.env.posts + [] == s.env.posts;
  }
}
